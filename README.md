# oneq-cli (`1q`): a verified model of its core

`1q` turns a natural-language request into a one-line shell command. An
invocation works in this order:

1. It handles the configuration-and-info flags, or loads its configuration.
2. It resolves the output style and makes sure a Gemini API key is available,
   launching an interactive setup when none is found.
3. It joins the query words and calls the model exactly once with a prompt.
   The prompt holds the platform description and the query.
4. It checks that the answer is a JSON object.
5. It acts on the command: in the full-screen interface (TUI) or inline, it may
   execute it, copy it, or both.
6. It appends the request and the command to a history file that keeps only
   the last 100 records.

This project models three parts of that program:

- **`history.py`** is `History` (history.dfy). A class `HistoryFile` stands for
  the file: the records it holds, and why reading it back fails, if it does.
  - `Load` models `load_history`.
  - `Save` models `save_history`: load, append, cut to `MaxEntries` = 100, write.
  - The FIFO cap is stated on the function `Appended` and proved over any
    number of saves (`AppendAllKeepsLast`).
- **`gemini.py`** is `Gemini` (gemini.dfy):
  - the platform context, computed by a method proved equal to its
    specification (`PlatformContext`);
  - the exact prompt template (`Prompt`) and where the query and the context
    sit inside it;
  - the classification of the model's answer (`Classify`): a JSON object, or
    a `GeminiApiError` with the heading of the handler that catches it.
- **`cli.main`** is `Cli` (cli.dfy). `Invoke` is the imperative procedure. It
  maps the parsed flags and a `World` to an exit status and the ordered trace
  of effects. The `World` holds the answers of every collaborator: the
  configuration, the key setup, the model, the TUI, the shell and the
  clipboard. `Invoke` is proved to compute `Run`, a specification assembled
  from one function per phase. `CliProperties` (cli_properties.dfy) proves
  what an invocation guarantees about `Run`.

Supporting modules:

- `Wrappers` (Option and Result);
- `JsonValue` (an abstract JSON value);
- `Text` (Python's `str.join`).

Two points where the model follows what the code evidently means:

- **`history.py`.** The docstring of `save_history` on line 43 is indented by
  two spaces, while the body below it is indented by four. As written, the
  module does not parse. The model follows the evident intent: the body is the
  function's body.
- **`exceptions.py`.** The shown file defines only `OneQError`,
  `ApiKeyNotFound` and `ConfigurationError`. `cli.py` also imports
  `ApiKeySetupCancelled` and `GeminiApiError`. The model treats both as the
  exception kinds `main` evidently expects: an `Exception` subclass each, and
  neither is a subclass of any Google API error.

## Model

| member | source | states |
|---|---|---|
| Text.Join | src/oneq_cli/cli.py:161 | one part is returned unchanged; with two or more parts the result starts with the first part followed by the separator |
| Text.JoinEmptyIff | src/oneq_cli/cli.py:161-162 | a join is empty exactly when every part is empty, and there is at most one part or the separator is empty |
| Text.SpaceJoinEmptyIff | src/oneq_cli/cli.py:161-164 | the query `" ".join(words)` is empty exactly when no words or a single empty word were given |
| History.LoadWarning | src/oneq_cli/history.py:23-40 | a failed read prints a warning exactly when the failure is not a missing file |
| History.HistoryFile.Loaded | src/oneq_cli/history.py:20-40 | the loaded history is the stored records when the file reads back, and empty on every failure |
| History.HistoryFile.Load | src/oneq_cli/history.py:20-40 | once the `exists()` check has passed, `load_history` never fails: it returns the records, or the empty list with the warning for that failure (none for a missing file) |
| History.HistoryFile.Save | src/oneq_cli/history.py:42-61 | a successful write leaves the file holding the loaded history plus the new record, cut to the last 100. A directory or open failure leaves the file as it was. A dump failure leaves a file that no longer decodes. The load warnings come first and then the write warning, printed and swallowed |
| History.KeepLast | src/oneq_cli/history.py:48 | min(len(s), n) elements, which are the last ones of `s`, in order: Python's `s[-n:]` for n > 0, the only case used (n = 100) |
| History.Appended | src/oneq_cli/history.py:44-48 | the list `save_history` writes is never empty, never exceeds 100 records, is at most one longer than the loaded list, and ends with the new record |
| History.AppendedLength | src/oneq_cli/history.py:44-48 | the saved list has min(old length + 1, 100) records |
| History.AppendedNewest | src/oneq_cli/history.py:45-48 | the last record of the saved list is the one just passed in |
| History.AppendedBelowCap | src/oneq_cli/history.py:45-48 | below the cap nothing is dropped |
| History.AppendedAtCap | src/oneq_cli/history.py:48 | at the cap exactly the oldest record is dropped and the other 99 keep their order |
| History.AppendedIsSuffix | src/oneq_cli/history.py:44-48 | the saved list is a suffix of the old list followed by the new record: records are never edited or reordered |
| History.AppendAllKeepsLast | src/oneq_cli/history.py:42-48 | after any sequence of saves, each reading back the last, the history is the last 100 records of everything saved, in order; at least one save also cuts a loaded list longer than 100 |
| Gemini.DistroLabel | src/oneq_cli/gemini.py:24 | PRETTY_NAME when it is non-empty, else NAME when present (even empty), else "Unknown Distro" |
| Gemini.ShellLabel | src/oneq_cli/gemini.py:37 | the shell label is never empty: a non-empty SHELL, else a non-empty COMSPEC, else "Unknown shell" |
| Gemini.OsName | src/oneq_cli/gemini.py:20-35 | off Linux the label is the system name; on Linux it is plain "Linux" exactly when no distribution source is available, and otherwise "Linux (" followed by the os-release label or the `distro` name and ")" |
| Gemini.ContextParts | src/oneq_cli/gemini.py:18-38 | exactly two parts, the operating system first: "Operating System: " followed by the OS label, then "Shell: " followed by the shell label |
| Gemini.PlatformContext | src/oneq_cli/gemini.py:15-39 | the procedure builds the list of context parts (operating system, then shell) and joins them with ", " |
| Gemini.ContextFormat | src/oneq_cli/gemini.py:33-39 | the context is exactly "Operating System: <os>, Shell: <shell>" |
| Gemini.OsNameOtherSystem | src/oneq_cli/gemini.py:34-35 | off Linux the operating-system label is `platform.system()` unchanged |
| Gemini.OsNameLinux | src/oneq_cli/gemini.py:20-32 | on Linux the label starts with "Linux". It is plain "Linux" exactly when neither os-release nor the `distro` package is available, and otherwise exactly "Linux (" + the distribution + ")" |
| Gemini.PromptEmbeds | src/oneq_cli/gemini.py:60-73 | the prompt is the fixed template with the context right after the opening text and the query right before the closing text, each verbatim |
| Gemini.PromptDeterminesQuery | src/oneq_cli/gemini.py:60-73 | for one context, equal prompts mean equal queries: the query reaches the model unaltered |
| Gemini.HeadingFor | src/oneq_cli/gemini.py:97-117 | a rejected response is reported under the catch-all heading |
| Gemini.Classify | src/oneq_cli/gemini.py:75-117 | success exactly when the text is a string that decodes to a JSON object, and then the object is returned unchanged. Every other outcome is a `GeminiApiError` whose cause is the SDK exception or the rejection, with the heading of the handler that catches it |
| Gemini.RejectionsAreRewrapped | src/oneq_cli/gemini.py:81-117 | a non-string, undecodable or non-object answer ends under "An unexpected error occurred during Gemini interaction", because the error raised inside the `try` is caught again by the catch-all |
| Cli.StyleName | src/oneq_cli/cli.py:47-53 | of the style choices only `tui` is the string "tui" |
| Cli.ConfigInfo | src/oneq_cli/cli.py:100-116 | the configuration-and-info actions end the run exactly when one of their flags is given |
| Cli.Loading | src/oneq_cli/cli.py:119-131 | with `--ignore-default` the configuration is not touched; otherwise it is loaded first, and the missing-file warning is printed exactly when the file was not found |
| Cli.ResolveStyle | src/oneq_cli/cli.py:133-139 | an explicit style is used as given; "auto" takes the configured `output_style` when there is one, and the default otherwise |
| Cli.ResolvedStyle | src/oneq_cli/cli.py:133-139 | with `--ignore-default`, or when no configuration was loaded, the configuration file's outcome does not affect the style |
| Cli.KeyGate | src/oneq_cli/cli.py:141-159 | a key that is found is used with no further effect. Otherwise the warning and the setup launch come first, and the gate is open exactly when setup gave a key that could be saved; that key is used, and saving it is the gate's last effect |
| Cli.Execution | src/oneq_cli/cli.py:179-187 | executing announces the command and then runs it; any further effect is a message, and there is one exactly when the command did not exit with 0: failures are reported, not propagated |
| Cli.Copying | src/oneq_cli/cli.py:204-211 | the command is copied exactly when pyperclip is available; a message always comes last, and nothing but the copy and messages happens |
| Cli.ObtainApiKey | src/oneq_cli/cli.py:141-159 | the credential gate: the key found, or the key setup produced and saved, or a refusal after the setup was cancelled, failed or could not save |
| Cli.TuiAction | src/oneq_cli/cli.py:176-218 | no action records history, shows the response again or calls the model. The command is executed exactly for "execute" with a non-empty command, and copied exactly for "copy" with a non-empty command and pyperclip available; an empty command is never executed or copied |
| Cli.TuiSession | src/oneq_cli/cli.py:172-224 | the TUI mode shows the response first and never again, never calls the model, and can record history only as its last effect |
| Cli.InlineSession | src/oneq_cli/cli.py:226-255 | without "command" only "No command generated" is shown; with one, the command is shown first and recorded with the query last; the mode never shows the TUI or calls the model |
| Cli.TuiMode | src/oneq_cli/cli.py:172-224 | the TUI-mode procedure performs the TUI session specification |
| Cli.InlineMode | src/oneq_cli/cli.py:226-255 | the inline-mode procedure performs the inline session specification |
| Cli.Run | src/oneq_cli/cli.py:100-255 | every run exits with 0 or 1, and exits with 0 exactly when it is a configuration-and-info action or the model was reached and answered with a JSON object |
| Cli.Invoke | src/oneq_cli/cli.py:100-255 | `main()` step by step gives exactly the exit status and the effect trace of `Run` |
| CliProperties.ConfigInfoExitsFirst | src/oneq_cli/cli.py:100-116 | show-path, clear-config and set-default-output are checked in that order. Each exits 0 before configuration, key or model. Clearing happens exactly when confirmed |
| CliProperties.RunKeyRefused | src/oneq_cli/cli.py:141-159 | a refused key ends the run with status 1 after only the loading and key-gate effects |
| CliProperties.KeySetupFailureExits | src/oneq_cli/cli.py:144-159 | a missing key whose setup is cancelled, fails or cannot be saved exits 1 after launching setup. The query is not checked and the model is not called |
| CliProperties.SetupKeySavedBeforeUse | src/oneq_cli/cli.py:149-167 | a key obtained from setup is saved before the model is called with it |
| CliProperties.EmptyQueryExits | src/oneq_cli/cli.py:161-164 | the query is empty exactly for no words or one empty word; then the run exits 1 with "Please provide a query." last and no model call |
| CliProperties.CalledIsQuiet | src/oneq_cli/cli.py:119-167 | up to and including the model call nothing is shown, executed, copied or recorded, and the model call is the last effect |
| CliProperties.RunAnswered | src/oneq_cli/cli.py:166-172 | an answered call exits 0 with the effects up to the call followed by those of the chosen mode |
| CliProperties.SessionsCallNothing | src/oneq_cli/cli.py:172-255 | neither mode calls the model again |
| CliProperties.ModelCalledOnce | src/oneq_cli/cli.py:161-170 | the model is called exactly once when the run gets that far and never otherwise: there is no retry |
| CliProperties.PromptCarriesQuery | src/oneq_cli/gemini.py:58-76 | the model call uses the resolved key and a prompt holding the joined query verbatim before the closing text |
| CliProperties.ApiFailureExits | src/oneq_cli/cli.py:166-170 | a `GeminiApiError` exits 1 with the error shown last; nothing is executed, copied or recorded |
| CliProperties.AnsweredRunExitsZero | src/oneq_cli/cli.py:172-255 | once the model answered, the run exits 0 whatever the child command, the clipboard or the TUI does |
| CliProperties.StyleResolution | src/oneq_cli/cli.py:133-139 | an explicit style wins. "auto" takes the configured `output_style` when the configuration was loaded and has one, and the default otherwise |
| CliProperties.TuiOnlyForTuiStyle | src/oneq_cli/cli.py:134-172 | the TUI is shown exactly when the resolved style is "tui". A configured "auto" therefore goes inline |
| CliProperties.TuiSessionHistory | src/oneq_cli/cli.py:213-224 | in the TUI session, history is saved exactly when the result's query and command are both non-empty, as the last effect, whatever the action |
| CliProperties.TuiHistoryRule | src/oneq_cli/cli.py:220-221 | the same rule for the whole run in TUI mode, cancel included |
| CliProperties.TuiSessionEmptyCommand | src/oneq_cli/cli.py:176-211 | with an empty command the TUI session runs, copies and records nothing. An execute action then says there is no command to execute |
| CliProperties.TuiEmptyCommand | src/oneq_cli/cli.py:176-221 | the same for the whole run in TUI mode |
| CliProperties.InlineSessionOrder | src/oneq_cli/cli.py:227-252 | the inline session executes exactly when asked and copies exactly when asked with the clipboard available. Execute comes before copy, and the last effect records the query with the command |
| CliProperties.InlineWithCommand | src/oneq_cli/cli.py:226-252 | the same for the whole run in inline mode |
| CliProperties.InlineWithoutCommand | src/oneq_cli/cli.py:254-255 | an answer without "command" shows "No command generated" last; nothing is run, copied or recorded |

## Left out

- The model does not perform file-system, console, subprocess, clipboard or network I/O. Each is an effect in the trace, or an answer in `World` or `HistoryFile`.
- The effects `Execute(c)` and `Copy(c)` stand for the calls to `subprocess.run` and `pyperclip.copy`, not for their success. Either call may raise, and then nothing was run or copied; `RunOutcome` and `Clipboard` say what the call did.
- `argparse` is not modelled. `Args` is the already-parsed command line; `--version` and `--help` exit inside argparse.
- The collaborators in `config.py` and `tui.py` are not part of this model: `load_config`, `get_api_key`, `save_api_key`, `set_output_style`, `clear_config_file`, `ApiKeyApp`, `display_response_tui`, `display_history_tui`. The shown files do not define them, nor `config.DEFAULT_OUTPUT_STYLE` and `config.ConfigurationError`. What `main` handles of their results and exceptions is an input.
- The exact console wording is abstracted as `Notice` values. Exception messages are abstracted as a heading and a cause.
- The SDK call and `json.loads` are foreign code. Their outcome is the input `Response`, and a decoded value is an abstract `Json`.
- `genai.configure` and `GenerativeModel` (gemini.py:55-56) run outside the `try`. Their failures are not modelled; the model assumes both succeed.
- History.HistoryFile.Load: a history file that decodes to a JSON value other than a list is not modelled. `load_history` would return that value as it is.
- History.HistoryFile.Load and History.HistoryFile.Save: a list whose items are not `{query, command}` records is not modelled, because `Entry` holds only such records. `load_history` returns those items as they are and `save_history` writes them back beside the new record.
- Cli.ConfigInfo: `get_config_file_path` raising for `--show-config-path` (cli.py:102, whose `mkdir` at config.py:12 fails when `~/.config/1q` is a plain file or cannot be created) and `clear_config_file` raising (cli.py:107) are not modelled. The exception escapes `main` uncaught and the run ends with a traceback and status 1, where the model exits 0.
- Cli.Invoke and Cli.Run: collaborator exceptions that `main` does not catch are not modelled. These are `set_output_style` raising anything but `ConfigurationError` (cli.py:110-114), `load_config` raising anything but `FileNotFoundError` or `ConfigurationError` (cli.py:122-131), and `get_api_key` raising anything but `ApiKeyNotFound` (cli.py:142-144). Each ends the run with a traceback and status 1.
- History.HistoryFile.Load: `history_file.exists()` (history.py:23) runs outside the `try` and is not modelled. On Python 3.12 and earlier it re-raises an `OSError` such as a `PermissionError` on a parent directory; `load_history` and `save_history` (history.py:44) then raise. In inline mode the call at cli.py:252 is not guarded, so `main` ends with a traceback and status 1 after the command was executed or copied, where the model returns `[]` and exits 0.
- A history file that disappears between `exists()` and `open()` is not told apart from one that is missing: both are `NotFound`.
- Gemini.PlatformContext: a Linux system without an os-release file is not modelled. There `freedesktop_os_release` raises an `OSError`, which escapes uncaught.
- The handler order for `google_exceptions.APIError`, `GoogleAPIError` and the rest is taken from the source. The SDK's class hierarchy is not. Each SDK failure is a leaf kind caught by the first handler the source lists for it.
- Gemini.Classify, Gemini.RejectionsAreRewrapped and CliProperties.ApiFailureExits assume that every name in the except clauses at gemini.py:97-111 exists in `google.api_core.exceptions`. The shown files do not establish this for `google_exceptions.APIError` (gemini.py:97). Python looks up an except clause's name only when an exception reaches it. If the name is missing, that lookup raises an `AttributeError`, which replaces the exception being handled. Neither `generate_command` nor `main` catches it (main catches only `GeminiApiError`, cli.py:168), so every failure that reaches line 97 would end the run with a traceback instead of the error message. The model does not capture that crash.
- The "modify" and "refine" TUI actions are placeholders in the source. They are modelled as their messages only.
- Process exit is modelled as the exit status that `Invoke` returns. `main` falling off its end is status 0.
- Interrupts such as `KeyboardInterrupt`, and other non-`Exception` exceptions, are not modelled.
