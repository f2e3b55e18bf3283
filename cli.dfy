/** `cli.main`: one invocation of the command-line tool, as a procedure from
    the parsed flags and the answers of its collaborators (configuration,
    key setup, the model, the full-screen interface, the shell, the
    clipboard) to an exit status and the ordered effects it performs. */
module Cli {
  import opened Wrappers
  import opened JsonValue
  import Text
  import Gemini

  // ---------------------------------------------------------------------
  // Inputs
  // ---------------------------------------------------------------------

  /** The values `--style` and `--set-default-output` accept. */
  datatype StyleChoice = Auto | Tui | Inline

  function StyleName(s: StyleChoice): (name: string)
    ensures name == "tui" <==> s == Tui
  {
    match s
    case Auto => "auto"
    case Tui => "tui"
    case Inline => "inline"
  }

  /** The parsed command line. */
  datatype Args = Args(
    query: seq<string>,                      // positional words
    style: StyleChoice,                      // -s/--style, "auto" by default
    execute: bool,                           // -e/--execute
    copy: bool,                              // -c/--copy
    ignoreDefault: bool,                     // -ig/--ignore-default
    showConfigPath: bool,                    // --show-config-path
    clearConfig: bool,                       // --clear-config
    defaultOutputStyle: Option<StyleChoice>) // --set-default-output

  /** The loaded configuration, as far as `main` looks at it: the value of
      option `output_style` of section `Settings`, if it has one. */
  datatype Config = Config(outputStyle: Option<string>)

  /** What `config.load_config()` does. */
  datatype ConfigLoad = Loaded(config: Config) | ConfigFileMissing | ConfigMalformed

  /** What the interactive key setup returns: a key, None, or an exception. */
  datatype KeySetup = Entered(key: string) | Cancelled | SetupRaised

  /** The record `display_response_tui` returns. */
  datatype TuiResult = TuiResult(action: string, query: string, command: string)

  datatype TuiOutcome = Returned(result: TuiResult) | TuiRaised

  /** What `subprocess.run(command, shell=True, check=True)` does. */
  datatype RunOutcome = Exited(code: int) | ShellNotFound | RunRaised

  /** Whether pyperclip is installed and, if so, whether copying raises. */
  datatype Clipboard = ClipboardMissing | ClipboardWorks | ClipboardRaises

  /** What `_get_platform_context` probes. */
  datatype Platform = Platform(system: string, probe: Gemini.ReleaseProbe, env: map<string, string>)

  /** Everything the invocation learns from outside, one answer per question
      it can ask (each question is asked at most once per run). */
  datatype World = World(
    confirmClear: bool,          // answer to "Are you sure ...?"
    styleSaveFails: bool,        // set_output_style raises ConfigurationError
    configLoad: ConfigLoad,
    defaultStyle: string,        // config.DEFAULT_OUTPUT_STYLE
    keyLookup: Option<string>,   // get_api_key(cfg); None is ApiKeyNotFound
    setup: KeySetup,
    keySaveFails: bool,          // save_api_key raises
    platform: Platform,
    response: Gemini.Response,
    tui: TuiOutcome,
    historyViewFails: bool,      // display_history_tui raises
    run: RunOutcome,
    clipboard: Clipboard)

  // ---------------------------------------------------------------------
  // Effects
  // ---------------------------------------------------------------------

  /** A message shown on the console. */
  datatype Notice =
    | StyleSaved(style: StyleChoice)
    | StyleSaveFailed
    | ConfigMissingWarning
    | ConfigInvalid
    | KeyMissingWarning
    | SetupCancelled
    | SetupFailed
    | QueryMissing
    | ApiFailed(error: Gemini.GeminiApiError)
    | GeneratedCommand(shown: Json)
    | Executing(running: Json)
    | CommandFailed(code: int)
    | CommandNotFound
    | ExecutionError
    | NoCommandToExecute
    | ModifyPlaceholder
    | NoCommandToModify
    | RefinePlaceholder
    | Copied
    | ClipboardUnavailable
    | CopyFailed
    | ActionCancelled
    | TuiFailed
    | NoCommandGenerated

  /** One observable step of the invocation. */
  datatype Effect =
    | PrintConfigPath
    | AskClearConfirmation
    | ClearConfigFile
    | SaveOutputStyle(style: StyleChoice)
    | LoadConfig
    | LaunchKeySetup
    | SaveApiKey(key: string)
    | CallModel(apiKey: string, prompt: string)
    | ShowResponseTui(response: map<string, Json>)
    | Execute(command: Json)
    | Copy(command: Json)
    | ShowHistoryTui
    | SaveHistory(query: string, command: Json)
    | Say(notice: Notice)

  /** The exit status and the effects, in order. */
  datatype Outcome = Outcome(exit: int, trace: seq<Effect>)

  // ---------------------------------------------------------------------
  // The phases of an invocation, as functions
  // ---------------------------------------------------------------------

  predicate IsConfigInfo(args: Args)
  {
    args.showConfigPath || args.clearConfig || args.defaultOutputStyle.Some?
  }

  /** The configuration-and-info actions, which end the run before anything
      else; None when no such flag is given. */
  function ConfigInfo(args: Args, w: World): (o: Option<Outcome>)
    ensures o.Some? <==> IsConfigInfo(args)
  {
    if args.showConfigPath then
      Some(Outcome(0, [PrintConfigPath]))
    else if args.clearConfig then
      Some(Outcome(0, [AskClearConfirmation] + if w.confirmClear then [ClearConfigFile] else []))
    else match args.defaultOutputStyle
      case Some(s) =>
        Some(Outcome(0, [SaveOutputStyle(s), Say(if w.styleSaveFails then StyleSaveFailed else StyleSaved(s))]))
      case None => None
  }

  /** The configuration `main` works with: None when loading was skipped or
      the file was not found. */
  function LoadedConfig(args: Args, w: World): Option<Config>
  {
    if !args.ignoreDefault && w.configLoad.Loaded? then Some(w.configLoad.config) else None
  }

  /** A malformed configuration file ends the run. */
  predicate ConfigRefused(args: Args, w: World)
  {
    !args.ignoreDefault && w.configLoad.ConfigMalformed?
  }

  /** The effects of loading the configuration, when it is not refused. */
  function Loading(args: Args, w: World): (effects: seq<Effect>)
    ensures args.ignoreDefault <==> effects == []
    ensures !args.ignoreDefault ==> effects[0] == LoadConfig
    ensures Say(ConfigMissingWarning) in effects <==> !args.ignoreDefault && w.configLoad.ConfigFileMissing?
  {
    if args.ignoreDefault then []
    else [LoadConfig] + if w.configLoad.ConfigFileMissing? then [Say(ConfigMissingWarning)] else []
  }

  /** Output-style resolution: an explicit style is used as it is; "auto"
      takes the configured style, else the default. */
  function ResolveStyle(style: StyleChoice, cfg: Option<Config>, default: string): (s: string)
    ensures style != Auto ==> s == StyleName(style)
    ensures style == Auto && cfg.Some? && cfg.value.outputStyle.Some? ==> s == cfg.value.outputStyle.value
    ensures style == Auto && (cfg.None? || cfg.value.outputStyle.None?) ==> s == default
  {
    if style != Auto then StyleName(style)
    else if cfg.Some? && cfg.value.outputStyle.Some? then cfg.value.outputStyle.value
    else default
  }

  function ResolvedStyle(args: Args, w: World): (s: string)
    ensures args.ignoreDefault || !w.configLoad.Loaded? ==> s == ResolveStyle(args.style, None, w.defaultStyle)
  {
    ResolveStyle(args.style, LoadedConfig(args, w), w.defaultStyle)
  }

  /** The credential gate: the key found, or the one setup produced. */
  datatype Gate = KeyReady(key: string, effects: seq<Effect>) | KeyRefused(effects: seq<Effect>)

  function KeyGate(w: World): (g: Gate)
    ensures w.keyLookup.Some? ==> g == KeyReady(w.keyLookup.value, [])
    ensures g.KeyReady? <==> w.keyLookup.Some? || (w.setup.Entered? && !w.keySaveFails)
    ensures w.keyLookup.None? ==> |g.effects| >= 3 && g.effects[..2] == [Say(KeyMissingWarning), LaunchKeySetup]
    ensures w.keyLookup.None? && g.KeyReady? ==>
              g.key == w.setup.key && g.effects[|g.effects| - 1] == SaveApiKey(g.key)
  {
    match w.keyLookup
    case Some(k) => KeyReady(k, [])
    case None =>
      var launching := [Say(KeyMissingWarning), LaunchKeySetup];
      match w.setup
      case Cancelled => KeyRefused(launching + [Say(SetupCancelled)])
      case SetupRaised => KeyRefused(launching + [Say(SetupFailed)])
      case Entered(k) =>
        if w.keySaveFails then KeyRefused(launching + [SaveApiKey(k), Say(SetupFailed)])
        else KeyReady(k, launching + [SaveApiKey(k)])
  }

  /** The query: the words joined by single spaces. */
  function Query(args: Args): string
  {
    Text.Join(" ", args.query)
  }

  /** The platform context put into the prompt. */
  function Context(p: Platform): string
  {
    Text.Join(", ", Gemini.ContextParts(p.system, p.probe, p.env))
  }

  /** The run gets as far as calling the model. */
  predicate Reaches(args: Args, w: World)
  {
    !IsConfigInfo(args) && !ConfigRefused(args, w) && KeyGate(w).KeyReady? && Query(args) != ""
  }

  /** What the try block around `subprocess.run` does and prints: a failing
      child command is reported, never propagated. */
  function Execution(command: Json, run: RunOutcome): (effects: seq<Effect>)
    ensures |effects| >= 2 && effects[..2] == [Say(Executing(command)), Execute(command)]
    ensures |effects| == 2 <==> run == Exited(0)
    ensures forall e :: e in effects[2..] ==> e.Say?
  {
    [Say(Executing(command)), Execute(command)]
    + match run
      case Exited(0) => []
      case Exited(code) => [Say(CommandFailed(code))]
      case ShellNotFound => [Say(CommandNotFound)]
      case RunRaised => [Say(ExecutionError)]
  }

  /** What the try block around `pyperclip.copy` does and prints. */
  function Copying(command: Json, clipboard: Clipboard): (effects: seq<Effect>)
    ensures Copy(command) in effects <==> !clipboard.ClipboardMissing?
    ensures |effects| > 0 && effects[|effects| - 1].Say?
    ensures forall e :: e in effects ==> e == Copy(command) || e.Say?
  {
    match clipboard
    case ClipboardMissing => [Say(ClipboardUnavailable)]
    case ClipboardWorks => [Copy(command), Say(Copied)]
    case ClipboardRaises => [Copy(command), Say(CopyFailed)]
  }

  /** The dispatch on `result.action` in TUI mode. */
  function TuiAction(r: TuiResult, w: World): (effects: seq<Effect>)
    ensures forall e :: e in effects ==> !e.SaveHistory? && !e.ShowResponseTui? && !e.CallModel?
    ensures Execute(JString(r.command)) in effects <==> r.action == "execute" && r.command != ""
    ensures Copy(JString(r.command)) in effects <==>
              r.action == "copy" && r.command != "" && !w.clipboard.ClipboardMissing?
    ensures r.command == "" ==> forall e :: e in effects ==> !e.Execute? && !e.Copy?
  {
    if r.action == "execute" then
      if r.command != "" then Execution(JString(r.command), w.run) else [Say(NoCommandToExecute)]
    else if r.action == "modify" then
      if r.command != "" then [Say(ModifyPlaceholder)] else [Say(NoCommandToModify)]
    else if r.action == "refine" then
      [Say(RefinePlaceholder)]
    else if r.action == "copy" then
      if r.command != "" then Copying(JString(r.command), w.clipboard) else []
    else if r.action == "view_history" then
      [ShowHistoryTui]
    else
      [Say(ActionCancelled)]
  }

  /** TUI mode: show the response, act on the chosen action, and record the
      result's query and command when both are non-empty. Any exception in
      the interface ends the mode with a message and no history entry. */
  function TuiSession(m: map<string, Json>, w: World): (effects: seq<Effect>)
    ensures |effects| > 0 && effects[0] == ShowResponseTui(m)
    ensures forall i :: 1 <= i < |effects| ==> !effects[i].ShowResponseTui? && !effects[i].CallModel?
    ensures forall i :: 0 <= i < |effects| - 1 ==> !effects[i].SaveHistory?
  {
    [ShowResponseTui(m)]
    + match w.tui
      case TuiRaised => [Say(TuiFailed)]
      case Returned(r) =>
        if r.action == "view_history" && w.historyViewFails then [ShowHistoryTui, Say(TuiFailed)]
        else TuiAction(r, w)
             + if r.query != "" && r.command != "" then [SaveHistory(r.query, JString(r.command))] else []
  }

  /** Inline mode: with a "command" key, show it, execute it if asked, copy
      it if asked, then record it; without one, say so. */
  function InlineSession(query: string, m: map<string, Json>, args: Args, w: World): (effects: seq<Effect>)
    ensures "command" !in m ==> effects == [Say(NoCommandGenerated)]
    ensures "command" in m ==>
              |effects| >= 2 && effects[0] == Say(GeneratedCommand(m["command"]))
              && effects[|effects| - 1] == SaveHistory(query, m["command"])
    ensures forall e :: e in effects ==> !e.ShowResponseTui? && !e.CallModel?
  {
    if "command" in m then
      var command := m["command"];
      [Say(GeneratedCommand(command))]
      + (if args.execute then Execution(command, w.run) else [])
      + (if args.copy then Copying(command, w.clipboard) else [])
      + [SaveHistory(query, command)]
    else
      [Say(NoCommandGenerated)]
  }

  /** The effects up to and including the one model call. */
  function Called(args: Args, w: World): seq<Effect>
    requires !IsConfigInfo(args) && !ConfigRefused(args, w) && KeyGate(w).KeyReady?
  {
    Loading(args, w) + KeyGate(w).effects
    + [CallModel(KeyGate(w).key, Gemini.Prompt(Query(args), Context(w.platform)))]
  }

  /** The effects after the model answered with the object `m`. */
  function Dispatch(args: Args, w: World, m: map<string, Json>): seq<Effect>
  {
    if ResolvedStyle(args, w) == "tui" then TuiSession(m, w) else InlineSession(Query(args), m, args, w)
  }

  /** The whole invocation. */
  function Run(args: Args, w: World): (o: Outcome)
    ensures o.exit == 0 || o.exit == 1
    ensures o.exit == 0 <==> IsConfigInfo(args) || (Reaches(args, w) && Gemini.Classify(w.response).Success?)
  {
    if IsConfigInfo(args) then ConfigInfo(args, w).value
    else if ConfigRefused(args, w) then Outcome(1, [LoadConfig, Say(ConfigInvalid)])
    else match KeyGate(w)
      case KeyRefused(t) => Outcome(1, Loading(args, w) + t)
      case KeyReady(_, t) =>
        if Query(args) == "" then Outcome(1, Loading(args, w) + t + [Say(QueryMissing)])
        else match Gemini.Classify(w.response)
          case Failure(e) => Outcome(1, Called(args, w) + [Say(ApiFailed(e))])
          case Success(m) => Outcome(0, Called(args, w) + Dispatch(args, w, m))
  }

  // ---------------------------------------------------------------------
  // The procedure
  // ---------------------------------------------------------------------

  /** `main()`, step by step: early exits return the status `sys.exit`
      would give; falling off the end is status 0. */
  method Invoke(args: Args, w: World) returns (exit: int, trace: seq<Effect>)
    ensures Outcome(exit, trace) == Run(args, w)
  {
    trace := [];

    // Configuration and info actions
    if args.showConfigPath {
      trace := trace + [PrintConfigPath];
      return 0, trace;
    }
    if args.clearConfig {
      trace := trace + [AskClearConfirmation];
      if w.confirmClear {
        trace := trace + [ClearConfigFile];
      }
      return 0, trace;
    }
    if args.defaultOutputStyle.Some? {
      var style := args.defaultOutputStyle.value;
      trace := trace + [SaveOutputStyle(style)];
      if w.styleSaveFails {
        trace := trace + [Say(StyleSaveFailed)];
      } else {
        trace := trace + [Say(StyleSaved(style))];
      }
      return 0, trace;
    }

    // Load configuration unless --ignore-default
    var cfg: Option<Config> := None;
    if !args.ignoreDefault {
      trace := trace + [LoadConfig];
      match w.configLoad {
        case Loaded(c) =>
          cfg := Some(c);
        case ConfigFileMissing =>
          trace := trace + [Say(ConfigMissingWarning)];
        case ConfigMalformed =>
          trace := trace + [Say(ConfigInvalid)];
          return 1, trace;
      }
    }
    assert trace == Loading(args, w) && cfg == LoadedConfig(args, w);

    // Output style
    var outputStyle := StyleName(args.style);
    if args.style == Auto {
      if cfg.Some? && cfg.value.outputStyle.Some? {
        outputStyle := cfg.value.outputStyle.value;
      } else {
        outputStyle := w.defaultStyle;
      }
    }
    assert outputStyle == ResolvedStyle(args, w);

    // API key, with a one-shot interactive setup
    var gate := ObtainApiKey(w);
    trace := trace + gate.effects;
    if gate.KeyRefused? {
      return 1, trace;
    }
    var apiKey := gate.key;

    // Query
    var query := Text.Join(" ", args.query);
    if query == "" {
      trace := trace + [Say(QueryMissing)];
      return 1, trace;
    }

    // One model call
    var context := Gemini.PlatformContext(w.platform.system, w.platform.probe, w.platform.env);
    var prompt := Gemini.Prompt(query, context);
    trace := trace + [CallModel(apiKey, prompt)];
    assert trace == Called(args, w);
    var responseData := Gemini.Classify(w.response);
    if responseData.Failure? {
      trace := trace + [Say(ApiFailed(responseData.error))];
      return 1, trace;
    }
    var response := responseData.value;

    if outputStyle == "tui" {
      var effects := TuiMode(response, w);
      trace := trace + effects;
    } else {
      var effects := InlineMode(query, response, args, w);
      trace := trace + effects;
    }
    exit := 0;
  }

  /** The TUI branch of `main` (the try block starting at line 173). */
  method TuiMode(response: map<string, Json>, w: World) returns (effects: seq<Effect>)
    ensures effects == TuiSession(response, w)
  {
    effects := [ShowResponseTui(response)];
    match w.tui {
      case TuiRaised =>
        effects := effects + [Say(TuiFailed)];
      case Returned(result) =>
        var command := JString(result.command);
        if result.action == "execute" {
          if result.command != "" {
            effects := effects + Execution(command, w.run);
          } else {
            effects := effects + [Say(NoCommandToExecute)];
          }
        } else if result.action == "modify" {
          if result.command != "" {
            effects := effects + [Say(ModifyPlaceholder)];
          } else {
            effects := effects + [Say(NoCommandToModify)];
          }
        } else if result.action == "refine" {
          effects := effects + [Say(RefinePlaceholder)];
        } else if result.action == "copy" {
          if result.command != "" {
            effects := effects + Copying(command, w.clipboard);
          }
        } else if result.action == "view_history" {
          effects := effects + [ShowHistoryTui];
          if w.historyViewFails {
            return effects + [Say(TuiFailed)];
          }
        } else {
          effects := effects + [Say(ActionCancelled)];
        }
        assert effects == [ShowResponseTui(response)] + TuiAction(result, w);
        if result.query != "" && result.command != "" {
          effects := effects + [SaveHistory(result.query, command)];
        }
    }
  }

  /** The inline branch of `main` (lines 227-255). */
  method InlineMode(query: string, response: map<string, Json>, args: Args, w: World)
      returns (effects: seq<Effect>)
    ensures effects == InlineSession(query, response, args, w)
  {
    if "command" in response {
      var command := response["command"];
      effects := [Say(GeneratedCommand(command))];
      if args.execute {
        effects := effects + Execution(command, w.run);
      }
      if args.copy {
        effects := effects + Copying(command, w.clipboard);
      }
      effects := effects + [SaveHistory(query, command)];
    } else {
      effects := [Say(NoCommandGenerated)];
    }
  }

  /** The credential check of `main` (lines 142-159): the key lookup, and
      when it fails the interactive setup, tried once; a key from setup is
      saved before it is used. */
  method ObtainApiKey(w: World) returns (gate: Gate)
    ensures gate == KeyGate(w)
  {
    match w.keyLookup {
      case Some(k) =>
        return KeyReady(k, []);
      case None =>
        var effects := [Say(KeyMissingWarning), LaunchKeySetup];
        match w.setup {
          case Cancelled =>
            return KeyRefused(effects + [Say(SetupCancelled)]);
          case SetupRaised =>
            return KeyRefused(effects + [Say(SetupFailed)]);
          case Entered(k) =>
            effects := effects + [SaveApiKey(k)];
            if w.keySaveFails {
              return KeyRefused(effects + [Say(SetupFailed)]);
            }
            return KeyReady(k, effects);
        }
    }
  }
}
