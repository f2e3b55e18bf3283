/** `gemini.py`: the platform description put into every prompt, the prompt
    itself, and the classification of the model's answer into a JSON object
    or a `GeminiApiError`. The SDK call and JSON decoding are foreign: their
    outcome is an input (`Response`). */
module Gemini {
  import opened Wrappers
  import opened JsonValue
  import Text

  // ---------------------------------------------------------------------
  // Platform context
  // ---------------------------------------------------------------------

  /** What `platform.freedesktop_os_release` gave on Linux: the os-release
      fields, or (on a Python without that function) the name reported by
      the optional `distro` package, None when it is not installed. */
  datatype ReleaseProbe =
    | OsRelease(fields: map<string, string>)
    | NoOsReleaseApi(distroName: Option<string>)

  /** Python's `d.get(k)` used as a truth value: present and non-empty. */
  predicate Truthy(d: map<string, string>, k: string)
  {
    k in d && d[k] != ""
  }

  /** `info.get('PRETTY_NAME') or info.get('NAME', 'Unknown Distro')`. */
  function DistroLabel(fields: map<string, string>): (d: string)
    ensures Truthy(fields, "PRETTY_NAME") ==> d == fields["PRETTY_NAME"]
    ensures !Truthy(fields, "PRETTY_NAME") && "NAME" in fields ==> d == fields["NAME"]
    ensures !Truthy(fields, "PRETTY_NAME") && "NAME" !in fields ==> d == "Unknown Distro"
  {
    if Truthy(fields, "PRETTY_NAME") then fields["PRETTY_NAME"]
    else if "NAME" in fields then fields["NAME"]
    else "Unknown Distro"
  }

  /** The distribution a probe other than `NoOsReleaseApi(None)` names: the
      os-release label, or what the `distro` package reported. */
  function DistroFound(probe: ReleaseProbe): string
    requires probe != NoOsReleaseApi(None)
  {
    match probe
    case OsRelease(fields) => DistroLabel(fields)
    case NoOsReleaseApi(Some(d)) => d
  }

  /** The operating-system label: the system name, except that Linux is
      followed by its distribution in parentheses when one can be found. */
  function OsName(system: string, probe: ReleaseProbe): (name: string)
    ensures system != "Linux" ==> name == system
    ensures system == "Linux" ==> |name| >= 5 && name[..5] == "Linux"
    ensures name == "Linux" <==> system == "Linux" && probe == NoOsReleaseApi(None)
    ensures system == "Linux" && probe != NoOsReleaseApi(None) ==>
              |name| >= 8 && name[..7] == "Linux (" && name[|name| - 1] == ')'
              && name[7..|name| - 1] == DistroFound(probe)
  {
    if system != "Linux" then system
    else match probe
      case OsRelease(fields) => "Linux" + " (" + DistroLabel(fields) + ")"
      case NoOsReleaseApi(Some(d)) => "Linux" + " (" + d + ")"
      case NoOsReleaseApi(None) => "Linux"
  }

  /** `SHELL or COMSPEC or "Unknown shell"` over the environment. */
  function ShellLabel(env: map<string, string>): (shell: string)
    ensures shell != ""
    ensures Truthy(env, "SHELL") ==> shell == env["SHELL"]
    ensures !Truthy(env, "SHELL") && Truthy(env, "COMSPEC") ==> shell == env["COMSPEC"]
    ensures !Truthy(env, "SHELL") && !Truthy(env, "COMSPEC") ==> shell == "Unknown shell"
  {
    if Truthy(env, "SHELL") then env["SHELL"]
    else if Truthy(env, "COMSPEC") then env["COMSPEC"]
    else "Unknown shell"
  }

  /** The label in front of each part of the context. */
  const OsLabel: string := "Operating System: "
  const ShellLabelPrefix: string := "Shell: "

  /** The two parts of the context, operating system first, each made of its
      label and its value. */
  function ContextParts(system: string, probe: ReleaseProbe, env: map<string, string>): (parts: seq<string>)
    ensures |parts| == 2
    ensures |parts[0]| >= |OsLabel| && parts[0][..|OsLabel|] == OsLabel
            && parts[0][|OsLabel|..] == OsName(system, probe)
    ensures |parts[1]| >= |ShellLabelPrefix| && parts[1][..|ShellLabelPrefix|] == ShellLabelPrefix
            && parts[1][|ShellLabelPrefix|..] == ShellLabel(env)
  {
    [OsLabel + OsName(system, probe), ShellLabelPrefix + ShellLabel(env)]
  }

  /** `_get_platform_context()`, with `platform.system()`, the release probe
      and the environment as inputs: the parts are collected in a list and
      joined with ", ". */
  method PlatformContext(system: string, probe: ReleaseProbe, env: map<string, string>)
      returns (context: string)
    ensures context == Text.Join(", ", ContextParts(system, probe, env))
  {
    var parts: seq<string> := [];
    if system == "Linux" {
      var osName := "Linux";
      match probe {
        case OsRelease(fields) =>
          var release := DistroLabel(fields);
          osName := osName + " (" + release + ")";
        case NoOsReleaseApi(Some(d)) =>
          osName := osName + " (" + d + ")";
        case NoOsReleaseApi(None) =>
      }
      assert osName == OsName(system, probe);
      parts := parts + [OsLabel + osName];
    } else {
      parts := parts + [OsLabel + system];
    }
    var shell := ShellLabel(env);
    parts := parts + [ShellLabelPrefix + shell];
    assert parts == ContextParts(system, probe, env);
    context := Text.Join(", ", parts);
  }

  /** The context is exactly two parts, operating system first, separated
      by ", ". */
  lemma ContextFormat(system: string, probe: ReleaseProbe, env: map<string, string>)
    ensures Text.Join(", ", ContextParts(system, probe, env))
            == "Operating System: " + OsName(system, probe) + ", Shell: " + ShellLabel(env)
  {
    var os, shell := OsName(system, probe), ShellLabel(env);
    Text.JoinTwo(", ", "Operating System: " + os, "Shell: " + shell);
    assert ", " + "Shell: " == ", Shell: ";
    assert ("Operating System: " + os) + ", " + ("Shell: " + shell)
        == "Operating System: " + os + (", " + "Shell: ") + shell;
  }

  /** On any system other than Linux the label is the system name as given. */
  lemma OsNameOtherSystem(system: string, probe: ReleaseProbe)
    requires system != "Linux"
    ensures OsName(system, probe) == system
  {
  }

  /** On Linux the label always starts with "Linux"; it is plain "Linux" only
      when no distribution source is available. */
  lemma OsNameLinux(probe: ReleaseProbe)
    ensures |OsName("Linux", probe)| >= 5 && OsName("Linux", probe)[..5] == "Linux"
    ensures OsName("Linux", probe) == "Linux" <==> probe == NoOsReleaseApi(None)
    ensures probe != NoOsReleaseApi(None) ==>
              OsName("Linux", probe) == "Linux (" + DistroFound(probe) + ")"
  {
    var name := OsName("Linux", probe);
    if probe != NoOsReleaseApi(None) {
      assert |name| > 5;
      assert name == "Linux" + " (" + DistroFound(probe) + ")";
      assert "Linux" + " (" == "Linux (";
    }
  }

  // ---------------------------------------------------------------------
  // Prompt
  // ---------------------------------------------------------------------

  /** The prompt text before the platform context. */
  const PromptOpening: string :=
    "\n    You are a helpful assistant that translates natural language queries into shell commands.\n"
    + "    Your responses are structured as JSON, with a \"command\" key for the shell command and an \"explanation\" key\n"
    + "    for a brief explanation of what the command does.\n"
    + "    Here is platform context for more precise command generation: "

  /** The prompt text between the platform context and the query. */
  const PromptMiddle: string :=
    ".\n    If the query is ambiguous, ask for clarification.\n"
    + "    If you cannot generate a command, return a JSON object with an \"error\" key describing the problem.\n"
    + "    For example:\n"
    + "    {\n"
    + "      \"command\": \"ls -l\",\n"
    + "      \"explanation\": \"This command lists all files and directories in the current directory with detailed information.\"\n"
    + "    }\n"
    + "    Now, respond to the following query: "

  /** The prompt text after the query. */
  const PromptClosing: string := "\n    "

  /** The prompt `generate_command` sends: the fixed text with the platform
      context and the query put in. */
  function Prompt(query: string, context: string): (p: string)
  {
    PromptOpening + context + PromptMiddle + query + PromptClosing
  }

  /** Any five strings laid end to end can each be found again at its own
      position. */
  lemma FiveParts(opening: string, context: string, middle: string, query: string, closing: string)
    ensures var p := opening + context + middle + query + closing;
            && |p| == |opening| + |context| + |middle| + |query| + |closing|
            && p[..|opening|] == opening
            && p[|opening|..|opening| + |context|] == context
            && p[|opening| + |context|..|opening| + |context| + |middle|] == middle
            && p[|p| - |closing| - |query|..|p| - |closing|] == query
            && p[|p| - |closing|..] == closing
  {
    var a := opening + context;
    var b := a + middle;
    var c := b + query;
    var p := c + closing;
    assert p[..|c|] == c && p[|c|..] == closing;
    assert p[..|opening|] == a[..|opening|];
    assert p[|opening|..|a|] == a[|opening|..];
    assert p[|a|..|b|] == b[|a|..];
    assert p[|b|..|c|] == c[|b|..];
  }

  /** Both the platform context and the query appear verbatim in the prompt,
      at fixed positions: the context right after the opening text, the
      query right before the closing text. */
  lemma PromptEmbeds(query: string, context: string)
    ensures var p := Prompt(query, context);
            && |p| == |PromptOpening| + |context| + |PromptMiddle| + |query| + |PromptClosing|
            && p[..|PromptOpening|] == PromptOpening
            && p[|PromptOpening|..|PromptOpening| + |context|] == context
            && p[|PromptOpening| + |context|..|PromptOpening| + |context| + |PromptMiddle|] == PromptMiddle
            && p[|p| - |PromptClosing| - |query|..|p| - |PromptClosing|] == query
  {
    FiveParts(PromptOpening, context, PromptMiddle, query, PromptClosing);
  }

  /** Two different queries give two different prompts for the same context:
      the query reaches the model unaltered. */
  lemma PromptDeterminesQuery(q1: string, q2: string, context: string)
    requires Prompt(q1, context) == Prompt(q2, context)
    ensures q1 == q2
  {
    var p := Prompt(q1, context);
    PromptEmbeds(q1, context);
    PromptEmbeds(q2, context);
    assert |q1| == |q2|;
    assert q1 == p[|p| - |PromptClosing| - |q1|..|p| - |PromptClosing|] == q2;
  }

  // ---------------------------------------------------------------------
  // Response classification
  // ---------------------------------------------------------------------

  /** An exception raised by the SDK while generating or reading the
      response, by the handler that catches it (lines 97-117 of gemini.py,
      in order). */
  datatype SdkFailure =
    | ApiError
    | InvalidArgument
    | PermissionDenied
    | ResourceExhausted
    | FailedPrecondition
    | OtherGoogleApiError
    | MissingAttribute
    | OtherException

  /** The outcome of the one `model.generate_content(prompt)` call: it
      raised, or its `text` is not a string, or it is a string whose
      `json.loads` result is `decoded` (None when decoding failed). */
  datatype Response =
    | Raised(failure: SdkFailure)
    | NonString
    | Reply(text: string, decoded: Option<Json>)

  /** Why a response that arrived was refused (lines 82, 90 and 93). */
  datatype Rejection = NotAString | NotJson | NotAnObject

  /** What the `GeminiApiError` wraps. */
  datatype Cause = Sdk(failure: SdkFailure) | Rejected(rejection: Rejection)

  /** The wording with which each handler introduces the error. */
  datatype Heading =
    | GeneralApiError       // "Gemini API Error"
    | InvalidArgumentError  // "Gemini API Invalid Argument"
    | PermissionError       // "Gemini API Permission Denied"
    | QuotaError            // "Gemini API Resource Exhausted"
    | PreconditionError     // "Gemini API Failed Precondition"
    | UnexpectedApiError    // "An unexpected Gemini API error occurred"
    | ResponseStructureError // "Error parsing Gemini API response structure"
    | UnexpectedError       // "An unexpected error occurred during Gemini interaction"

  /** The only error kind `generate_command` lets escape. */
  datatype GeminiApiError = GeminiApiError(heading: Heading, cause: Cause)

  /** The handler that catches each cause. A rejection is itself raised as a
      `GeminiApiError` inside the `try`, is matched by no specific handler,
      and is wrapped again by the catch-all. */
  function HeadingFor(cause: Cause): (h: Heading)
    ensures cause.Rejected? ==> h == UnexpectedError
  {
    match cause
    case Rejected(_) => UnexpectedError
    case Sdk(ApiError) => GeneralApiError
    case Sdk(InvalidArgument) => InvalidArgumentError
    case Sdk(PermissionDenied) => PermissionError
    case Sdk(ResourceExhausted) => QuotaError
    case Sdk(FailedPrecondition) => PreconditionError
    case Sdk(OtherGoogleApiError) => UnexpectedApiError
    case Sdk(MissingAttribute) => ResponseStructureError
    case Sdk(OtherException) => UnexpectedError
  }

  function Fail(cause: Cause): Result<map<string, Json>, GeminiApiError>
  {
    Failure(GeminiApiError(HeadingFor(cause), cause))
  }

  /** The body of `generate_command` after the prompt is built: only a string
      that decodes to a JSON object succeeds, and then with that object
      unchanged; everything else is a `GeminiApiError`. */
  function Classify(response: Response): (r: Result<map<string, Json>, GeminiApiError>)
    ensures r.Success? <==> response.Reply? && response.decoded.Some? && response.decoded.value.JObject?
    ensures r.Success? ==> r.value == response.decoded.value.fields
    ensures r.Failure? ==> r.error.heading == HeadingFor(r.error.cause)
    ensures response.Raised? ==> r.Failure? && r.error.cause == Sdk(response.failure)
    ensures response.NonString? ==> r.Failure? && r.error.cause == Rejected(NotAString)
    ensures response.Reply? && response.decoded.None? ==> r.Failure? && r.error.cause == Rejected(NotJson)
    ensures response.Reply? && response.decoded.Some? && !response.decoded.value.JObject? ==>
              r.Failure? && r.error.cause == Rejected(NotAnObject)
  {
    match response
    case Raised(f) => Fail(Sdk(f))
    case NonString => Fail(Rejected(NotAString))
    case Reply(_, None) => Fail(Rejected(NotJson))
    case Reply(_, Some(JObject(fields))) => Success(fields)
    case Reply(_, Some(_)) => Fail(Rejected(NotAnObject))
  }

  /** A response that arrived but was refused is always reported under the
      catch-all heading, never under an SDK-specific one. */
  lemma RejectionsAreRewrapped(response: Response)
    requires !response.Raised?
    requires Classify(response).Failure?
    ensures Classify(response).error.heading == UnexpectedError
    ensures Classify(response).error.cause.Rejected?
  {
  }
}
