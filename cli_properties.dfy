/** What one invocation of `cli.main` guarantees, stated over `Cli.Run`
    (which `Cli.Invoke` is proved to compute). */
module CliProperties {
  import opened Wrappers
  import opened JsonValue
  import Text
  import Gemini
  import opened Cli

  // ---------------------------------------------------------------------
  // Observations on traces
  // ---------------------------------------------------------------------

  /** How many times the trace calls the model. */
  function CallCount(t: seq<Effect>): nat
  {
    if t == [] then 0 else (if t[0].CallModel? then 1 else 0) + CallCount(t[1..])
  }

  predicate ShowsTui(t: seq<Effect>)
  {
    exists e :: e in t && e.ShowResponseTui?
  }

  predicate SavesHistory(t: seq<Effect>)
  {
    exists e :: e in t && e.SaveHistory?
  }

  predicate RunsOrCopies(t: seq<Effect>)
  {
    exists e :: e in t && (e.Execute? || e.Copy?)
  }

  /** Effects that act on the command or on the model. */
  predicate Acts(e: Effect)
  {
    e.ShowResponseTui? || e.Execute? || e.Copy? || e.SaveHistory? || e.CallModel?
  }

  lemma {:induction false} CallCountConcat(a: seq<Effect>, b: seq<Effect>)
    ensures CallCount(a + b) == CallCount(a) + CallCount(b)
  {
    if a == [] {
      assert a + b == b;
    } else {
      assert (a + b)[1..] == a[1..] + b;
      CallCountConcat(a[1..], b);
    }
  }

  lemma {:induction false} CallCountNone(t: seq<Effect>)
    requires forall e :: e in t ==> !e.CallModel?
    ensures CallCount(t) == 0
  {
    if t != [] {
      assert forall e :: e in t[1..] ==> e in t;
      CallCountNone(t[1..]);
    }
  }

  // ---------------------------------------------------------------------
  // The pieces of a run
  // ---------------------------------------------------------------------

  lemma LoadingIsQuiet(args: Args, w: World)
    ensures forall e :: e in Loading(args, w) ==> !Acts(e)
  {
  }

  lemma GateIsQuiet(w: World)
    ensures forall e :: e in KeyGate(w).effects ==> !Acts(e)
  {
  }

  /** Up to the model call nothing acts, and the call comes last. */
  lemma CalledIsQuiet(args: Args, w: World)
    requires Reaches(args, w)
    ensures var c := Called(args, w);
            && |c| > 0 && c[|c| - 1] == CallModel(KeyGate(w).key, Gemini.Prompt(Query(args), Context(w.platform)))
            && c[..|c| - 1] == Loading(args, w) + KeyGate(w).effects
            && !ShowsTui(c) && !SavesHistory(c) && !RunsOrCopies(c) && CallCount(c) == 1
  {
    LoadingIsQuiet(args, w);
    GateIsQuiet(w);
    var pre := Loading(args, w) + KeyGate(w).effects;
    var call := CallModel(KeyGate(w).key, Gemini.Prompt(Query(args), Context(w.platform)));
    assert Called(args, w) == pre + [call];
    QuietThenCall(pre, call);
  }

  /** Quiet effects followed by one model call. */
  lemma QuietThenCall(pre: seq<Effect>, call: Effect)
    requires forall e :: e in pre ==> !Acts(e)
    requires call.CallModel?
    ensures var c := pre + [call];
            && c[|c| - 1] == call && c[..|c| - 1] == pre
            && !ShowsTui(c) && !SavesHistory(c) && !RunsOrCopies(c) && CallCount(c) == 1
  {
    var c := pre + [call];
    assert c[..|c| - 1] == pre;
    CallCountNone(pre);
    CallCountConcat(pre, [call]);
    assert [call][1..] == [];
  }

  /** Once answered, a run is the effects up to the call, then the mode's. */
  lemma RunAnswered(args: Args, w: World)
    requires Reaches(args, w) && Gemini.Classify(w.response).Success?
    ensures Run(args, w) == Outcome(0, Called(args, w) + Dispatch(args, w, Gemini.Classify(w.response).value))
  {
  }

  /** A refused key ends the run with what loading and the gate did. */
  lemma RunKeyRefused(args: Args, w: World)
    requires !IsConfigInfo(args) && !ConfigRefused(args, w) && KeyGate(w).KeyRefused?
    ensures Run(args, w) == Outcome(1, Loading(args, w) + KeyGate(w).effects)
  {
  }

  /** Nothing before the mode's effects acts; so what acts is the mode's. */
  lemma AnsweredTrace(args: Args, w: World)
    requires Reaches(args, w) && Gemini.Classify(w.response).Success?
    ensures var t := Run(args, w).trace;
            var d := Dispatch(args, w, Gemini.Classify(w.response).value);
            && (ShowsTui(t) <==> ShowsTui(d))
            && (SavesHistory(t) <==> SavesHistory(d))
            && (RunsOrCopies(t) <==> RunsOrCopies(d))
            && (forall e: Effect :: !Acts(e) ==> (e in t <==> e in Called(args, w) || e in d))
            && (forall e: Effect :: (e.Execute? || e.Copy?) ==> (e in t <==> e in d))
            && (|d| > 0 ==> t[|t| - 1] == d[|d| - 1])
  {
    RunAnswered(args, w);
    CalledIsQuiet(args, w);
  }

  // ---------------------------------------------------------------------
  // Early exits
  // ---------------------------------------------------------------------

  /** The configuration-and-info actions are checked in the order
      show-path, clear-config, set-default-output; each ends the run with
      status 0 before the configuration is loaded, the key is checked or the
      model is called. */
  lemma ConfigInfoExitsFirst(args: Args, w: World)
    requires IsConfigInfo(args)
    ensures Run(args, w).exit == 0
    ensures forall e :: e in Run(args, w).trace ==>
              e.PrintConfigPath? || e.AskClearConfirmation? || e.ClearConfigFile?
              || e.SaveOutputStyle? || e.Say?
    ensures args.showConfigPath ==> Run(args, w).trace == [PrintConfigPath]
    ensures !args.showConfigPath && args.clearConfig ==>
              Run(args, w).trace[0] == AskClearConfirmation
              && (ClearConfigFile in Run(args, w).trace <==> w.confirmClear)
    ensures !args.showConfigPath && !args.clearConfig ==>
              Run(args, w).trace[0] == SaveOutputStyle(args.defaultOutputStyle.value)
  {
  }

  /** If the key lookup fails and setup is cancelled, fails, or its key
      cannot be saved, the run exits with status 1 after launching setup,
      before the query check and the model. */
  lemma KeySetupFailureExits(args: Args, w: World)
    requires !IsConfigInfo(args) && !ConfigRefused(args, w)
    requires w.keyLookup.None? && (!w.setup.Entered? || w.keySaveFails)
    ensures Run(args, w).exit == 1
    ensures LaunchKeySetup in Run(args, w).trace
    ensures Say(QueryMissing) !in Run(args, w).trace
    ensures CallCount(Run(args, w).trace) == 0
  {
    RunKeyRefused(args, w);
    LoadingIsQuiet(args, w);
    GateIsQuiet(w);
    var g := KeyGate(w).effects;
    assert g[1] == LaunchKeySetup;
    assert Say(QueryMissing) !in g;
    CallCountNone(Loading(args, w) + g);
  }

  /** A key obtained from setup is saved before the model is called with it. */
  lemma SetupKeySavedBeforeUse(args: Args, w: World)
    requires Reaches(args, w) && w.keyLookup.None?
    ensures w.setup.Entered? && !w.keySaveFails
    ensures exists i, j :: 0 <= i < j < |Run(args, w).trace|
              && Run(args, w).trace[i] == SaveApiKey(w.setup.key)
              && Run(args, w).trace[j].CallModel? && Run(args, w).trace[j].apiKey == w.setup.key
  {
    var c := Called(args, w);
    var t := Run(args, w).trace;
    var pre := Loading(args, w);
    assert c == pre + [Say(KeyMissingWarning), LaunchKeySetup, SaveApiKey(w.setup.key)]
                + [CallModel(w.setup.key, Gemini.Prompt(Query(args), Context(w.platform)))];
    assert t[..|c|] == c by {
      match Gemini.Classify(w.response)
      case Success(m) => RunAnswered(args, w);
      case Failure(e) =>
    }
    assert t[|pre| + 2] == c[|pre| + 2] == SaveApiKey(w.setup.key);
    assert t[|pre| + 3] == c[|pre| + 3];
  }

  /** The query is empty exactly when no words, or a single empty word, were
      given; then the run exits with status 1, after the key gate and
      without calling the model. */
  lemma EmptyQueryExits(args: Args, w: World)
    requires !IsConfigInfo(args) && !ConfigRefused(args, w) && KeyGate(w).KeyReady?
    ensures Query(args) == "" <==> args.query == [] || args.query == [""]
    ensures Query(args) == "" ==>
              var t := Run(args, w).trace;
              Run(args, w).exit == 1 && t[|t| - 1] == Say(QueryMissing) && CallCount(t) == 0
  {
    Text.SpaceJoinEmptyIff(args.query);
    if Query(args) == "" {
      LoadingIsQuiet(args, w);
      GateIsQuiet(w);
      CallCountNone(Run(args, w).trace);
    }
  }

  // ---------------------------------------------------------------------
  // The model call
  // ---------------------------------------------------------------------

  lemma SessionsCallNothing(args: Args, w: World, m: map<string, Json>)
    ensures forall e :: e in Dispatch(args, w, m) ==> !e.CallModel?
  {
  }

  /** The model is called exactly once when the run gets that far, and never
      otherwise: there is no retry. */
  lemma ModelCalledOnce(args: Args, w: World)
    ensures CallCount(Run(args, w).trace) == if Reaches(args, w) then 1 else 0
  {
    if !Reaches(args, w) {
      if IsConfigInfo(args) {
        ConfigInfoExitsFirst(args, w);
      } else if !ConfigRefused(args, w) {
        LoadingIsQuiet(args, w);
        GateIsQuiet(w);
      }
      CallCountNone(Run(args, w).trace);
    } else {
      var c := Called(args, w);
      CalledIsQuiet(args, w);
      match Gemini.Classify(w.response)
      case Failure(e) =>
        CallCountConcat(c, [Say(ApiFailed(e))]);
      case Success(m) =>
        RunAnswered(args, w);
        SessionsCallNothing(args, w, m);
        CallCountNone(Dispatch(args, w, m));
        CallCountConcat(c, Dispatch(args, w, m));
    }
  }

  /** The model is called with the resolved key and with a prompt that holds
      the query verbatim just before its closing text. */
  lemma PromptCarriesQuery(args: Args, w: World)
    requires Reaches(args, w)
    ensures var call := CallModel(KeyGate(w).key, Gemini.Prompt(Query(args), Context(w.platform)));
            call in Run(args, w).trace
    ensures var p := Gemini.Prompt(Query(args), Context(w.platform));
            p[|p| - |Gemini.PromptClosing| - |Query(args)|..|p| - |Gemini.PromptClosing|] == Query(args)
  {
    var c := Called(args, w);
    CalledIsQuiet(args, w);
    assert c[|c| - 1] in c;
    match Gemini.Classify(w.response)
    case Success(m) => RunAnswered(args, w);
    case Failure(e) =>
    Gemini.PromptEmbeds(Query(args), Context(w.platform));
  }

  /** A refused or failed model call ends the run with status 1 and the
      error shown last; nothing is executed, copied or recorded. */
  lemma ApiFailureExits(args: Args, w: World)
    requires Reaches(args, w) && Gemini.Classify(w.response).Failure?
    ensures var t := Run(args, w).trace;
            Run(args, w).exit == 1 && t[|t| - 1] == Say(ApiFailed(Gemini.Classify(w.response).error))
            && !SavesHistory(t) && !RunsOrCopies(t)
  {
    CalledIsQuiet(args, w);
  }

  /** Once the model has answered, the run ends with status 0 whatever the
      child command, the clipboard or the interface does: their failures are
      reported, not propagated. */
  lemma AnsweredRunExitsZero(args: Args, w: World)
    requires Reaches(args, w) && Gemini.Classify(w.response).Success?
    ensures Run(args, w).exit == 0
  {
    RunAnswered(args, w);
  }

  // ---------------------------------------------------------------------
  // Output style and dispatch
  // ---------------------------------------------------------------------

  /** An explicit style is used unchanged; "auto" takes the configured style
      when the configuration was loaded and has one, and the default
      otherwise. */
  lemma StyleResolution(args: Args, w: World)
    ensures args.style != Auto ==> ResolvedStyle(args, w) == StyleName(args.style)
    ensures args.style == Auto && !args.ignoreDefault && w.configLoad.Loaded?
              && w.configLoad.config.outputStyle.Some? ==>
              ResolvedStyle(args, w) == w.configLoad.config.outputStyle.value
    ensures args.style == Auto
              && (args.ignoreDefault || !w.configLoad.Loaded? || w.configLoad.config.outputStyle.None?) ==>
              ResolvedStyle(args, w) == w.defaultStyle
  {
  }

  lemma TuiSessionShows(m: map<string, Json>, w: World)
    ensures ShowsTui(TuiSession(m, w))
  {
    assert TuiSession(m, w)[0] == ShowResponseTui(m);
  }

  lemma InlineSessionHidesTui(query: string, m: map<string, Json>, args: Args, w: World)
    ensures !ShowsTui(InlineSession(query, m, args, w))
  {
  }

  /** Only a resolved style of exactly "tui" takes the TUI branch; every
      other value, "auto" read back from the configuration included, goes
      inline. */
  lemma TuiOnlyForTuiStyle(args: Args, w: World)
    requires Reaches(args, w) && Gemini.Classify(w.response).Success?
    ensures ShowsTui(Run(args, w).trace) <==> ResolvedStyle(args, w) == "tui"
    ensures args.style == Auto && LoadedConfig(args, w) == Some(Config(Some("auto"))) ==>
              !ShowsTui(Run(args, w).trace)
  {
    var m := Gemini.Classify(w.response).value;
    AnsweredTrace(args, w);
    TuiSessionShows(m, w);
    InlineSessionHidesTui(Query(args), m, args, w);
    if args.style == Auto && LoadedConfig(args, w) == Some(Config(Some("auto"))) {
      assert ResolvedStyle(args, w) == "auto";
      assert "auto" != "tui" by { assert "auto"[0] != "tui"[0]; }
    }
  }

  /** The history rule of the TUI mode, on the mode's own effects. */
  lemma TuiSessionHistory(m: map<string, Json>, w: World)
    requires w.tui.Returned? && !(w.tui.result.action == "view_history" && w.historyViewFails)
    ensures var s := TuiSession(m, w);
            var r := w.tui.result;
            (SavesHistory(s) <==> r.query != "" && r.command != "")
            && (SavesHistory(s) ==> s[|s| - 1] == SaveHistory(r.query, JString(r.command)))
  {
    var r := w.tui.result;
    var acted := [ShowResponseTui(m)] + TuiAction(r, w);
    assert !SavesHistory(acted);
    if r.query != "" && r.command != "" {
      var s := TuiSession(m, w);
      assert s == acted + [SaveHistory(r.query, JString(r.command))];
      assert s[|s| - 1] in s;
    } else {
      assert TuiSession(m, w) == acted;
    }
  }

  /** In TUI mode, when the interface returns, history is saved exactly when
      the result's query and command are both non-empty, whatever the action
      (cancel included), and the entry saved last is that query and command. */
  lemma TuiHistoryRule(args: Args, w: World)
    requires Reaches(args, w) && Gemini.Classify(w.response).Success?
    requires ResolvedStyle(args, w) == "tui" && w.tui.Returned?
    requires !(w.tui.result.action == "view_history" && w.historyViewFails)
    ensures var t := Run(args, w).trace;
            var r := w.tui.result;
            (SavesHistory(t) <==> r.query != "" && r.command != "")
            && (SavesHistory(t) ==> t[|t| - 1] == SaveHistory(r.query, JString(r.command)))
  {
    AnsweredTrace(args, w);
    TuiSessionHistory(Gemini.Classify(w.response).value, w);
  }

  /** An empty command disables execute and copy in the TUI mode. */
  lemma TuiSessionEmptyCommand(m: map<string, Json>, w: World)
    requires w.tui.Returned? && w.tui.result.command == ""
    ensures var s := TuiSession(m, w);
            !RunsOrCopies(s) && !SavesHistory(s)
            && (w.tui.result.action == "execute" ==> Say(NoCommandToExecute) in s)
  {
  }

  /** In TUI mode an empty command disables execute and copy: nothing is
      run, copied or recorded, and execute says there is nothing to run. */
  lemma TuiEmptyCommand(args: Args, w: World)
    requires Reaches(args, w) && Gemini.Classify(w.response).Success?
    requires ResolvedStyle(args, w) == "tui" && w.tui.Returned? && w.tui.result.command == ""
    ensures var t := Run(args, w).trace;
            !RunsOrCopies(t) && !SavesHistory(t)
            && (w.tui.result.action == "execute" ==> Say(NoCommandToExecute) in t)
  {
    AnsweredTrace(args, w);
    TuiSessionEmptyCommand(Gemini.Classify(w.response).value, w);
  }

  /** The inline mode with a command, on the mode's own effects. */
  lemma InlineSessionOrder(query: string, m: map<string, Json>, args: Args, w: World)
    requires "command" in m
    ensures var s := InlineSession(query, m, args, w);
            var command := m["command"];
            && s[|s| - 1] == SaveHistory(query, command)
            && (Execute(command) in s <==> args.execute)
            && (Copy(command) in s <==> args.copy && !w.clipboard.ClipboardMissing?)
            && (args.execute && args.copy && !w.clipboard.ClipboardMissing? ==>
                  exists i, j :: 0 <= i < j < |s| && s[i] == Execute(command) && s[j] == Copy(command))
  {
    var s := InlineSession(query, m, args, w);
    var command := m["command"];
    var ran := if args.execute then Execution(command, w.run) else [];
    var copied := if args.copy then Copying(command, w.clipboard) else [];
    assert s == [Say(GeneratedCommand(command))] + ran + copied + [SaveHistory(query, command)];
    assert Copy(command) !in ran;
    assert Execute(command) !in copied;
    if args.execute && args.copy && !w.clipboard.ClipboardMissing? {
      assert s[2] == Execute(command);
      assert s[1 + |ran|] == Copy(command);
    }
  }

  /** Inline mode with a "command" key: execute (if asked) comes before copy
      (if asked), and the run ends by recording the original query with the
      command, whatever the flags. */
  lemma InlineWithCommand(args: Args, w: World)
    requires Reaches(args, w) && Gemini.Classify(w.response).Success?
    requires ResolvedStyle(args, w) != "tui" && "command" in Gemini.Classify(w.response).value
    ensures var t := Run(args, w).trace;
            var command := Gemini.Classify(w.response).value["command"];
            && t[|t| - 1] == SaveHistory(Query(args), command)
            && (Execute(command) in t <==> args.execute)
            && (Copy(command) in t <==> args.copy && !w.clipboard.ClipboardMissing?)
            && (args.execute && args.copy && !w.clipboard.ClipboardMissing? ==>
                  exists i, j :: 0 <= i < j < |t| && t[i] == Execute(command) && t[j] == Copy(command))
  {
    var m := Gemini.Classify(w.response).value;
    var command := m["command"];
    var c := Called(args, w);
    var d := Dispatch(args, w, m);
    RunAnswered(args, w);
    CalledIsQuiet(args, w);
    InlineSessionOrder(Query(args), m, args, w);
    ConcatKeepsOrder(c, d, Execute(command), Copy(command));
  }

  /** Appending after effects that contain neither `x` nor `y` keeps which of
      them occur, their order and the last effect. */
  lemma ConcatKeepsOrder(c: seq<Effect>, d: seq<Effect>, x: Effect, y: Effect)
    requires x !in c && y !in c
    ensures x in c + d <==> x in d
    ensures y in c + d <==> y in d
    ensures |d| > 0 ==> (c + d)[|c + d| - 1] == d[|d| - 1]
    ensures (exists i, j :: 0 <= i < j < |d| && d[i] == x && d[j] == y) ==>
              exists i, j :: 0 <= i < j < |c + d| && (c + d)[i] == x && (c + d)[j] == y
  {
    if i, j :| 0 <= i < j < |d| && d[i] == x && d[j] == y {
      assert (c + d)[|c| + i] == x && (c + d)[|c| + j] == y;
    }
  }

  /** Inline mode without a "command" key: "No command generated" is shown
      last and nothing is run, copied or recorded. */
  lemma InlineWithoutCommand(args: Args, w: World)
    requires Reaches(args, w) && Gemini.Classify(w.response).Success?
    requires ResolvedStyle(args, w) != "tui" && "command" !in Gemini.Classify(w.response).value
    ensures var t := Run(args, w).trace;
            t[|t| - 1] == Say(NoCommandGenerated) && !SavesHistory(t) && !RunsOrCopies(t)
  {
    AnsweredTrace(args, w);
  }
}
