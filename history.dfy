/** The interaction history of `history.py`: a list of {query, command}
    records persisted as one JSON file, newest last, of which only the last
    `MaxEntries` are kept. The file is modelled by the records it holds and
    by whether reading it back fails. */
module History {
  import opened Wrappers
  import opened JsonValue

  /** The cap applied by the slice `history[-100:]`. */
  const MaxEntries: nat := 100

  /** One record `{"query": query, "command": command}`. The command is the
      value the caller passed: the inline mode passes the response's
      `"command"` value, which may be any JSON value. */
  datatype Entry = Entry(query: string, command: Json)

  /** Why reading the history file back does not give its records. */
  datatype ReadFailure =
    | NotFound        // the file does not exist
    | DecodeFailed    // json.load raised JSONDecodeError
    | ReadOsError     // open or read raised OSError
    | ReadOtherError  // any other exception while reading

  /** Why writing the history file fails. */
  datatype WriteFailure =
    | DirectoryFailed // mkdir of the data directory raised
    | OpenFailed      // open(history_file, "w") raised
    | DumpFailed      // json.dump raised after open had truncated the file

  /** A message printed to standard output (the console may not be set up). */
  datatype Warning =
    | CouldNotDecode
    | CouldNotRead(readCause: ReadFailure)
    | CouldNotWrite(writeCause: WriteFailure)

  /** The last `n` elements of `s`, or all of `s` if it is shorter. For
      n > 0 this is Python's `s[-n:]`, which history.py uses with n = 100;
      at n = 0 Python's `s[-0:]` is all of `s`, which this does not follow. */
  function KeepLast<T>(s: seq<T>, n: nat): (r: seq<T>)
    ensures |r| == if |s| <= n then |s| else n
    ensures forall i :: 0 <= i < |r| ==> r[i] == s[|s| - |r| + i]
  {
    if |s| <= n then s else s[|s| - n..]
  }

  /** The list `save_history` writes: the loaded list with the new record
      appended, cut to its last `MaxEntries` records. */
  function Appended(log: seq<Entry>, e: Entry): (r: seq<Entry>)
    ensures 0 < |r| <= MaxEntries && |r| <= |log| + 1
    ensures r[|r| - 1] == e
  {
    KeepLast(log + [e], MaxEntries)
  }

  /** The warning `load_history` prints for a failed read, if any: an absent
      file is silently an empty history. */
  function LoadWarning(failure: Option<ReadFailure>): (w: Option<Warning>)
    ensures w.None? <==> failure == None || failure == Some(NotFound)
  {
    match failure
    case None => None
    case Some(NotFound) => None
    case Some(DecodeFailed) => Some(CouldNotDecode)
    case Some(f) => Some(CouldNotRead(f))
  }

  class HistoryFile {
    /** The records the file decodes to when it reads back cleanly. */
    var entries: seq<Entry>
    /** Why reading the file fails, or None when it reads back cleanly. */
    var failure: Option<ReadFailure>

    /** The list `load_history` returns: every failure gives the empty list. */
    function Loaded(): (h: seq<Entry>)
      reads this
      ensures failure.None? ==> h == entries
      ensures failure.Some? ==> h == []
    {
      if failure.None? then entries else []
    }

    /** A file holding `entries`, or failing to read back for `failure`. */
    constructor (entries: seq<Entry>, failure: Option<ReadFailure>)
      ensures this.entries == entries && this.failure == failure
    {
      this.entries := entries;
      this.failure := failure;
    }

    /** `load_history`: once the `exists()` check has passed it never
        raises; a missing, undecodable or unreadable file is an empty
        history, and all but the missing file print. */
    method Load() returns (h: seq<Entry>, warning: Option<Warning>)
      ensures failure.None? ==> h == entries
      ensures failure.Some? ==> h == []
      ensures warning == LoadWarning(failure)
    {
      if failure == Some(NotFound) {
        return [], None;
      }
      match failure
      case None =>
        h, warning := entries, None;
      case Some(DecodeFailed) =>
        h, warning := [], Some(CouldNotDecode);
      case Some(f) =>
        h, warning := [], Some(CouldNotRead(f));
    }

    /** `save_history(query, command)`: load, append, keep the last
        `MaxEntries`, write back. A failed write is printed and swallowed;
        when it happens in json.dump the truncated file no longer decodes.
        `writeFault` is the write's outcome, an input of the model. */
    method Save(query: string, command: Json, writeFault: Option<WriteFailure>)
        returns (warnings: seq<Warning>)
      modifies this
      ensures writeFault.None? ==>
                entries == Appended(old(Loaded()), Entry(query, command)) && failure == None
      ensures writeFault == Some(DumpFailed) ==>
                entries == old(entries) && failure == Some(DecodeFailed)
      ensures writeFault == Some(DirectoryFailed) || writeFault == Some(OpenFailed) ==>
                entries == old(entries) && failure == old(failure)
      ensures warnings == (match old(LoadWarning(failure)) case Some(w) => [w] case None => [])
                          + (match writeFault case Some(f) => [CouldNotWrite(f)] case None => [])
    {
      var history, loadWarning := Load();
      history := history + [Entry(query, command)];
      history := KeepLast(history, MaxEntries);
      warnings := match loadWarning case Some(w) => [w] case None => [];
      match writeFault
      case None =>
        entries, failure := history, None;
      case Some(DumpFailed) =>
        failure := Some(DecodeFailed);
        warnings := warnings + [CouldNotWrite(DumpFailed)];
      case Some(f) =>
        warnings := warnings + [CouldNotWrite(f)];
    }
  }

  /** The saved list never exceeds the cap: its length is min(old + 1, cap). */
  lemma AppendedLength(log: seq<Entry>, e: Entry)
    ensures |Appended(log, e)| == if |log| + 1 <= MaxEntries then |log| + 1 else MaxEntries
  {
  }

  /** The newest record of the saved list is exactly the one passed in. */
  lemma AppendedNewest(log: seq<Entry>, e: Entry)
    ensures |Appended(log, e)| > 0 && Appended(log, e)[|Appended(log, e)| - 1] == e
  {
  }

  /** Below the cap nothing is dropped: the new list is the old one plus the
      new record. */
  lemma AppendedBelowCap(log: seq<Entry>, e: Entry)
    requires |log| < MaxEntries
    ensures Appended(log, e) == log + [e]
  {
  }

  /** At the cap exactly the oldest record is dropped; the other 99 keep
      their order. */
  lemma AppendedAtCap(log: seq<Entry>, e: Entry)
    requires |log| == MaxEntries
    ensures Appended(log, e) == log[1..] + [e]
  {
    assert (log + [e])[1..] == log[1..] + [e];
  }

  /** The new list is a suffix of the old list followed by the new record:
      records are only ever dropped from the front, never edited or
      reordered. */
  lemma AppendedIsSuffix(log: seq<Entry>, e: Entry)
    ensures var r := Appended(log, e);
            |r| <= |log| + 1 && r == (log + [e])[|log| + 1 - |r|..]
  {
  }

  /** The list after saving `es` one by one, each save reading back what the
      previous one wrote. */
  function AppendAll(log: seq<Entry>, es: seq<Entry>): seq<Entry>
    decreases |es|
  {
    if es == [] then log else AppendAll(Appended(log, es[0]), es[1..])
  }

  /** Cutting to the last `n` and then again after appending is the same as
      cutting once at the end. */
  lemma KeepLastAppend<T>(s: seq<T>, x: T, n: nat)
    ensures KeepLast(KeepLast(s, n) + [x], n) == KeepLast(s + [x], n)
  {
    if |s| > n {
      var t := s[|s| - n..];
      assert t + [x] == (s + [x])[|s| - n..];
      if n > 0 {
        assert (t + [x])[|t + [x]| - n..] == (s + [x])[|s + [x]| - n..];
      } else {
        assert (t + [x])[|t + [x]| - n..] == [] == (s + [x])[|s + [x]| - n..];
      }
    }
  }

  /** FIFO eviction over many saves: after any number of saves the history is
      the last `MaxEntries` records of everything saved, in order. */
  lemma {:induction false} AppendAllKeepsLast(log: seq<Entry>, es: seq<Entry>)
    requires |log| <= MaxEntries || es != []
    ensures AppendAll(log, es) == KeepLast(log + es, MaxEntries)
    decreases |es|
  {
    if es != [] {
      AppendAllKeepsLastFrom(Appended(log, es[0]), es[1..], log + [es[0]]);
      ConsSplit(log, es);
    }
  }

  /** The induction step of AppendAllKeepsLast, for a history that is
      already the last records of some longer sequence `all`. */
  lemma {:induction false} AppendAllKeepsLastFrom(log: seq<Entry>, es: seq<Entry>, all: seq<Entry>)
    requires log == KeepLast(all, MaxEntries)
    ensures AppendAll(log, es) == KeepLast(all + es, MaxEntries)
    decreases |es|
  {
    if es == [] {
      assert all + es == all;
    } else {
      var x := es[0];
      KeepLastAppend(all, x, MaxEntries);
      AppendAllKeepsLastFrom(Appended(log, x), es[1..], all + [x]);
      ConsSplit(all, es);
    }
  }

  /** Moving the first element of `es` to the end of `all`. */
  lemma ConsSplit<T>(all: seq<T>, es: seq<T>)
    requires es != []
    ensures (all + [es[0]]) + es[1..] == all + es
  {
    assert es == [es[0]] + es[1..];
  }
}
