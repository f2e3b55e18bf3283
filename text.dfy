/** Python's `sep.join(parts)` on lists of strings. */
module Text {

  /** `sep.join(parts)`: the parts in order with `sep` between neighbours. */
  function Join(sep: string, parts: seq<string>): (r: string)
    ensures |parts| == 1 ==> r == parts[0]
    ensures |parts| >= 2 ==> |r| >= |parts[0]| + |sep| && r[..|parts[0]| + |sep|] == parts[0] + sep
  {
    if |parts| == 0 then ""
    else if |parts| == 1 then parts[0]
    else parts[0] + sep + Join(sep, parts[1..])
  }

  /** Joining two parts puts the separator between them and nothing else. */
  lemma JoinTwo(sep: string, a: string, b: string)
    ensures Join(sep, [a, b]) == a + sep + b
  {
    assert [a, b][1..] == [b];
  }

  /** The join is empty exactly when every part is empty and no separator is
      written between them: no parts, one empty part, or an empty separator. */
  lemma {:induction false} JoinEmptyIff(sep: string, parts: seq<string>)
    ensures Join(sep, parts) == "" <==>
              (forall i :: 0 <= i < |parts| ==> parts[i] == "") && (|parts| <= 1 || sep == "")
  {
    if |parts| >= 2 {
      JoinEmptyIff(sep, parts[1..]);
      assert forall i :: 1 <= i < |parts| ==> parts[i] == parts[1..][i - 1];
    }
  }

  /** With the separator `" "` used for the query words, the join is empty
      exactly when there are no words or a single empty word. */
  lemma SpaceJoinEmptyIff(parts: seq<string>)
    ensures Join(" ", parts) == "" <==> parts == [] || parts == [""]
  {
    JoinEmptyIff(" ", parts);
    if |parts| == 1 && parts[0] == "" {
      assert parts == [""];
    }
  }
}
