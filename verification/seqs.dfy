/** Searching a sequence: the first element satisfying a predicate, as the
    `.first()` of an index lookup, `ctx.db.get` and `Map.get` all find it. */
module Seqs {
  import opened Results

  /** The position of the first element satisfying `p`, or `None` when none does. */
  function FirstIndex<T>(s: seq<T>, p: T -> bool): (r: Option<nat>)
    ensures r.Some? ==> r.value < |s| && p(s[r.value])
    ensures r.Some? ==> forall j :: 0 <= j < r.value ==> !p(s[j])
    ensures r.None? <==> forall j :: 0 <= j < |s| ==> !p(s[j])
  {
    if |s| == 0 then None
    else if p(s[0]) then Some(0)
    else
      var r := FirstIndex(s[1..], p);
      assert forall j :: 1 <= j < |s| ==> s[1..][j - 1] == s[j];
      if r.None? then None else Some(r.value + 1)
  }

  /** The first satisfying position is the one the search finds. */
  lemma FirstIndexIs<T>(s: seq<T>, p: T -> bool, k: nat)
    requires k < |s| && p(s[k])
    requires forall j :: 0 <= j < k ==> !p(s[j])
    ensures FirstIndex(s, p) == Some(k)
  {
    var r := FirstIndex(s, p);
    assert r.Some?;
    assert !(r.value < k) && !(k < r.value);
  }

  /** Appending never moves a match already found. */
  lemma FirstIndexPrefix<T>(s: seq<T>, t: seq<T>, p: T -> bool)
    requires FirstIndex(s, p).Some?
    ensures FirstIndex(s + t, p) == FirstIndex(s, p)
  {
    var k := FirstIndex(s, p).value;
    assert forall j :: 0 <= j <= k ==> (s + t)[j] == s[j];
    FirstIndexIs(s + t, p, k);
  }

  /** With no match before it, an appended match is found at the end. */
  lemma FirstIndexAppended<T>(s: seq<T>, x: T, p: T -> bool)
    requires FirstIndex(s, p).None? && p(x)
    ensures FirstIndex(s + [x], p) == Some(|s|)
  {
    assert forall j :: 0 <= j < |s| ==> (s + [x])[j] == s[j];
    FirstIndexIs(s + [x], p, |s|);
  }
}
