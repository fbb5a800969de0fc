/** What the provider's list data sources have in common: the `ids` argument
    turned into a lookup map, the id-membership filter, and the in-order
    client-side filtering of the items a List* response returns. */
module Listing {
  import opened Common

  /** The items of s that satisfy keep, in their original order. Defined by
      peeling off the last item, as the data sources' loops append to the
      end of their `objects` list. */
  function Filter<T>(s: seq<T>, keep: T -> bool): (r: seq<T>)
    ensures |r| <= |s|
    ensures forall k :: 0 <= k < |r| ==> keep(r[k])
    decreases |s|
  {
    if s == [] then []
    else
      var init := Filter(s[..|s| - 1], keep);
      if keep(s[|s| - 1]) then init + [s[|s| - 1]] else init
  }

  /** The positions of s whose items satisfy keep, in increasing order. */
  ghost function KeptIndices<T>(s: seq<T>, keep: T -> bool): seq<int>
    decreases |s|
  {
    if s == [] then []
    else
      var ix0 := KeptIndices(s[..|s| - 1], keep);
      if keep(s[|s| - 1]) then ix0 + [|s| - 1] else ix0
  }

  /** Filter picks the items at KeptIndices, which increase: the result is
      an order-preserving subsequence of s. */
  lemma {:induction false} FilterIsSubsequence<T>(s: seq<T>, keep: T -> bool)
    ensures var ix := KeptIndices(s, keep);
            && |ix| == |Filter(s, keep)|
            && (forall k :: 0 <= k < |ix| ==> 0 <= ix[k] < |s| && Filter(s, keep)[k] == s[ix[k]])
            && (forall k, l :: 0 <= k < l < |ix| ==> ix[k] < ix[l])
    decreases |s|
  {
    if s != [] {
      var last := |s| - 1;
      var init := s[..last];
      FilterIsSubsequence(init, keep);
      var ix0 := KeptIndices(init, keep);
      assert forall k :: 0 <= k < |ix0| ==> s[ix0[k]] == init[ix0[k]];
    }
  }

  /** KeptIndices holds exactly the positions whose items pass: no passing
      item is dropped and no failing one kept. */
  lemma {:induction false} KeptIndicesComplete<T>(s: seq<T>, keep: T -> bool)
    ensures forall i :: 0 <= i < |s| ==> (keep(s[i]) <==> i in KeptIndices(s, keep))
    ensures forall k :: 0 <= k < |KeptIndices(s, keep)| ==> 0 <= KeptIndices(s, keep)[k] < |s|
    decreases |s|
  {
    if s != [] {
      var last := |s| - 1;
      var init := s[..last];
      KeptIndicesComplete(init, keep);
      assert forall i :: 0 <= i < last ==> s[i] == init[i];
    }
  }

  /** Filtering a concatenation filters each part: pages are filtered
      independently and the kept items follow page order. */
  lemma {:induction false} FilterConcat<T>(a: seq<T>, b: seq<T>, keep: T -> bool)
    ensures Filter(a + b, keep) == Filter(a, keep) + Filter(b, keep)
    decreases |b|
  {
    if b == [] {
      assert a + b == a;
    } else {
      var b0 := b[..|b| - 1];
      FilterConcat(a, b0, keep);
      assert (a + b)[..|a + b| - 1] == a + b0;
      assert (a + b)[|a + b| - 1] == b[|b| - 1];
    }
  }

  /** A filter that every item passes keeps the whole list. */
  lemma {:induction false} FilterAll<T>(s: seq<T>, keep: T -> bool)
    requires forall i :: 0 <= i < |s| ==> keep(s[i])
    ensures Filter(s, keep) == s
    decreases |s|
  {
    if s != [] {
      FilterAll(s[..|s| - 1], keep);
    }
  }

  /** One more loop step: filtering a prefix one item longer. */
  lemma FilterStep<T>(s: seq<T>, i: int, keep: T -> bool)
    requires 0 <= i < |s|
    ensures Filter(s[..i + 1], keep)
            == Filter(s[..i], keep) + (if keep(s[i]) then [s[i]] else [])
  {
    assert s[..i + 1][..i] == s[..i];
  }

  /** The distinct non-nil entries of the user's `ids` list. */
  function IdSet(ids: seq<Option<string>>): set<string> {
    set i | 0 <= i < |ids| && ids[i].Some? :: ids[i].value
  }

  /** The loop that fills `idsMap`: nil entries are skipped, every other
      entry maps to itself. */
  method BuildIdsMap(ids: seq<Option<string>>) returns (idsMap: map<string, string>)
    ensures idsMap.Keys == IdSet(ids)
    ensures forall k :: k in idsMap ==> idsMap[k] == k
  {
    idsMap := map[];
    var i := 0;
    while i < |ids|
      invariant 0 <= i <= |ids|
      invariant idsMap.Keys == IdSet(ids[..i])
      invariant forall k :: k in idsMap ==> idsMap[k] == k
    {
      assert IdSet(ids[..i + 1]) == IdSet(ids[..i]) + (if ids[i].Some? then {ids[i].value} else {}) by {
        assert forall j :: 0 <= j < i ==> ids[..i + 1][j] == ids[..i][j];
      }
      if ids[i].Some? {
        idsMap := idsMap[ids[i].value := ids[i].value];
      }
      i := i + 1;
    }
    assert ids[..i] == ids;
  }

  /** The per-item id check: an empty idsMap filters nothing, otherwise the
      item's id must be one of its keys. */
  predicate PassesIds(idsMap: map<string, string>, id: string) {
    |idsMap| == 0 || id in idsMap
  }

  /** The `ids` argument restricts the listing exactly when it holds at least
      one non-nil entry; in particular a list of only nil entries keeps
      everything. */
  lemma PassesIdsSpec(ids: seq<Option<string>>, idsMap: map<string, string>, id: string)
    requires idsMap.Keys == IdSet(ids)
    ensures PassesIds(idsMap, id) <==> (IdSet(ids) == {} || id in IdSet(ids))
    ensures (forall i :: 0 <= i < |ids| ==> ids[i].None?) ==> PassesIds(idsMap, id)
  {
    if IdSet(ids) == {} {
      assert idsMap.Keys == {};
      assert |idsMap| == 0;
    } else {
      var x :| x in IdSet(ids);
      assert x in idsMap;
      assert |idsMap| != 0;
    }
  }
}
