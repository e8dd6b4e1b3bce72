/** Validation bookkeeping, first stage: `get_marker_dictionary` turns the
    per-frame marker references into numbered marker entries with an onset and
    an offset. */
module Markers {
  import opened Samples

  /** The offset every new entry starts with. */
  const InitialOffset: real := -1.0

  /** The fixations grouped under one fixation id, in fixation-list order;
      `distances` is added once the angular distances are computed. */
  datatype FixGroup = FixGroup(
    timestamps: seq<real>,
    normPos: seq<Position>,
    durations: seq<real>,
    dispersions: seq<real>,
    distances: Option<seq<real>>)

  /** One entry of the marker dictionary; `fixDict` is absent until fixations
      are assigned to the marker. */
  datatype Marker = Marker(
    normPos: Position,
    screenPos: Position,
    onset: real,
    offset: real,
    fixDict: Option<map<int, FixGroup>>)

  /** The distinct positions among the first `n` refs, in order of first
      appearance (the `position_list` the loop builds). */
  function Distinct(refs: seq<Ref>, n: nat): (d: seq<Position>)
    requires n <= |refs|
    ensures n > 0 ==> 1 <= |d| <= n
    ensures n == 0 ==> d == []
  {
    if n == 0 then []
    else
      var d := Distinct(refs, n - 1);
      if refs[n - 1].normPos in d then d else d + [refs[n - 1].normPos]
  }

  /** Some ref before index `n` carries position `p`. */
  ghost predicate OccursBefore(refs: seq<Ref>, n: nat, p: Position)
    requires n <= |refs|
  {
    exists i :: 0 <= i < n && refs[i].normPos == p
  }

  /** The index of the first ref with position `p`, or `|refs|` when there is none. */
  function FirstIndex(refs: seq<Ref>, p: Position): (f: nat)
    ensures f <= |refs|
    ensures f < |refs| ==> refs[f].normPos == p
    ensures forall i :: 0 <= i < f ==> refs[i].normPos != p
  {
    if refs == [] then 0
    else if refs[0].normPos == p then 0
    else 1 + FirstIndex(refs[1..], p)
  }

  /** Ref `j` repeats a position seen earlier while entry `k` is the latest
      entry: it is the kind of ref that may raise the offset of entry `k`. */
  ghost predicate Raises(refs: seq<Ref>, j: nat, k: nat)
    requires j < |refs|
  {
    OccursBefore(refs, j, refs[j].normPos) && |Distinct(refs, j)| == k + 1
  }

  /** The offset of entry `k` after the first `n` refs: -1.0, raised by each
      ref that may raise entry `k` and is later than the offset so far. */
  ghost function MaxRaise(refs: seq<Ref>, n: nat, k: nat): (o: real)
    requires n <= |refs|
    ensures o >= InitialOffset
  {
    if n == 0 then InitialOffset
    else
      var o := MaxRaise(refs, n - 1, k);
      if Raises(refs, n - 1, k) && refs[n - 1].timestamp > o then refs[n - 1].timestamp else o
  }

  /** `offset` is the largest timestamp among the first `n` refs that raise
      entry `k`, or -1.0 when none of them does. */
  ghost predicate OffsetBound(refs: seq<Ref>, n: nat, k: nat, offset: real)
    requires n <= |refs|
  {
    && offset >= InitialOffset
    && (forall j {:trigger Raises(refs, j, k)} :: 0 <= j < n && Raises(refs, j, k) ==> refs[j].timestamp <= offset)
    && (offset == InitialOffset ||
        exists j {:trigger Raises(refs, j, k)} :: 0 <= j < n && Raises(refs, j, k) && refs[j].timestamp == offset)
  }

  /** Entry `k` built from the first `n` refs: the k-th distinct position, with
      onset and screen position of the first ref carrying it. */
  ghost predicate EntryDescribes(refs: seq<Ref>, n: nat, k: nat, e: Marker)
    requires n <= |refs|
  {
    && k < |Distinct(refs, n)|
    && e.normPos == Distinct(refs, n)[k]
    && FirstIndex(refs, e.normPos) < n
    && e.onset == refs[FirstIndex(refs, e.normPos)].timestamp
    && e.screenPos == refs[FirstIndex(refs, e.normPos)].screenPos
    && e.fixDict == None
    && e.offset == MaxRaise(refs, n, k)
  }

  /** The keys are exactly 0 .. count-1. */
  ghost predicate DenseKeys(markers: map<nat, Marker>) {
    forall k: nat :: k in markers <==> k < |markers|
  }

  /** `markers` is the dictionary built from the first `n` refs: dense keys,
      one entry per distinct position, in order of first appearance. */
  ghost predicate DescribesPrefix(refs: seq<Ref>, n: nat, markers: map<nat, Marker>)
    requires n <= |refs|
  {
    && |markers| == |Distinct(refs, n)|
    && DenseKeys(markers)
    && (forall k :: k in markers ==> EntryDescribes(refs, n, k, markers[k]))
  }

  ghost predicate IsMarkerDictionary(refs: seq<Ref>, markers: map<nat, Marker>) {
    DescribesPrefix(refs, |refs|, markers)
  }

  lemma {:induction false} DistinctMembers(refs: seq<Ref>, n: nat)
    requires n <= |refs|
    ensures forall p :: p in Distinct(refs, n) <==> OccursBefore(refs, n, p)
  {
    if n > 0 {
      DistinctMembers(refs, n - 1);
      forall p | OccursBefore(refs, n, p) ensures p in Distinct(refs, n) {
        var i :| 0 <= i < n && refs[i].normPos == p;
        if i < n - 1 {
          assert OccursBefore(refs, n - 1, p);
        }
      }
      forall p | p in Distinct(refs, n) ensures OccursBefore(refs, n, p) {
        if p in Distinct(refs, n - 1) {
          assert OccursBefore(refs, n - 1, p);
          var i :| 0 <= i < n - 1 && refs[i].normPos == p;
        } else {
          assert refs[n - 1].normPos == p;
        }
      }
    }
  }

  lemma {:induction false} DistinctPrefix(refs: seq<Ref>, j: nat, n: nat)
    requires j <= n <= |refs|
    ensures Distinct(refs, j) <= Distinct(refs, n)
  {
    if j < n {
      DistinctPrefix(refs, j, n - 1);
    }
  }

  /** The distinct positions are listed in strictly increasing order of their
      first appearance, and each first appears among the first `n` refs. */
  lemma {:induction false} DistinctOrdered(refs: seq<Ref>, n: nat)
    requires n <= |refs|
    ensures forall a :: 0 <= a < |Distinct(refs, n)| ==> FirstIndex(refs, Distinct(refs, n)[a]) < n
    ensures forall a, b :: 0 <= a < b < |Distinct(refs, n)| ==>
      FirstIndex(refs, Distinct(refs, n)[a]) < FirstIndex(refs, Distinct(refs, n)[b])
  {
    if n > 0 {
      DistinctOrdered(refs, n - 1);
      var p := refs[n - 1].normPos;
      DistinctMembers(refs, n - 1);
      if p !in Distinct(refs, n - 1) {
        assert FirstIndex(refs, p) == n - 1;
      }
    }
  }

  /** Entries are numbered in order of the first appearance of their
      positions, so no two entries share a position. */
  lemma EntriesInOrder(refs: seq<Ref>, markers: map<nat, Marker>)
    requires IsMarkerDictionary(refs, markers)
    ensures forall k1, k2 :: k1 in markers && k2 in markers && k1 < k2 ==>
      FirstIndex(refs, markers[k1].normPos) < FirstIndex(refs, markers[k2].normPos)
  {
    var n := |refs|;
    DistinctOrdered(refs, n);
    forall k1, k2 | k1 in markers && k2 in markers && k1 < k2
      ensures FirstIndex(refs, markers[k1].normPos) < FirstIndex(refs, markers[k2].normPos)
    {
      assert EntryDescribes(refs, n, k1, markers[k1]);
      assert EntryDescribes(refs, n, k2, markers[k2]);
    }
  }

  /** Every ref's position has an entry. */
  lemma EntryFor(refs: seq<Ref>, markers: map<nat, Marker>, j: nat)
    requires IsMarkerDictionary(refs, markers) && j < |refs|
    ensures exists k :: k in markers && markers[k].normPos == refs[j].normPos
  {
    var n := |refs|;
    var p := refs[j].normPos;
    DistinctMembers(refs, n);
    assert OccursBefore(refs, n, p);
    var k :| 0 <= k < |Distinct(refs, n)| && Distinct(refs, n)[k] == p;
    assert k in markers;
    assert EntryDescribes(refs, n, k, markers[k]);
  }

  /** The offset an entry ends up with is the maximum of -1.0 and the
      timestamps of the refs that raise it. */
  lemma MaxRaiseBound(refs: seq<Ref>, n: nat, k: nat)
    requires n <= |refs|
    ensures OffsetBound(refs, n, k, MaxRaise(refs, n, k))
  {
    MaxRaiseAbove(refs, n, k);
    MaxRaiseAttained(refs, n, k);
  }

  /** No ref that raises entry `k` is later than its offset. */
  lemma {:induction false} MaxRaiseAbove(refs: seq<Ref>, n: nat, k: nat)
    requires n <= |refs|
    ensures forall j {:trigger Raises(refs, j, k)} :: 0 <= j < n && Raises(refs, j, k) ==>
      refs[j].timestamp <= MaxRaise(refs, n, k)
  {
    if n > 0 {
      MaxRaiseAbove(refs, n - 1, k);
    }
  }

  /** A raised offset is the timestamp of a ref that raises entry `k`. */
  lemma {:induction false} MaxRaiseAttained(refs: seq<Ref>, n: nat, k: nat)
    requires n <= |refs|
    ensures MaxRaise(refs, n, k) == InitialOffset ||
      exists j {:trigger Raises(refs, j, k)} :: 0 <= j < n && Raises(refs, j, k) && refs[j].timestamp == MaxRaise(refs, n, k)
  {
    if n > 0 {
      MaxRaiseAttained(refs, n - 1, k);
      var o := MaxRaise(refs, n - 1, k);
      if Raises(refs, n - 1, k) && refs[n - 1].timestamp > o {
        assert Raises(refs, n - 1, k) && refs[n - 1].timestamp == MaxRaise(refs, n, k);
      } else if o != InitialOffset {
        var j :| 0 <= j < n - 1 && Raises(refs, j, k) && refs[j].timestamp == o;
        assert Raises(refs, j, k) && refs[j].timestamp == MaxRaise(refs, n, k);
      }
    }
  }

  /** An entry that no ref has been able to raise yet keeps offset -1.0. */
  lemma {:induction false} MaxRaiseUnraised(refs: seq<Ref>, n: nat, k: nat)
    requires n <= |refs| && |Distinct(refs, n)| <= k
    ensures MaxRaise(refs, n, k) == InitialOffset
  {
    if n > 0 {
      DistinctPrefix(refs, n - 1, n);
      MaxRaiseUnraised(refs, n - 1, k);
    }
  }

  lemma DenseExtend(markers: map<nat, Marker>, e: Marker)
    requires DenseKeys(markers)
    ensures |markers[|markers| := e]| == |markers| + 1
    ensures DenseKeys(markers[|markers| := e])
  {
    var n := |markers|;
    var m' := markers[n := e];
    assert n !in markers.Keys;
    assert m'.Keys == markers.Keys + {n};
    assert |m'.Keys| == |markers.Keys| + 1;
    forall k: nat ensures k in m' <==> k < |m'| {
      assert k in m' <==> k in markers || k == n;
    }
  }

  lemma DenseUpdate(markers: map<nat, Marker>, k: nat, e: Marker)
    requires DenseKeys(markers) && k in markers
    ensures |markers[k := e]| == |markers|
    ensures DenseKeys(markers[k := e])
  {
    assert markers[k := e].Keys == markers.Keys;
  }

  /** An entry not raised by ref `i` describes the longer prefix too. */
  lemma EntryKept(refs: seq<Ref>, i: nat, k: nat, e: Marker)
    requires i < |refs| && EntryDescribes(refs, i, k, e)
    requires Distinct(refs, i) <= Distinct(refs, i + 1)
    requires !Raises(refs, i, k) || refs[i].timestamp <= e.offset
    ensures EntryDescribes(refs, i + 1, k, e)
  {
    assert MaxRaise(refs, i + 1, k) == MaxRaise(refs, i, k);
  }

  /** The entry that a ref with an unseen position creates. */
  lemma EntryCreated(refs: seq<Ref>, i: nat)
    requires i < |refs| && !OccursBefore(refs, i, refs[i].normPos)
    ensures EntryDescribes(refs, i + 1, |Distinct(refs, i)|,
      Marker(refs[i].normPos, refs[i].screenPos, refs[i].timestamp, InitialOffset, None))
  {
    var p := refs[i].normPos;
    var count := |Distinct(refs, i)|;
    DistinctMembers(refs, i);
    assert Distinct(refs, i + 1) == Distinct(refs, i) + [p];
    var f := FirstIndex(refs, p);
    assert f == i;
    assert !Raises(refs, i, count);
    MaxRaiseUnraised(refs, i, count);
  }

  /** A ref with an unseen position appends a new entry with offset -1.0. */
  lemma NewPositionStep(refs: seq<Ref>, i: nat, markers: map<nat, Marker>)
    requires i < |refs| && DescribesPrefix(refs, i, markers)
    requires !OccursBefore(refs, i, refs[i].normPos)
    ensures DescribesPrefix(refs, i + 1,
      markers[|markers| := Marker(refs[i].normPos, refs[i].screenPos, refs[i].timestamp, InitialOffset, None)])
  {
    EntryCreated(refs, i);
    NewKeepsOthers(refs, i, markers, Marker(refs[i].normPos, refs[i].screenPos, refs[i].timestamp, InitialOffset, None));
  }

  /** A ref with an unseen position adds one position and leaves every
      existing entry describing the longer prefix; so with an entry for it
      added, the dictionary describes that prefix. */
  lemma NewKeepsOthers(refs: seq<Ref>, i: nat, markers: map<nat, Marker>, e: Marker)
    requires i < |refs| && DescribesPrefix(refs, i, markers)
    requires !OccursBefore(refs, i, refs[i].normPos)
    requires EntryDescribes(refs, i + 1, |markers|, e)
    ensures DescribesPrefix(refs, i + 1, markers[|markers| := e])
  {
    DistinctPrefix(refs, i, i + 1);
    DistinctMembers(refs, i);
    assert |Distinct(refs, i + 1)| == |markers| + 1;
    forall k | k in markers ensures EntryDescribes(refs, i + 1, k, markers[k]) {
      EntryKept(refs, i, k, markers[k]);
    }
    DescribesAfterExtend(refs, i + 1, markers, e);
  }

  /** Adding an entry that describes the prefix under the next key, when all
      the others already do, gives a dictionary of the prefix. */
  lemma DescribesAfterExtend(refs: seq<Ref>, n: nat, markers: map<nat, Marker>, e: Marker)
    requires n <= |refs| && DenseKeys(markers)
    requires |Distinct(refs, n)| == |markers| + 1
    requires EntryDescribes(refs, n, |markers|, e)
    requires forall k :: k in markers ==> EntryDescribes(refs, n, k, markers[k])
    ensures DescribesPrefix(refs, n, markers[|markers| := e])
  {
    var m' := markers[|markers| := e];
    DenseExtend(markers, e);
    forall k | k in m' ensures EntryDescribes(refs, n, k, m'[k]) {
      if k != |markers| {
        assert m'[k] == markers[k];
      }
    }
  }

  /** A ref with an already seen position only raises the offset of the latest
      entry `e`, and only when its timestamp is larger. */
  lemma RepeatStep(refs: seq<Ref>, i: nat, markers: map<nat, Marker>, e: Marker)
    requires i < |refs| && DescribesPrefix(refs, i, markers)
    requires OccursBefore(refs, i, refs[i].normPos)
    requires |markers| > 0
    requires e == if refs[i].timestamp > markers[|markers| - 1].offset
                  then markers[|markers| - 1].(offset := refs[i].timestamp)
                  else markers[|markers| - 1]
    ensures DescribesPrefix(refs, i + 1, markers[|markers| - 1 := e])
  {
    RepeatRaisesLast(refs, i, markers, e);
    RepeatKeepsOthers(refs, i, markers, e);
  }

  /** The latest entry, its offset raised by a repeating ref with a larger
      timestamp, describes the longer prefix. */
  lemma RepeatRaisesLast(refs: seq<Ref>, i: nat, markers: map<nat, Marker>, e: Marker)
    requires i < |refs| && DescribesPrefix(refs, i, markers)
    requires OccursBefore(refs, i, refs[i].normPos)
    requires |markers| > 0
    requires e == if refs[i].timestamp > markers[|markers| - 1].offset
                  then markers[|markers| - 1].(offset := refs[i].timestamp)
                  else markers[|markers| - 1]
    ensures EntryDescribes(refs, i + 1, |markers| - 1, e)
  {
    DistinctMembers(refs, i);
    var last := |markers| - 1;
    assert Distinct(refs, i + 1) == Distinct(refs, i);
    assert Raises(refs, i, last);
    assert EntryDescribes(refs, i, last, markers[last]);
  }

  /** A ref with an already seen position adds no position and leaves every
      entry but the latest describing the longer prefix; so with the latest
      entry replaced by one describing it, the dictionary describes it. */
  lemma RepeatKeepsOthers(refs: seq<Ref>, i: nat, markers: map<nat, Marker>, e: Marker)
    requires i < |refs| && DescribesPrefix(refs, i, markers)
    requires OccursBefore(refs, i, refs[i].normPos)
    requires |markers| > 0 && EntryDescribes(refs, i + 1, |markers| - 1, e)
    ensures DescribesPrefix(refs, i + 1, markers[|markers| - 1 := e])
  {
    DistinctMembers(refs, i);
    var last := |markers| - 1;
    assert Distinct(refs, i + 1) == Distinct(refs, i);
    forall k | k in markers && k != last ensures EntryDescribes(refs, i + 1, k, markers[k]) {
      EntryKept(refs, i, k, markers[k]);
    }
    DescribesAfterUpdate(refs, i + 1, markers, last, e);
  }

  /** Writing an entry back unchanged leaves the dictionary as it was. */
  lemma UpdateSame(markers: map<nat, Marker>, k: nat)
    requires k in markers
    ensures markers[k := markers[k]] == markers
  {
  }

  /** `markers` describes the first `n` refs, except perhaps at entry `last`. */
  ghost predicate DescribesAllBut(refs: seq<Ref>, n: nat, markers: map<nat, Marker>, last: nat)
    requires n <= |refs|
  {
    && |markers| == |Distinct(refs, n)|
    && DenseKeys(markers)
    && last in markers
    && (forall k :: k in markers && k != last ==> EntryDescribes(refs, n, k, markers[k]))
  }

  /** Replacing that entry by one that describes the prefix gives a
      dictionary of the prefix. */
  lemma DescribesAfterUpdate(refs: seq<Ref>, n: nat, markers: map<nat, Marker>, last: nat, e: Marker)
    requires n <= |refs| && DescribesAllBut(refs, n, markers, last)
    requires EntryDescribes(refs, n, last, e)
    ensures DescribesPrefix(refs, n, markers[last := e])
  {
    DenseUpdate(markers, last, e);
  }

  /** `get_marker_dictionary`: one pass over the refs with the list of positions seen so far. */
  method GetMarkerDictionary(refs: seq<Ref>) returns (markers: map<nat, Marker>)
    ensures IsMarkerDictionary(refs, markers)
  {
    var positions: seq<Position> := [];
    markers := map[];
    var count: nat := 0;
    for i := 0 to |refs|
      invariant positions == Distinct(refs, i)
      invariant count == |positions| == |markers|
      invariant DescribesPrefix(refs, i, markers)
    {
      positions, markers, count := ReadRef(refs, i, positions, markers, count);
    }
  }

  /** One pass of the loop: a ref with an unseen position appends an entry,
      any other ref may raise the offset of entry `count-1`. */
  method ReadRef(refs: seq<Ref>, i: nat, positions: seq<Position>, markers: map<nat, Marker>, count: nat)
    returns (positions': seq<Position>, markers': map<nat, Marker>, count': nat)
    requires i < |refs| && positions == Distinct(refs, i)
    requires count == |positions| == |markers| && DescribesPrefix(refs, i, markers)
    ensures positions' == Distinct(refs, i + 1)
    ensures count' == |positions'| == |markers'| && DescribesPrefix(refs, i + 1, markers')
  {
    var m := refs[i];
    DistinctMembers(refs, i);
    if m.normPos !in positions {
      NewPositionStep(refs, i, markers);
      markers' := markers[count := Marker(m.normPos, m.screenPos, m.timestamp, InitialOffset, None)];
      count' := count + 1;
      positions' := positions + [m.normPos];
    } else {
      positions', count' := positions, count;
      if m.timestamp > markers[count - 1].offset {
        RepeatStep(refs, i, markers, markers[count - 1].(offset := m.timestamp));
        markers' := markers[count - 1 := markers[count - 1].(offset := m.timestamp)];
      } else {
        RepeatStep(refs, i, markers, markers[count - 1]);
        UpdateSame(markers, count - 1);
        markers' := markers;
      }
    }
  }
}
