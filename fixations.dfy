/** Validation bookkeeping, second stage: `assign_fix_to_markers` walks the
    time-sorted fixation list once with a forward cursor and files the
    fixations that start while a marker is shown under that marker, grouped
    by fixation id. */
module Fixations {
  import opened Samples
  import opened Markers

  /** The entries of a dictionary with dense keys, as a sequence. */
  function Ordered(markers: map<nat, Marker>): (ms: seq<Marker>)
    requires DenseKeys(markers)
    ensures |ms| == |markers|
    ensures forall k :: 0 <= k < |ms| ==> k in markers && ms[k] == markers[k]
  {
    seq(|markers|, k requires 0 <= k < |markers| => markers[k])
  }

  /** Where a cursor at `i` stops when it skips every fixation that starts
      before `t`. */
  function SkipTo(fs: seq<Sample>, i: nat, t: real): (r: nat)
    requires i <= |fs|
    ensures i <= r <= |fs|
    ensures r < |fs| ==> fs[r].timestamp >= t
    decreases |fs| - i
  {
    if i == |fs| || fs[i].timestamp >= t then i else SkipTo(fs, i + 1, t)
  }

  /** The skip loop passes only fixations that start before the bound. */
  lemma {:induction false} SkipToPasses(fs: seq<Sample>, i: nat, t: real)
    requires i <= |fs|
    ensures forall j :: i <= j < SkipTo(fs, i, t) ==> fs[j].timestamp < t
    decreases |fs| - i
  {
    if i < |fs| && fs[i].timestamp < t {
      SkipToPasses(fs, i + 1, t);
    }
  }

  /** The cursor once markers 0 .. k-1 have been handled. */
  function Cursor(fs: seq<Sample>, ms: seq<Marker>, k: nat): (c: nat)
    requires k <= |ms|
    ensures c <= |fs|
    decreases k, 0
  {
    if k == 0 then 0 else SkipTo(fs, Start(fs, ms, k - 1), ms[k - 1].offset)
  }

  /** Where the fixations of marker `k` begin: past every fixation that starts
      before its onset. */
  function Start(fs: seq<Sample>, ms: seq<Marker>, k: nat): (s: nat)
    requires k < |ms|
    ensures s <= |fs|
    decreases k, 1
  {
    SkipTo(fs, Cursor(fs, ms, k), ms[k].onset)
  }

  /** The fixations that marker `k` receives. */
  function Window(fs: seq<Sample>, ms: seq<Marker>, k: nat): seq<Sample>
    requires k < |ms|
  {
    assert Start(fs, ms, k) <= Cursor(fs, ms, k + 1);
    fs[Start(fs, ms, k)..Cursor(fs, ms, k + 1)]
  }

  function Timestamps(fs: seq<Sample>): seq<real> {
    seq(|fs|, j requires 0 <= j < |fs| => fs[j].timestamp)
  }

  function NormPositions(fs: seq<Sample>): seq<Position> {
    seq(|fs|, j requires 0 <= j < |fs| => fs[j].normPos)
  }

  function Durations(fs: seq<Sample>): seq<real> {
    seq(|fs|, j requires 0 <= j < |fs| => fs[j].duration)
  }

  function Dispersions(fs: seq<Sample>): seq<real> {
    seq(|fs|, j requires 0 <= j < |fs| => fs[j].dispersion)
  }

  /** The four parallel lists that describe a run of fixations. */
  function GroupOf(fs: seq<Sample>): FixGroup {
    FixGroup(Timestamps(fs), NormPositions(fs), Durations(fs), Dispersions(fs), None)
  }

  /** The fixations of `fs` that carry `id`, in their order in `fs`. */
  function WithId(fs: seq<Sample>, id: int): seq<Sample> {
    if fs == [] then []
    else WithId(fs[..|fs| - 1], id) + (if fs[|fs| - 1].id == id then [fs[|fs| - 1]] else [])
  }

  function Ids(fs: seq<Sample>): set<int> {
    set j | 0 <= j < |fs| :: fs[j].id
  }

  /** The fixation dictionary of a window: one entry per fixation id occurring
      in it, holding that id's fixations in window order. */
  function Grouped(fs: seq<Sample>): (r: map<int, FixGroup>)
    ensures forall id :: id in r ==>
      |r[id].timestamps| == |r[id].normPos| == |r[id].durations| == |r[id].dispersions| == |WithId(fs, id)|
  {
    map id | id in Ids(fs) :: GroupOf(WithId(fs, id))
  }

  /** A group with one more fixation at its end. */
  function Extend(g: FixGroup, f: Sample): FixGroup {
    g.(timestamps := g.timestamps + [f.timestamp],
       normPos := g.normPos + [f.normPos],
       durations := g.durations + [f.duration],
       dispersions := g.dispersions + [f.dispersion])
  }

  lemma {:induction false} WithIdEmpty(fs: seq<Sample>, id: int)
    ensures (WithId(fs, id) == []) <==> id !in Ids(fs)
  {
    if fs != [] {
      var init := fs[..|fs| - 1];
      WithIdEmpty(init, id);
      assert Ids(fs) == Ids(init) + {fs[|fs| - 1].id};
    }
  }

  lemma GroupOfAppend(w: seq<Sample>, f: Sample)
    ensures GroupOf(w + [f]) == Extend(GroupOf(w), f)
  {
    assert Timestamps(w + [f]) == Timestamps(w) + [f.timestamp];
    assert NormPositions(w + [f]) == NormPositions(w) + [f.normPos];
    assert Durations(w + [f]) == Durations(w) + [f.duration];
    assert Dispersions(w + [f]) == Dispersions(w) + [f.dispersion];
  }

  /** Adding one fixation to a window either opens a new group for its id or
      extends the existing one; the other groups stay as they were. */
  lemma GroupedAppend(fs: seq<Sample>, f: Sample)
    ensures Grouped(fs + [f]) ==
      if f.id in Grouped(fs) then Grouped(fs)[f.id := Extend(Grouped(fs)[f.id], f)]
      else Grouped(fs)[f.id := GroupOf([f])]
  {
    var expected := if f.id in Grouped(fs) then Grouped(fs)[f.id := Extend(Grouped(fs)[f.id], f)]
      else Grouped(fs)[f.id := GroupOf([f])];
    IdsAppend(fs, f);
    GroupedNew(fs, f);
    var keys := Ids(fs) + {f.id};
    forall id | id in keys ensures id in Grouped(fs + [f]) && Grouped(fs + [f])[id] == expected[id] {
      if id != f.id {
        GroupedKeep(fs, f, id);
      }
    }
    SameMap(Grouped(fs + [f]), expected, keys);
  }

  /** The group of the appended fixation's id. */
  lemma GroupedNew(fs: seq<Sample>, f: Sample)
    ensures f.id in Grouped(fs + [f])
    ensures Grouped(fs + [f])[f.id] ==
      if f.id in Grouped(fs) then Extend(Grouped(fs)[f.id], f) else GroupOf([f])
  {
    var fs' := fs + [f];
    assert fs'[..|fs'| - 1] == fs;
    assert fs'[|fs| ].id == f.id;
    WithIdEmpty(fs, f.id);
    GroupOfAppend(WithId(fs, f.id), f);
  }

  /** The groups of the other ids are unchanged. */
  lemma GroupedKeep(fs: seq<Sample>, f: Sample, id: int)
    requires id in Ids(fs) && id != f.id
    ensures id in Grouped(fs + [f]) && Grouped(fs + [f])[id] == Grouped(fs)[id]
  {
    var fs' := fs + [f];
    assert fs'[..|fs'| - 1] == fs;
    IdsAppend(fs, f);
    assert WithId(fs', id) == WithId(fs, id);
  }

  lemma SameMap<K, V>(a: map<K, V>, b: map<K, V>, keys: set<K>)
    requires a.Keys == keys == b.Keys
    requires forall k :: k in keys ==> k in a && k in b && a[k] == b[k]
    ensures a == b
  {
  }

  lemma IdsAppend(fs: seq<Sample>, f: Sample)
    ensures Ids(fs + [f]) == Ids(fs) + {f.id}
  {
    var fs' := fs + [f];
    forall x | x in Ids(fs') ensures x in Ids(fs) + {f.id} {
      var j :| 0 <= j < |fs'| && fs'[j].id == x;
      if j < |fs| { assert fs[j].id == x; }
    }
    forall x | x in Ids(fs) ensures x in Ids(fs') {
      var j :| 0 <= j < |fs| && fs[j].id == x;
      assert fs'[j].id == x;
    }
    assert fs'[|fs|].id == f.id;
  }

  /** One more fixation of the window, read at the cursor. */
  lemma GroupedStep(fs: seq<Sample>, start: nat, i: nat)
    requires start <= i < |fs|
    ensures var g := Grouped(fs[start..i]); var f := fs[i];
      Grouped(fs[start..i + 1]) ==
        if f.id in g then g[f.id := Extend(g[f.id], f)]
        else g[f.id := FixGroup([f.timestamp], [f.normPos], [f.duration], [f.dispersion], None)]
  {
    assert fs[start..i + 1] == fs[start..i] + [fs[i]];
    GroupedAppend(fs[start..i], fs[i]);
    assert GroupOf([fs[i]]).timestamps == [fs[i].timestamp];
    assert GroupOf([fs[i]]).normPos == [fs[i].normPos];
    assert GroupOf([fs[i]]).durations == [fs[i].duration];
    assert GroupOf([fs[i]]).dispersions == [fs[i].dispersion];
  }

  /** Marker `k` once it has received its fixations. */
  function Filled(fixations: seq<Sample>, markers: map<nat, Marker>, k: nat): Marker
    requires DenseKeys(markers) && k < |markers|
  {
    markers[k].(fixDict := Some(Grouped(Window(fixations, Ordered(markers), k))))
  }

  /** The dictionary once markers 0 .. count-1 have received their fixations. */
  function FilledUpTo(fixations: seq<Sample>, markers: map<nat, Marker>, count: nat): map<nat, Marker>
    requires DenseKeys(markers)
  {
    map k | k in markers :: if k < count then Filled(fixations, markers, k) else markers[k]
  }

  lemma FillStep(fixations: seq<Sample>, markers: map<nat, Marker>, count: nat)
    requires DenseKeys(markers) && count < |markers|
    ensures FilledUpTo(fixations, markers, count)[count := Filled(fixations, markers, count)]
         == FilledUpTo(fixations, markers, count + 1)
  {
    var before := FilledUpTo(fixations, markers, count)[count := Filled(fixations, markers, count)];
    var after := FilledUpTo(fixations, markers, count + 1);
    assert before.Keys == after.Keys;
    forall k | k in after ensures before[k] == after[k] {
      if k != count {
        assert before[k] == FilledUpTo(fixations, markers, count)[k];
      }
    }
  }

  /** The loop body of `assign_fix_to_markers` fills in marker `count`: the
      dictionary its two inner loops built is that of the marker's window. */
  lemma FillWindow(fixations: seq<Sample>, markers: map<nat, Marker>, count: nat, start: nat, i: nat,
                   fixDict: map<int, FixGroup>)
    requires DenseKeys(markers) && count < |markers|
    requires start == Start(fixations, Ordered(markers), count)
    requires i == Cursor(fixations, Ordered(markers), count + 1)
    requires fixDict == Grouped(fixations[start..i])
    ensures FilledUpTo(fixations, markers, count)[count := markers[count].(fixDict := Some(fixDict))]
         == FilledUpTo(fixations, markers, count + 1)
  {
    assert markers[count].(fixDict := Some(fixDict)) == Filled(fixations, markers, count);
    FillStep(fixations, markers, count);
  }

  /** Within one marker the cursor moves forward: first to the window's start,
      then to its end. */
  lemma CursorStep(fs: seq<Sample>, ms: seq<Marker>, k: nat)
    requires k < |ms|
    ensures Cursor(fs, ms, k) <= Start(fs, ms, k) <= Cursor(fs, ms, k + 1)
  {
    assert Start(fs, ms, k) == SkipTo(fs, Cursor(fs, ms, k), ms[k].onset);
    assert Cursor(fs, ms, k + 1) == SkipTo(fs, Start(fs, ms, k), ms[k].offset);
  }

  /** The cursor never moves backwards: each marker's window starts where the
      previous one stopped, or later. */
  lemma {:induction false} CursorMonotone(fs: seq<Sample>, ms: seq<Marker>, k1: nat, k2: nat)
    requires k1 <= k2 <= |ms|
    ensures Cursor(fs, ms, k1) <= Cursor(fs, ms, k2)
    ensures k2 < |ms| ==> Cursor(fs, ms, k1) <= Start(fs, ms, k2) <= Cursor(fs, ms, k2 + 1)
  {
    if k1 < k2 {
      var k := k2 - 1;
      CursorMonotone(fs, ms, k1, k);
      CursorStep(fs, ms, k);
      assert k + 1 == k2;
      assert Cursor(fs, ms, k1) <= Cursor(fs, ms, k2);
    }
    if k2 < |ms| {
      CursorStep(fs, ms, k2);
    }
  }

  /** Fixation `j` lies in the window of marker `k`. */
  predicate AssignedTo(fs: seq<Sample>, ms: seq<Marker>, j: nat, k: nat)
    requires k < |ms|
  {
    Start(fs, ms, k) <= j < Cursor(fs, ms, k + 1)
  }

  /** No fixation is filed under two markers. */
  lemma AssignedAtMostOnce(fs: seq<Sample>, ms: seq<Marker>, j: nat, k1: nat, k2: nat)
    requires k1 < |ms| && k2 < |ms|
    requires AssignedTo(fs, ms, j, k1) && AssignedTo(fs, ms, j, k2)
    ensures k1 == k2
  {
    if k1 < k2 {
      CursorMonotone(fs, ms, k1 + 1, k2);
    } else if k2 < k1 {
      CursorMonotone(fs, ms, k2 + 1, k1);
    }
  }

  /** A fixation passed over by the skip loop of marker `k` started before that
      marker's onset and is filed under no marker at all. */
  lemma SkippedNeverAssigned(fs: seq<Sample>, ms: seq<Marker>, j: nat, k: nat)
    requires k < |ms| && Cursor(fs, ms, k) <= j < Start(fs, ms, k)
    ensures fs[j].timestamp < ms[k].onset
    ensures forall k' :: 0 <= k' < |ms| ==> !AssignedTo(fs, ms, j, k')
  {
    assert Start(fs, ms, k) == SkipTo(fs, Cursor(fs, ms, k), ms[k].onset);
    SkipToPasses(fs, Cursor(fs, ms, k), ms[k].onset);
    forall k' | 0 <= k' < |ms| ensures !AssignedTo(fs, ms, j, k') {
      SkippedNotAssignedTo(fs, ms, j, k, k');
    }
  }

  lemma SkippedNotAssignedTo(fs: seq<Sample>, ms: seq<Marker>, j: nat, k: nat, k': nat)
    requires k < |ms| && k' < |ms| && Cursor(fs, ms, k) <= j < Start(fs, ms, k)
    ensures !AssignedTo(fs, ms, j, k')
  {
    if k' < k {
      CursorMonotone(fs, ms, k' + 1, k);
    } else if k' > k {
      CursorStep(fs, ms, k);
      CursorMonotone(fs, ms, k + 1, k');
    }
  }

  /** Every fixation filed under marker `k` starts before its offset; when the
      fixation list is time-sorted, as the tracker delivers it, it also starts
      at or after the marker's onset. */
  lemma WindowWithinMarker(fs: seq<Sample>, ms: seq<Marker>, k: nat)
    requires k < |ms|
    ensures forall j: nat :: AssignedTo(fs, ms, j, k) ==> fs[j].timestamp < ms[k].offset
    ensures SortedByTime(fs) ==>
      forall j: nat :: AssignedTo(fs, ms, j, k) ==> ms[k].onset <= fs[j].timestamp
  {
    CursorStep(fs, ms, k);
    assert Cursor(fs, ms, k + 1) == SkipTo(fs, Start(fs, ms, k), ms[k].offset);
    SkipToPasses(fs, Start(fs, ms, k), ms[k].offset);
  }

  lemma {:induction false} WithIdMembers(fs: seq<Sample>, id: int)
    ensures forall f :: f in WithId(fs, id) <==> f in fs && f.id == id
  {
    if fs != [] {
      var init := fs[..|fs| - 1];
      WithIdMembers(init, id);
      assert fs == init + [fs[|fs| - 1]];
    }
  }

  /** Each fixation-id entry holds that id's fixations, in window order, as four
      lists of one common, positive length. A window without fixations gives
      an empty dictionary. */
  lemma GroupedShape(w: seq<Sample>)
    ensures (Grouped(w) == map[]) <==> w == []
    ensures forall id :: id in Grouped(w) ==>
      && |Grouped(w)[id].timestamps| == |Grouped(w)[id].normPos|
         == |Grouped(w)[id].durations| == |Grouped(w)[id].dispersions| >= 1
      && Grouped(w)[id].distances == None
      && (forall f :: f in WithId(w, id) <==> f in w && f.id == id)
  {
    if w != [] {
      assert w[0].id in Ids(w);
    }
    forall id | id in Grouped(w)
      ensures |Grouped(w)[id].timestamps| >= 1
      ensures forall f :: f in WithId(w, id) <==> f in w && f.id == id
    {
      WithIdEmpty(w, id);
      WithIdMembers(w, id);
    }
  }

  /** The first inner loop of `assign_fix_to_markers`: advance the cursor past
      the fixations that start before the marker's onset. */
  method SkipBefore(fixations: seq<Sample>, i0: nat, onset: real) returns (i: nat)
    requires i0 <= |fixations|
    ensures i == SkipTo(fixations, i0, onset)
  {
    i := i0;
    while i < |fixations| && fixations[i].timestamp < onset
      invariant i0 <= i <= |fixations|
      invariant SkipTo(fixations, i, onset) == SkipTo(fixations, i0, onset)
    {
      i := i + 1;
    }
  }

  /** The second inner loop: file every fixation that starts before the
      marker's offset under its id, advancing the cursor. */
  method CollectBefore(fixations: seq<Sample>, start: nat, offset: real)
    returns (fixDict: map<int, FixGroup>, i: nat)
    requires start <= |fixations|
    ensures i == SkipTo(fixations, start, offset)
    ensures fixDict == Grouped(fixations[start..i])
  {
    fixDict := map[];
    i := start;
    while i < |fixations| && fixations[i].timestamp < offset
      invariant start <= i <= |fixations|
      invariant SkipTo(fixations, i, offset) == SkipTo(fixations, start, offset)
      invariant fixDict == Grouped(fixations[start..i])
    {
      var fix := fixations[i];
      GroupedStep(fixations, start, i);
      if fix.id !in fixDict {
        fixDict := fixDict[fix.id := FixGroup([fix.timestamp], [fix.normPos], [fix.duration], [fix.dispersion], None)];
      } else {
        var g := fixDict[fix.id];
        fixDict := fixDict[fix.id := g.(timestamps := g.timestamps + [fix.timestamp],
                                        normPos := g.normPos + [fix.normPos],
                                        durations := g.durations + [fix.duration],
                                        dispersions := g.dispersions + [fix.dispersion])];
      }
      i := i + 1;
    }
  }

  /** The cursor positions after each number of markers, `Cursor` tabulated. */
  ghost function Cursors(fs: seq<Sample>, ms: seq<Marker>): (cs: seq<nat>)
    ensures |cs| == |ms| + 1
    ensures forall k :: 0 <= k <= |ms| ==> cs[k] == Cursor(fs, ms, k)
  {
    seq(|ms| + 1, k requires 0 <= k <= |ms| => Cursor(fs, ms, k))
  }

  /** `assign_fix_to_markers`: one cursor `i` shared by all markers. */
  method AssignFixToMarkers(fixations: seq<Sample>, markers: map<nat, Marker>)
    returns (result: map<nat, Marker>)
    requires DenseKeys(markers)
    ensures result.Keys == markers.Keys
    ensures forall k :: 0 <= k < |markers| ==> result[k] == Filled(fixations, markers, k)
  {
    ghost var cs := Cursors(fixations, Ordered(markers));
    var i := 0;
    result := markers;
    FilledNone(fixations, markers);
    for count := 0 to |markers|
      invariant Filling(fixations, markers, count, result, i, cs)
    {
      result, i := FillMarker(fixations, markers, count, result, i, cs);
    }
    FilledAll(fixations, markers);
  }

  /** The state of the outer loop once `count` markers are filled: the cursor
      where the last of them stopped, the first `count` markers filled. */
  ghost predicate Filling(fixations: seq<Sample>, markers: map<nat, Marker>, count: nat,
                          result: map<nat, Marker>, i: nat, cs: seq<nat>)
  {
    && DenseKeys(markers)
    && count <= |markers|
    && cs == Cursors(fixations, Ordered(markers))
    && i == cs[count]
    && result == FilledUpTo(fixations, markers, count)
  }

  /** One pass of the outer loop: the two inner loops for marker `count`,
      from the cursor the previous markers left. */
  method FillMarker(fixations: seq<Sample>, markers: map<nat, Marker>, count: nat,
                    result: map<nat, Marker>, i0: nat, ghost cs: seq<nat>)
    returns (result': map<nat, Marker>, i: nat)
    requires count < |markers| && Filling(fixations, markers, count, result, i0, cs)
    ensures Filling(fixations, markers, count + 1, result', i, cs)
  {
    ghost var ms := Ordered(markers);
    var marker := result[count];
    assert marker == markers[count] == ms[count];
    var start := SkipBefore(fixations, i0, marker.onset);
    var fixDict;
    fixDict, i := CollectBefore(fixations, start, marker.offset);
    FillWindow(fixations, markers, count, start, i, fixDict);
    result' := result[count := marker.(fixDict := Some(fixDict))];
  }

  /** Before the loop no marker is filled. */
  lemma FilledNone(fixations: seq<Sample>, markers: map<nat, Marker>)
    requires DenseKeys(markers)
    ensures FilledUpTo(fixations, markers, 0) == markers
  {
  }

  /** Once every marker is filled, each entry holds its window's grouping. */
  lemma FilledAll(fixations: seq<Sample>, markers: map<nat, Marker>)
    requires DenseKeys(markers)
    ensures FilledUpTo(fixations, markers, |markers|).Keys == markers.Keys
    ensures forall k :: 0 <= k < |markers| ==>
      FilledUpTo(fixations, markers, |markers|)[k] == Filled(fixations, markers, k)
  {
  }
}
