/** What a calibration attempt shows and records: the order in which the marker
    sites are visited, and which of a marker's frames record a reference. Each
    marker stays on screen for `MarkerDurationFrames` frames; the first
    `CalibrationLeadIn` + 1 and the last `CalibrationLeadOut` of them record nothing. */
module Presentation {
  import opened Samples

  const MarkerDurationFrames: nat := 90
  const CalibrationLeadIn: nat := 10
  const CalibrationLeadOut: nat := 0

  /** Frame `f` of a marker appends a reference. */
  predicate Records(f: int)
    ensures Records(f) <==> 11 <= f <= 89
  {
    f > CalibrationLeadIn && f < MarkerDurationFrames - CalibrationLeadOut
  }

  /** The number of references one marker contributes. */
  const RefsPerMarker: nat := MarkerDurationFrames - CalibrationLeadOut - CalibrationLeadIn - 1

  /** How many of the frames `0 .. n-1` record a reference. */
  function RecordedFrames(n: nat): nat {
    if n == 0 then 0 else RecordedFrames(n - 1) + (if Records(n - 1) then 1 else 0)
  }

  /** No frame up to the lead-in records anything. */
  lemma {:induction false} NothingDuringLeadIn(n: nat)
    requires n <= CalibrationLeadIn + 1
    ensures RecordedFrames(n) == 0
  {
    if n > 0 {
      NothingDuringLeadIn(n - 1);
    }
  }

  /** After the lead-in every frame records one reference. */
  lemma {:induction false} RecordedAfterLeadIn(n: nat)
    requires CalibrationLeadIn + 1 <= n <= MarkerDurationFrames - CalibrationLeadOut
    ensures RecordedFrames(n) == n - CalibrationLeadIn - 1
  {
    if n == CalibrationLeadIn + 1 {
      NothingDuringLeadIn(n);
    } else {
      RecordedAfterLeadIn(n - 1);
    }
  }

  /** The count of recording frames among the first `n`, in closed form. */
  lemma RecordedFramesClosed(n: nat)
    requires n <= MarkerDurationFrames - CalibrationLeadOut
    ensures RecordedFrames(n) == if n <= CalibrationLeadIn + 1 then 0 else n - CalibrationLeadIn - 1
  {
    if n <= CalibrationLeadIn + 1 {
      NothingDuringLeadIn(n);
    } else {
      RecordedAfterLeadIn(n);
    }
  }

  /** A full marker presentation records `RefsPerMarker` = 79 references. */
  lemma RefsPerMarkerCount()
    ensures RecordedFrames(MarkerDurationFrames) == RefsPerMarker == 79
  {
    RecordedAfterLeadIn(MarkerDurationFrames);
  }

  /** The sites `0 .. n-1` in order (`np.arange`). */
  function Range(n: nat): (r: seq<nat>)
    ensures |r| == n
    ensures forall j :: 0 <= j < n ==> r[j] == j
  {
    if n == 0 then [] else Range(n - 1) + [n - 1]
  }

  /** `order` is a permutation of the sites `0 .. n-1`. */
  predicate IsOrder(order: seq<nat>, n: nat) {
    multiset(order) == multiset(Range(n))
  }

  /** The visiting order of the marker sites: the identity, or, when
      `markersOrder` is "random", the permutation `shuffle` drawn by
      `np.random.permutation` (the random draw is a parameter). */
  function MarkersOrder(n: nat, markersOrder: string, shuffle: seq<nat>): (order: seq<nat>)
    requires IsOrder(shuffle, n)
    ensures IsOrder(order, n)
    ensures markersOrder != "random" ==> order == Range(n)
    ensures markersOrder == "random" ==> order == shuffle
  {
    if markersOrder == "random" then shuffle else Range(n)
  }

  /** A permutation of the sites shows every marker once, and only those. */
  lemma EveryIndexVisited(order: seq<nat>, n: nat)
    requires IsOrder(order, n)
    ensures |order| == n
    ensures forall j :: 0 <= j < |order| ==> order[j] < n
    ensures forall site :: 0 <= site < n ==> site in order
  {
    calc {
      |order|;
      |multiset(order)|;
      |multiset(Range(n))|;
      |Range(n)|;
    }
    forall j | 0 <= j < |order|
      ensures order[j] < n
    {
      assert order[j] in multiset(order);
      assert order[j] in Range(n);
    }
    forall site | 0 <= site < n
      ensures site in order
    {
      assert Range(n)[site] == site;
      assert site in multiset(Range(n));
    }
  }

  /** The references of one marker: `RefsPerMarker` frames at the marker's
      position, stamped by the clock from reference number `base` on. */
  function MarkerBlock(norm: Position, screen: Position, clock: nat -> real, base: nat): (block: seq<Ref>)
    ensures |block| == RefsPerMarker
  {
    seq(RefsPerMarker, j requires 0 <= j < RefsPerMarker => Ref(norm, screen, clock(base + j)))
  }

  /** All references recorded for the markers in `order`; reference number `j`
      carries the clock reading `clock(j)`. */
  function PresentedRefs(order: seq<nat>, normOf: seq<Position>, screenOf: seq<Position>, clock: nat -> real): seq<Ref>
    requires |normOf| == |screenOf|
    requires forall j :: 0 <= j < |order| ==> order[j] < |normOf|
  {
    if order == [] then []
    else
      var k := |order| - 1;
      PresentedRefs(order[..k], normOf, screenOf, clock)
        + MarkerBlock(normOf[order[k]], screenOf[order[k]], clock, k * RefsPerMarker)
  }

  /** Reference `j` of the block of marker `k` belongs to marker `k`. */
  lemma BlockOf(j: nat, k: nat)
    requires k * RefsPerMarker <= j < k * RefsPerMarker + RefsPerMarker
    ensures j / RefsPerMarker == k
  {
  }

  /** The references of the first `n` markers of `order`, each stamped by its number. */
  lemma {:induction false} PrefixRefsAt(order: seq<nat>, normOf: seq<Position>, screenOf: seq<Position>,
                                        clock: nat -> real, n: nat)
    requires |normOf| == |screenOf|
    requires forall j :: 0 <= j < |order| ==> order[j] < |normOf|
    requires n <= |order|
    ensures var refs := PresentedRefs(order[..n], normOf, screenOf, clock);
      && |refs| == n * RefsPerMarker
      && forall j :: 0 <= j < |refs| ==>
           j / RefsPerMarker < n
           && refs[j] == Ref(normOf[order[j / RefsPerMarker]], screenOf[order[j / RefsPerMarker]], clock(j))
  {
    if n > 0 {
      var k := n - 1;
      assert order[..n][..k] == order[..k];
      PrefixRefsAt(order, normOf, screenOf, clock, k);
      AppendBlock(order, normOf, screenOf, clock, k, PresentedRefs(order[..k], normOf, screenOf, clock));
    }
  }

  /** The step of `PrefixRefsAt`: the block of marker `k` after the references of
      the markers before it. */
  lemma AppendBlock(order: seq<nat>, normOf: seq<Position>, screenOf: seq<Position>, clock: nat -> real,
                    k: nat, init: seq<Ref>)
    requires |normOf| == |screenOf|
    requires forall j :: 0 <= j < |order| ==> order[j] < |normOf|
    requires k < |order|
    requires |init| == k * RefsPerMarker
    requires forall j :: 0 <= j < |init| ==>
      j / RefsPerMarker < k
      && init[j] == Ref(normOf[order[j / RefsPerMarker]], screenOf[order[j / RefsPerMarker]], clock(j))
    ensures var refs := init + MarkerBlock(normOf[order[k]], screenOf[order[k]], clock, k * RefsPerMarker);
      && |refs| == (k + 1) * RefsPerMarker
      && forall j :: 0 <= j < |refs| ==>
           j / RefsPerMarker < k + 1
           && refs[j] == Ref(normOf[order[j / RefsPerMarker]], screenOf[order[j / RefsPerMarker]], clock(j))
  {
    var block := MarkerBlock(normOf[order[k]], screenOf[order[k]], clock, k * RefsPerMarker);
    var refs := init + block;
    forall j | 0 <= j < |refs|
      ensures j / RefsPerMarker < k + 1
      ensures refs[j] == Ref(normOf[order[j / RefsPerMarker]], screenOf[order[j / RefsPerMarker]], clock(j))
    {
      if j < |init| {
        assert refs[j] == init[j];
      } else {
        BlockOf(j, k);
        assert refs[j] == block[j - k * RefsPerMarker];
      }
    }
  }

  /** Reference `j` belongs to the marker shown `j / RefsPerMarker`-th, and there
      are `RefsPerMarker` of them per marker. */
  lemma PresentedRefsAt(order: seq<nat>, normOf: seq<Position>, screenOf: seq<Position>, clock: nat -> real)
    requires |normOf| == |screenOf|
    requires forall j :: 0 <= j < |order| ==> order[j] < |normOf|
    ensures var refs := PresentedRefs(order, normOf, screenOf, clock);
      && |refs| == |order| * RefsPerMarker
      && forall j :: 0 <= j < |refs| ==>
           j / RefsPerMarker < |order|
           && refs[j] == Ref(normOf[order[j / RefsPerMarker]], screenOf[order[j / RefsPerMarker]], clock(j))
  {
    PrefixRefsAt(order, normOf, screenOf, clock, |order|);
    assert order[..|order|] == order;
  }

  /** The sites of the order, by their index in it. */
  lemma ShownAt(order: seq<nat>, site: nat)
    requires site in order
    ensures exists j :: 0 <= j < |order| && order[j] == site
  {
  }

  /** The block of the `j`-th marker shown starts with a reference at its position. */
  lemma BlockFirst(order: seq<nat>, normOf: seq<Position>, screenOf: seq<Position>, clock: nat -> real, j: nat)
    requires |normOf| == |screenOf|
    requires forall i :: 0 <= i < |order| ==> order[i] < |normOf|
    requires j < |order|
    ensures var refs := PresentedRefs(order, normOf, screenOf, clock);
      j * RefsPerMarker < |refs| && refs[j * RefsPerMarker].normPos == normOf[order[j]]
  {
    PresentedRefsAt(order, normOf, screenOf, clock);
    assert j * RefsPerMarker < |order| * RefsPerMarker;
    assert (j * RefsPerMarker) / RefsPerMarker == j;
  }

  /** An attempt over `n` marker sites, in either order, records
      `n * RefsPerMarker` references, and the block of every site starts with
      a reference at that site's position. */
  lemma AttemptRefs(n: nat, markersOrder: string, shuffle: seq<nat>, normOf: seq<Position>, screenOf: seq<Position>,
                    clock: nat -> real)
    requires IsOrder(shuffle, n) && |normOf| == n && |screenOf| == n
    ensures var order := MarkersOrder(n, markersOrder, shuffle);
      && (forall j :: 0 <= j < |order| ==> order[j] < |normOf|)
      && var refs := PresentedRefs(order, normOf, screenOf, clock);
      && |refs| == n * RefsPerMarker
      && forall site :: 0 <= site < n ==> SiteShown(order, refs, normOf, site)
  {
    var order := MarkersOrder(n, markersOrder, shuffle);
    EveryIndexVisited(order, n);
    var refs := PresentedRefs(order, normOf, screenOf, clock);
    assert |refs| == n * RefsPerMarker by {
      PresentedRefsAt(order, normOf, screenOf, clock);
    }
    forall site | 0 <= site < n
      ensures SiteShown(order, refs, normOf, site)
    {
      ShownAt(order, site);
      var j :| 0 <= j < |order| && order[j] == site;
      BlockFirst(order, normOf, screenOf, clock, j);
    }
  }

  /** Site `site` is shown as the `j`-th marker for some `j`, and the block of
      references of that marker starts with one at the site's position. */
  ghost predicate SiteShown(order: seq<nat>, refs: seq<Ref>, normOf: seq<Position>, site: nat)
    requires site < |normOf|
  {
    exists j :: 0 <= j < |order| && order[j] == site
      && j * RefsPerMarker < |refs| && refs[j * RefsPerMarker].normPos == normOf[site]
  }
}
