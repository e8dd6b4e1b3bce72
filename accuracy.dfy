/** Validation bookkeeping, last stage: `fix_to_marker_distances` attaches to
    every fixation group its angular distances to the marker, and buckets them
    into the good, fair and poor accuracy tiers whose proportions it reports.
    The angle itself (scipy's cosine distance, arccos, degrees) is a parameter. */
module Accuracy {
  import opened Samples
  import opened Markers
  import opened Fixations

  /** Tier thresholds in degrees of visual angle. */
  const GoodBelow: real := 0.5
  const PoorFrom: real := 1.5

  datatype Tier = Good | Fair | Poor

  /** The tier counts of one fixation group and their proportions; a proportion
      is `None` where numpy would divide zero by zero. */
  datatype TierReport = TierReport(
    numFix: nat,
    good: nat,
    fair: nat,
    poor: nat,
    goodRatio: Option<real>,
    fairRatio: Option<real>,
    poorRatio: Option<real>)

  /** How many distances satisfy `p` (numpy's `np.sum` over a boolean mask). */
  function Count(ds: seq<real>, p: real -> bool): (n: nat)
    ensures n <= |ds|
  {
    if ds == [] then 0 else (if p(ds[0]) then 1 else 0) + Count(ds[1..], p)
  }

  predicate IsGood(d: real) { d < GoodBelow }
  predicate IsFair(d: real) { GoodBelow <= d && d < PoorFrom }
  predicate IsPoor(d: real) { d >= PoorFrom }

  /** The tier a single distance falls into. */
  function TierOf(d: real): Tier {
    if d < GoodBelow then Good else if d < PoorFrom then Fair else Poor
  }

  function Ratio(count: nat, numFix: nat): (r: Option<real>) {
    if numFix == 0 then None else Some(count as real / numFix as real)
  }

  /** The counts the source computes, each from its own mask. */
  function Report(ds: seq<real>): (r: TierReport)
    ensures r.numFix == |ds| == r.good + r.fair + r.poor
    ensures r.goodRatio.None? <==> ds == []
    ensures r.fairRatio.None? <==> ds == []
    ensures r.poorRatio.None? <==> ds == []
  {
    TiersPartition(ds);
    var n := |ds|;
    var good := Count(ds, IsGood);
    var fair := Count(ds, IsFair);
    var poor := Count(ds, IsPoor);
    TierReport(n, good, fair, poor, Ratio(good, n), Ratio(fair, n), Ratio(poor, n))
  }

  /** The three masks pick out exactly the distance's own tier. */
  lemma TierMasks(d: real)
    ensures IsGood(d) <==> TierOf(d) == Good
    ensures IsFair(d) <==> TierOf(d) == Fair
    ensures IsPoor(d) <==> TierOf(d) == Poor
  {
  }

  /** The tiers partition the distances: the three counts add up to `num_fix`. */
  lemma {:induction false} TiersPartition(ds: seq<real>)
    ensures Count(ds, IsGood) + Count(ds, IsFair) + Count(ds, IsPoor) == |ds|
  {
    if ds != [] {
      TiersPartition(ds[1..]);
      TierMasks(ds[0]);
    }
  }

  /** With at least one distance the proportions are all defined, lie in
      [0, 1] and add up to one. */
  lemma RatiosSumToOne(ds: seq<real>)
    requires |ds| > 0
    ensures var r := Report(ds);
      && r.goodRatio.Some? && r.fairRatio.Some? && r.poorRatio.Some?
      && 0.0 <= r.goodRatio.value <= 1.0
      && 0.0 <= r.fairRatio.value <= 1.0
      && 0.0 <= r.poorRatio.value <= 1.0
      && r.goodRatio.value + r.fairRatio.value + r.poorRatio.value == 1.0
  {
    var r := Report(ds);
    TiersPartition(ds);
    ShareBounds(r.good as real, |ds| as real);
    ShareBounds(r.fair as real, |ds| as real);
    ShareBounds(r.poor as real, |ds| as real);
    SharesAdd(r.good as real, r.fair as real, r.poor as real, |ds| as real);
  }

  lemma ShareBounds(a: real, n: real)
    requires 0.0 <= a <= n && n > 0.0
    ensures 0.0 <= a / n <= 1.0
  {
    assert a / n * n == a;
  }

  lemma SharesAdd(a: real, b: real, c: real, n: real)
    requires n > 0.0 && a + b + c == n
    ensures a / n + b / n + c / n == 1.0
  {
    assert a / n + b / n + c / n == (a + b + c) / n;
  }

  /** The distance from a marker to each fixation position of a group, in order. */
  function Distances(markerPos: Position, positions: seq<Position>, angle: (Position, Position) -> real): seq<real> {
    seq(|positions|, j requires 0 <= j < |positions| => angle(markerPos, positions[j]))
  }

  /** The fixation dictionary of a marker with every group's distances attached. */
  function WithDistances(fixDict: map<int, FixGroup>, markerPos: Position, angle: (Position, Position) -> real): map<int, FixGroup> {
    map id | id in fixDict :: fixDict[id].(distances := Some(Distances(markerPos, fixDict[id].normPos, angle)))
  }

  /** The report printed for each group of a marker. */
  function Reports(fixDict: map<int, FixGroup>, markerPos: Position, angle: (Position, Position) -> real): map<int, TierReport> {
    map id | id in fixDict :: Report(Distances(markerPos, fixDict[id].normPos, angle))
  }

  /** The innermost loop: one distance per fixation position of the group. */
  method AngularDistances(markerPos: Position, positions: seq<Position>, angle: (Position, Position) -> real)
    returns (distances: seq<real>)
    ensures |distances| == |positions|
    ensures forall j :: 0 <= j < |positions| ==> distances[j] == angle(markerPos, positions[j])
  {
    distances := [];
    for j := 0 to |positions|
      invariant |distances| == j
      invariant forall i :: 0 <= i < j ==> distances[i] == angle(markerPos, positions[i])
    {
      distances := distances + [angle(markerPos, positions[j])];
    }
  }

  /** The dictionary of one marker once the ids outside `pending` are done. */
  function PartlyMeasured(fixDict: map<int, FixGroup>, pending: set<int>, markerPos: Position,
                          angle: (Position, Position) -> real): map<int, FixGroup> {
    map id | id in fixDict :: if id in pending then fixDict[id] else WithDistances(fixDict, markerPos, angle)[id]
  }

  function PartlyReported(fixDict: map<int, FixGroup>, pending: set<int>, markerPos: Position,
                          angle: (Position, Position) -> real): map<int, TierReport> {
    map id | id in fixDict && id !in pending :: Report(Distances(markerPos, fixDict[id].normPos, angle))
  }

  lemma MeasureStep(fixDict: map<int, FixGroup>, pending: set<int>, key: int, markerPos: Position,
                    angle: (Position, Position) -> real)
    requires key in pending && pending <= fixDict.Keys
    ensures var ds := Distances(markerPos, fixDict[key].normPos, angle);
      && PartlyMeasured(fixDict, pending, markerPos, angle)[key := fixDict[key].(distances := Some(ds))]
         == PartlyMeasured(fixDict, pending - {key}, markerPos, angle)
      && PartlyReported(fixDict, pending, markerPos, angle)[key := Report(ds)]
         == PartlyReported(fixDict, pending - {key}, markerPos, angle)
  {
  }

  lemma NonEmptyHasMember(s: set<int>)
    requires s != {}
    ensures exists x :: x in s
  {
    if forall x :: x !in s {
      assert false;
    }
  }

  /** The loop over the fixation ids of one marker. */
  method MarkerDistances(fixDict: map<int, FixGroup>, markerPos: Position, angle: (Position, Position) -> real)
    returns (updated: map<int, FixGroup>, report: map<int, TierReport>)
    ensures updated == WithDistances(fixDict, markerPos, angle)
    ensures report == Reports(fixDict, markerPos, angle)
  {
    updated := fixDict;
    report := map[];
    var keys := fixDict.Keys;
    assert updated == PartlyMeasured(fixDict, keys, markerPos, angle);
    assert report == PartlyReported(fixDict, keys, markerPos, angle);
    while keys != {}
      invariant keys <= fixDict.Keys
      invariant updated == PartlyMeasured(fixDict, keys, markerPos, angle)
      invariant report == PartlyReported(fixDict, keys, markerPos, angle)
      decreases keys
    {
      NonEmptyHasMember(keys);
      var key :| key in keys;
      var g := updated[key];
      var distances := AngularDistances(markerPos, g.normPos, angle);
      assert distances == Distances(markerPos, fixDict[key].normPos, angle);
      MeasureStep(fixDict, keys, key, markerPos, angle);
      updated := updated[key := g.(distances := Some(distances))];
      report := report[key := Report(distances)];
      keys := keys - {key};
    }
    assert updated == WithDistances(fixDict, markerPos, angle);
    assert report == Reports(fixDict, markerPos, angle);
  }

  /** Marker `k` with distances attached to its groups. */
  function Measured(m: Marker, angle: (Position, Position) -> real): Marker
    requires m.fixDict.Some?
  {
    m.(fixDict := Some(WithDistances(m.fixDict.value, m.normPos, angle)))
  }

  function MeasuredUpTo(markers: map<nat, Marker>, count: nat, angle: (Position, Position) -> real): map<nat, Marker>
    requires forall k :: k in markers ==> markers[k].fixDict.Some?
  {
    map k | k in markers :: if k < count then Measured(markers[k], angle) else markers[k]
  }

  function ReportedUpTo(markers: map<nat, Marker>, count: nat, angle: (Position, Position) -> real): map<nat, map<int, TierReport>>
    requires forall k :: k in markers ==> markers[k].fixDict.Some?
  {
    map k | k in markers && k < count :: Reports(markers[k].fixDict.value, markers[k].normPos, angle)
  }

  lemma MeasuredStep(markers: map<nat, Marker>, count: nat, angle: (Position, Position) -> real)
    requires forall k :: k in markers ==> markers[k].fixDict.Some?
    requires count in markers
    ensures MeasuredUpTo(markers, count, angle)[count := Measured(markers[count], angle)]
         == MeasuredUpTo(markers, count + 1, angle)
    ensures ReportedUpTo(markers, count, angle)[count := Reports(markers[count].fixDict.value, markers[count].normPos, angle)]
         == ReportedUpTo(markers, count + 1, angle)
  {
  }

  lemma MeasuredAll(markers: map<nat, Marker>, angle: (Position, Position) -> real)
    requires DenseKeys(markers)
    requires forall k :: k in markers ==> markers[k].fixDict.Some?
    ensures var result := MeasuredUpTo(markers, |markers|, angle);
      var reports := ReportedUpTo(markers, |markers|, angle);
      && result.Keys == markers.Keys && reports.Keys == markers.Keys
      && forall k :: k in markers ==>
        && result[k] == Measured(markers[k], angle)
        && reports[k] == Reports(markers[k].fixDict.value, markers[k].normPos, angle)
  {
  }

  /** `fix_to_marker_distances`: the dictionary with distances attached, and
      the tier report of every marker and fixation id. */
  method FixToMarkerDistances(markers: map<nat, Marker>, angle: (Position, Position) -> real)
    returns (result: map<nat, Marker>, reports: map<nat, map<int, TierReport>>)
    requires DenseKeys(markers)
    requires forall k :: k in markers ==> markers[k].fixDict.Some?
    ensures result.Keys == markers.Keys && reports.Keys == markers.Keys
    ensures forall k :: k in markers ==>
      && result[k] == Measured(markers[k], angle)
      && reports[k] == Reports(markers[k].fixDict.value, markers[k].normPos, angle)
  {
    result := markers;
    reports := map[];
    assert result == MeasuredUpTo(markers, 0, angle);
    assert reports == ReportedUpTo(markers, 0, angle);
    for count := 0 to |markers|
      invariant result == MeasuredUpTo(markers, count, angle)
      invariant reports == ReportedUpTo(markers, count, angle)
    {
      var m := result[count];
      var updated, report := MarkerDistances(m.fixDict.value, m.normPos, angle);
      MeasuredStep(markers, count, angle);
      result := result[count := m.(fixDict := Some(updated))];
      reports := reports[count := report];
    }
    MeasuredAll(markers, angle);
  }

  /** After `assign_fix_to_markers`, every reported group has at least one
      fixation, so its proportions are defined and add up to one. */
  lemma AssignedReportsDefined(fixations: seq<Sample>, markers: map<nat, Marker>, k: nat, id: int,
                               angle: (Position, Position) -> real)
    requires DenseKeys(markers) && k < |markers|
    requires id in Filled(fixations, markers, k).fixDict.value
    ensures var m := Filled(fixations, markers, k);
      var r := Reports(m.fixDict.value, m.normPos, angle)[id];
      && r.numFix > 0
      && r.numFix == |m.fixDict.value[id].normPos|
      && r.good + r.fair + r.poor == r.numFix
      && r.goodRatio.value + r.fairRatio.value + r.poorRatio.value == 1.0
  {
    var m := Filled(fixations, markers, k);
    var w := Window(fixations, Ordered(markers), k);
    GroupedShape(w);
    var ds := Distances(m.normPos, m.fixDict.value[id].normPos, angle);
    TiersPartition(ds);
    RatiosSumToOne(ds);
  }

  /** A map with the same keys as a densely keyed one is densely keyed too. */
  lemma DenseKeysSameKeys(a: map<nat, Marker>, b: map<nat, Marker>)
    requires a.Keys == b.Keys && DenseKeys(b)
    ensures DenseKeys(a)
  {
    assert |a| == |a.Keys| == |b.Keys| == |b|;
  }

  /** The two stages after the marker dictionary: fixations assigned to the
      markers, then the distances and tier reports of every marker. */
  method AssessMarkers(fixations: seq<Sample>, markers: map<nat, Marker>, angle: (Position, Position) -> real)
    returns (measured: map<nat, Marker>, reports: map<nat, map<int, TierReport>>)
    requires DenseKeys(markers)
    ensures measured.Keys == markers.Keys && reports.Keys == markers.Keys
    ensures forall k :: k in markers ==>
      && measured[k] == Measured(Filled(fixations, markers, k), angle)
      && reports[k] == Reports(Filled(fixations, markers, k).fixDict.value, markers[k].normPos, angle)
  {
    var withFixations := AssignFixToMarkers(fixations, markers);
    DenseKeysSameKeys(withFixations, markers);
    assert forall k :: k in withFixations ==> withFixations[k] == Filled(fixations, markers, k);
    measured, reports := FixToMarkerDistances(withFixations, angle);
  }

  /** `validate`: the marker dictionary of the references, the fixations
      assigned to its markers, and their distances and tier reports. */
  method Validate(fixations: seq<Sample>, refs: seq<Ref>, angle: (Position, Position) -> real)
    returns (markers: map<nat, Marker>, measured: map<nat, Marker>, reports: map<nat, map<int, TierReport>>)
    ensures IsMarkerDictionary(refs, markers)
    ensures measured.Keys == markers.Keys && reports.Keys == markers.Keys
    ensures forall k :: k in markers ==>
      && measured[k] == Measured(Filled(fixations, markers, k), angle)
      && reports[k] == Reports(Filled(fixations, markers, k).fixDict.value, markers[k].normPos, angle)
  {
    markers := GetMarkerDictionary(refs);
    measured, reports := AssessMarkers(fixations, markers, angle);
  }
}
