/**
  The older shot-zone figure of football_shotmap/shotzone.py. Zones are
  plain records anchored at their upper corner, membership is
  (x - width, x] x (y - height, y], the statistics are computed on a copy
  of the zone list, and the fills are coloured by rank from a fixed palette.
 */
module LegacyShotZone {
  import opened Wrappers
  import opened Tally
  import Ranking
  import ShotUtils
  import PitchZones
  import ShotZone

  type ShotRecord = ShotUtils.ShotRecord
  type Edge = PitchZones.Edge

  datatype LegacyZone = LegacyZone(x: real, y: real, width: real, height: real, draw: seq<Edge>)

  /** An entry of the copied list: the zone with its `shots` and `xG` keys. */
  datatype ZoneStat = ZoneStat(zone: LegacyZone, shots: nat, xG: real)

  /** `is_inside_zone(x, y, zone)`: upper and right edges included, lower and left edges excluded. */
  predicate IsInsideZone(a: real, b: real, z: LegacyZone) {
    z.x - z.width < a <= z.x && z.y - z.height < b <= z.y
  }

  /** The point tested for a shot: `(Y, X)` on a vertical pitch, `(X, Y)` otherwise. */
  function TestPoint(shot: ShotRecord, vertical: bool): (real, real) {
    if vertical then (shot.y, shot.x) else (shot.x, shot.y)
  }

  /** The two orientations test the same two coordinates, in opposite order. */
  lemma TestPointOrientations(shot: ShotRecord)
    ensures TestPoint(shot, false) == (TestPoint(shot, true).1, TestPoint(shot, true).0)
    ensures multiset{TestPoint(shot, true).0, TestPoint(shot, true).1} == multiset{shot.x, shot.y}
  {
  }

  /** The horizontal test of a shot is the vertical test of the shot with X and Y exchanged. */
  lemma TestPointSwap(shot: ShotRecord, z: LegacyZone)
    ensures var (a, b) := TestPoint(shot, false);
      var (c, d) := TestPoint(shot.(x := shot.y, y := shot.x), true);
      IsInsideZone(a, b, z) == IsInsideZone(c, d, z)
  {
  }

  function FirstInsideFrom(zones: seq<LegacyZone>, a: real, b: real, from: nat): (r: Option<nat>)
    requires from <= |zones|
    ensures r.Some? ==> from <= r.value < |zones| && IsInsideZone(a, b, zones[r.value])
    ensures r.Some? ==> forall k :: from <= k < r.value ==> !IsInsideZone(a, b, zones[k])
    ensures r.None? ==> forall k :: from <= k < |zones| ==> !IsInsideZone(a, b, zones[k])
    decreases |zones| - from
  {
    if from == |zones| then None
    else if IsInsideZone(a, b, zones[from]) then Some(from)
    else FirstInsideFrom(zones, a, b, from + 1)
  }

  /** The zone a shot is counted in: the first one in list order that holds its test point. */
  function FirstInside(zones: seq<LegacyZone>, shot: ShotRecord, vertical: bool): Option<nat> {
    FirstInsideFrom(zones, TestPoint(shot, vertical).0, TestPoint(shot, vertical).1, 0)
  }

  /** The first match is the zone that holds the point and follows no zone that does. */
  lemma FirstInsideIsFirst(zones: seq<LegacyZone>, a: real, b: real, j: nat)
    requires j < |zones|
    ensures FirstInsideFrom(zones, a, b, 0) == Some(j) <==>
      IsInsideZone(a, b, zones[j]) && forall k :: 0 <= k < j ==> !IsInsideZone(a, b, zones[k])
  {
  }

  function Assignment(zones: seq<LegacyZone>, shots: seq<ShotRecord>, vertical: bool): (a: seq<Option<nat>>)
    ensures |a| == |shots|
    ensures forall p :: 0 <= p < |a| && a[p].Some? ==> a[p].value < |zones|
  {
    seq(|shots|, p requires 0 <= p < |shots| => FirstInside(zones, shots[p], vertical))
  }

  /**
    `calculate_zones_stats(df, zones, vertical)`. The result is a fresh list
    with one entry per input zone, in the same order and with the same zone;
    entry `i` counts the shots whose first matching zone is `i`, and adds up
    their xG. The input list is a value and is not changed.
   */
  method CalculateZonesStats(shots: seq<ShotRecord>, zones: seq<LegacyZone>, vertical: bool) returns (stats: seq<ZoneStat>)
    ensures |stats| == |zones|
    ensures forall i :: 0 <= i < |stats| ==> stats[i].zone == zones[i]
    ensures forall i: nat :: i < |stats| ==>
      stats[i].shots == Count(Assignment(zones, shots, vertical), i)
      && stats[i].xG == Weight(Assignment(zones, shots, vertical), ShotUtils.XGs(shots), i)
  {
    stats := [];
    var i := 0;
    while i < |zones|
      invariant 0 <= i <= |zones| && |stats| == i
      invariant forall k :: 0 <= k < i ==> stats[k] == ZoneStat(zones[k], 0, 0.0)
    {
      stats := stats + [ZoneStat(zones[i], 0, 0.0)];
      i := i + 1;
    }

    var s := 0;
    while s < |shots|
      invariant 0 <= s <= |shots| && |stats| == |zones|
      invariant forall k :: 0 <= k < |zones| ==> stats[k].zone == zones[k]
      invariant forall k: nat :: k < |zones| ==>
        stats[k].shots == Count(Assignment(zones, shots[..s], vertical), k)
        && stats[k].xG == Weight(Assignment(zones, shots[..s], vertical), ShotUtils.XGs(shots[..s]), k)
    {
      stats := AddShot(stats, zones, shots[s], vertical);
      AssignmentStep(zones, shots, vertical, s);
      s := s + 1;
    }
    assert shots[..|shots|] == shots;
  }

  /** Inner loop: the first entry whose zone holds the test point gets the shot, then the scan stops. */
  method AddShot(stats: seq<ZoneStat>, zones: seq<LegacyZone>, shot: ShotRecord, vertical: bool) returns (updated: seq<ZoneStat>)
    requires |stats| == |zones|
    requires forall k :: 0 <= k < |zones| ==> stats[k].zone == zones[k]
    ensures |updated| == |stats|
    ensures forall k :: 0 <= k < |stats| ==> updated[k].zone == zones[k]
    ensures forall k: nat :: k < |stats| ==>
      updated[k].shots == stats[k].shots + (if FirstInside(zones, shot, vertical) == Some(k) then 1 else 0)
      && updated[k].xG == stats[k].xG + (if FirstInside(zones, shot, vertical) == Some(k) then shot.xG else 0.0)
  {
    var (a, b) := TestPoint(shot, vertical);
    updated := stats;
    var j := 0;
    while j < |updated|
      invariant 0 <= j <= |updated| && updated == stats
      invariant FirstInside(zones, shot, vertical) == FirstInsideFrom(zones, a, b, j)
    {
      if IsInsideZone(a, b, updated[j].zone) {
        updated := updated[j := updated[j].(shots := updated[j].shots + 1, xG := updated[j].xG + shot.xG)];
        return;
      }
      j := j + 1;
    }
  }

  lemma AssignmentStep(zones: seq<LegacyZone>, shots: seq<ShotRecord>, vertical: bool, s: nat)
    requires s < |shots|
    ensures forall k: nat ::
      Count(Assignment(zones, shots[..s + 1], vertical), k) ==
      Count(Assignment(zones, shots[..s], vertical), k) + (if FirstInside(zones, shots[s], vertical) == Some(k) then 1 else 0)
    ensures forall k: nat ::
      Weight(Assignment(zones, shots[..s + 1], vertical), ShotUtils.XGs(shots[..s + 1]), k) ==
      Weight(Assignment(zones, shots[..s], vertical), ShotUtils.XGs(shots[..s]), k) + (if FirstInside(zones, shots[s], vertical) == Some(k) then shots[s].xG else 0.0)
  {
    var a := Assignment(zones, shots[..s], vertical);
    var o := FirstInside(zones, shots[s], vertical);
    assert Assignment(zones, shots[..s + 1], vertical) == a + [o];
    assert ShotUtils.XGs(shots[..s + 1]) == ShotUtils.XGs(shots[..s]) + [shots[s].xG];
    forall k: nat ensures Count(a + [o], k) == Count(a, k) + (if o == Some(k) then 1 else 0) {
      CountAppend(a, o, k);
    }
    forall k: nat ensures Weight(a + [o], ShotUtils.XGs(shots[..s]) + [shots[s].xG], k) == Weight(a, ShotUtils.XGs(shots[..s]), k) + (if o == Some(k) then shots[s].xG else 0.0) {
      WeightAppend(a, ShotUtils.XGs(shots[..s]), o, shots[s].xG, k);
    }
  }

  /** Some zone of the list holds the shot's test point. */
  predicate InsideSome(zones: seq<LegacyZone>, shot: ShotRecord, vertical: bool) {
    var (a, b) := TestPoint(shot, vertical);
    exists j :: 0 <= j < |zones| && IsInsideZone(a, b, zones[j])
  }

  lemma AssignedIffInside(zones: seq<LegacyZone>, shot: ShotRecord, vertical: bool)
    ensures FirstInside(zones, shot, vertical).Some? <==> InsideSome(zones, shot, vertical)
  {
    var (a, b) := TestPoint(shot, vertical);
    var r := FirstInsideFrom(zones, a, b, 0);
    if r.Some? {
      assert IsInsideZone(a, b, zones[r.value]);
    }
  }

  /** Every shot is counted at most once: the counts add up to at most the number of shots, exactly when every shot is in some zone. */
  lemma ZoneCountsBound(zones: seq<LegacyZone>, stats: seq<ZoneStat>, shots: seq<ShotRecord>, vertical: bool)
    requires |stats| == |zones|
    requires forall i :: 0 <= i < |stats| ==> stats[i].shots == Count(Assignment(zones, shots, vertical), i)
    ensures SumOf(stats, StatShots) <= |shots|
    ensures SumOf(stats, StatShots) == |shots| <==> forall p :: 0 <= p < |shots| ==> InsideSome(zones, shots[p], vertical)
  {
    var a := Assignment(zones, shots, vertical);
    SumOfIsTotal(stats, StatShots, a, |stats|);
    assert stats[..|stats|] == stats;
    TotalBound(a, |zones|);
    forall p | 0 <= p < |shots| ensures a[p].Some? <==> InsideSome(zones, shots[p], vertical) {
      AssignedIffInside(zones, shots[p], vertical);
    }
  }

  // ---------------------------------------------------------------------------
  // The literal table of the attacking half
  // ---------------------------------------------------------------------------

  /** The ten zones of the figure, on Opta coordinates (lateral 0-100, length 50-100). */
  function LiteralZones(): (zones: seq<LegacyZone>)
    ensures |zones| == 10
  {
    [ LegacyZone(100.0, 100.0, 21.0, 17.0, [PitchZones.Bottom]),
      LegacyZone(79.0, 100.0, 15.8, 17.0, []),
      LegacyZone(63.2, 100.0, 26.4, 5.8, []),
      LegacyZone(63.2, 94.2, 26.4, 11.2, [PitchZones.Left, PitchZones.Right]),
      LegacyZone(36.8, 100.0, 15.8, 17.0, []),
      LegacyZone(21.0, 100.0, 21.0, 17.0, [PitchZones.Bottom]),
      LegacyZone(100.0, 83.0, 21.0, 33.0, [PitchZones.Right]),
      LegacyZone(79.0, 83.0, 58.0, 11.0, [PitchZones.Bottom]),
      LegacyZone(79.0, 72.0, 58.0, 22.0, []),
      LegacyZone(21.0, 83.0, 21.0, 33.0, [PitchZones.Left]) ]
  }

  /** The index of the literal zone a test point falls in, read off the table's bands. */
  function LiteralZoneAt(a: real, b: real): (j: nat)
    ensures j < 10
  {
    if b > 83.0 then
      if a > 79.0 then 0
      else if a > 63.2 then 1
      else if a > 36.8 then (if b > 94.2 then 2 else 3)
      else if a > 21.0 then 4
      else 5
    else if a > 79.0 then 6
    else if a > 21.0 then (if b > 72.0 then 7 else 8)
    else 9
  }

  /** The ten zones tile (0, 100] x (50, 100] without overlap: a point is in zone j exactly when it is in that square and j is its band. */
  lemma LiteralZonesPartition(a: real, b: real, j: nat)
    requires j < 10
    ensures IsInsideZone(a, b, LiteralZones()[j]) <==> 0.0 < a <= 100.0 && 50.0 < b <= 100.0 && j == LiteralZoneAt(a, b)
  {
  }

  /** A shot of the attacking half goes to the literal zone its band names. */
  lemma LiteralFirstInside(shot: ShotRecord)
    requires 50.0 < shot.x <= 100.0 && 0.0 < shot.y <= 100.0
    ensures FirstInside(LiteralZones(), shot, true) == Some(LiteralZoneAt(shot.y, shot.x))
  {
    var zones := LiteralZones();
    var j := LiteralZoneAt(shot.y, shot.x);
    forall k | 0 <= k < 10 ensures IsInsideZone(shot.y, shot.x, zones[k]) <==> k == j {
      LiteralZonesPartition(shot.y, shot.x, k);
    }
    FirstInsideIsFirst(zones, shot.y, shot.x, j);
  }

  /**
    On a vertical pitch every shot of the attacking half, 50 < X <= 100 and
    0 < Y <= 100, is counted, in the zone its band names, so the counts add
    up to the number of shots.
   */
  lemma AttackingHalfCounted(stats: seq<ZoneStat>, shots: seq<ShotRecord>)
    requires forall p :: 0 <= p < |shots| ==> 50.0 < shots[p].x <= 100.0 && 0.0 < shots[p].y <= 100.0
    requires |stats| == 10
    requires forall i :: 0 <= i < 10 ==> stats[i].shots == Count(Assignment(LiteralZones(), shots, true), i)
    ensures SumOf(stats, StatShots) == |shots|
  {
    forall p | 0 <= p < |shots| ensures InsideSome(LiteralZones(), shots[p], true) {
      LiteralFirstInside(shots[p]);
      AssignedIffInside(LiteralZones(), shots[p], true);
    }
    ZoneCountsBound(LiteralZones(), stats, shots, true);
  }

  /** A shot on the halfway line or the left touchline is in no literal zone. */
  lemma LowerEdgesOutside(shot: ShotRecord)
    requires shot.x == 50.0 || shot.y == 0.0
    ensures FirstInside(LiteralZones(), shot, true) == None
  {
    forall k | 0 <= k < 10 ensures !IsInsideZone(shot.y, shot.x, LiteralZones()[k]) {
      LiteralZonesPartition(shot.y, shot.x, k);
    }
  }

  // ---------------------------------------------------------------------------
  // draw_zones: ranking and palette
  // ---------------------------------------------------------------------------

  function StatShots(s: ZoneStat): nat { s.shots }

  /** The fill of one zone: the palette index (its rank) and its share of all shots, in percent. */
  datatype LegacyFill = LegacyFill(zone: LegacyZone, colour: nat, percentage: real)

  datatype DrawError = DivisionByZero | PaletteIndexOutOfRange(index: nat)

  /** `zone["shots"] * 100 / total`. */
  function Share(shots: nat, total: nat): real
    requires total > 0
  {
    shots as real * 100.0 / total as real
  }

  /** Fills from rank `index` onwards of the sorted list; zones without shots are skipped. */
  function PlanFrom(sorted: seq<ZoneStat>, index: nat, total: nat, paletteSize: nat): Result<seq<LegacyFill>, DrawError>
    requires index <= |sorted|
    decreases |sorted| - index
  {
    if index == |sorted| then Success([])
    else if sorted[index].shots == 0 then PlanFrom(sorted, index + 1, total, paletteSize)
    else if total == 0 then Failure(DivisionByZero)
    else if index >= paletteSize then Failure(PaletteIndexOutOfRange(index))
    else Prepend([LegacyFill(sorted[index].zone, index, Share(sorted[index].shots, total))],
                 PlanFrom(sorted, index + 1, total, paletteSize))
  }

  function Prepend(fills: seq<LegacyFill>, r: Result<seq<LegacyFill>, DrawError>): Result<seq<LegacyFill>, DrawError> {
    match r
    case Success(rest) => Success(fills + rest)
    case Failure(e) => Failure(e)
  }

  /** What `draw_zones(ax, zones, total)` draws, or the error that stops it, with a palette of `paletteSize` colours. */
  function DrawPlan(stats: seq<ZoneStat>, total: nat, paletteSize: nat): Result<seq<LegacyFill>, DrawError> {
    PlanFrom(Ranking.SortDesc(stats, StatShots), 0, total, paletteSize)
  }

  /** The loop of `draw_zones` over the zones sorted by shots, most first. */
  method DrawZones(stats: seq<ZoneStat>, total: nat, paletteSize: nat) returns (r: Result<seq<LegacyFill>, DrawError>)
    ensures r == DrawPlan(stats, total, paletteSize)
  {
    var sorted := Ranking.SortDesc(stats, StatShots);
    var fills: seq<LegacyFill> := [];
    var index := 0;
    PrependNothing(PlanFrom(sorted, 0, total, paletteSize));
    while index < |sorted|
      invariant 0 <= index <= |sorted|
      invariant DrawPlan(stats, total, paletteSize) == Prepend(fills, PlanFrom(sorted, index, total, paletteSize))
    {
      var zone := sorted[index];
      if zone.shots > 0 {
        if total == 0 {
          return Failure(DivisionByZero);
        }
        var averageShots := zone.shots as real * 100.0 / total as real;
        if index >= paletteSize {
          return Failure(PaletteIndexOutOfRange(index));
        }
        PrependAssoc(fills, [LegacyFill(zone.zone, index, averageShots)], PlanFrom(sorted, index + 1, total, paletteSize));
        fills := fills + [LegacyFill(zone.zone, index, averageShots)];
      }
      index := index + 1;
    }
    assert fills + [] == fills;
    r := Success(fills);
  }

  lemma PrependNothing(r: Result<seq<LegacyFill>, DrawError>)
    ensures Prepend([], r) == r
  {
    if r.Success? {
      assert [] + r.value == r.value;
    }
  }

  lemma PrependAssoc(f: seq<LegacyFill>, g: seq<LegacyFill>, r: Result<seq<LegacyFill>, DrawError>)
    ensures Prepend(f, Prepend(g, r)) == Prepend(f + g, r)
  {
    if r.Success? {
      assert f + (g + r.value) == (f + g) + r.value;
    }
  }

  /** Number of zones with shots. */
  function NonEmpty(stats: seq<ZoneStat>): nat {
    |Ranking.Positive(stats, StatShots)|
  }

  /**
    The plan from rank `index` on a list whose first `m` entries, and only
    those, have shots: it fails exactly when a fill is due and there is no
    shot total or no colour for its rank.
   */
  lemma {:induction false} PlanFromSpec(sorted: seq<ZoneStat>, index: nat, total: nat, paletteSize: nat, m: nat)
    requires index <= |sorted| && m <= |sorted|
    requires forall k :: 0 <= k < |sorted| ==> (sorted[k].shots > 0 <==> k < m)
    ensures var r := PlanFrom(sorted, index, total, paletteSize);
      && (r.Success? <==> index >= m || (total > 0 && m <= paletteSize))
      && (r.Failure? ==> r.error == if total == 0 then DivisionByZero else PaletteIndexOutOfRange(if index >= paletteSize then index else paletteSize))
      && (r.Success? ==> |r.value| == (if index >= m then 0 else m - index))
      && (r.Success? ==> forall k :: 0 <= k < |r.value| ==>
            r.value[k] == LegacyFill(sorted[index + k].zone, index + k, Share(sorted[index + k].shots, total)))
    decreases |sorted| - index
  {
    if index < |sorted| {
      PlanFromSpec(sorted, index + 1, total, paletteSize, m);
      if index >= m {
        assert sorted[index].shots == 0;
      }
    }
  }

  /**
    `draw_zones` fills the zones with shots, ranked by shots (ties in list
    order), rank k with palette colour k and label shots * 100 / total. It
    fails with a division by zero when some zone has shots and the total is
    zero, and with an index error when more zones have shots than the
    palette has colours.
   */
  lemma DrawPlanSpec(stats: seq<ZoneStat>, total: nat, paletteSize: nat)
    ensures var r := DrawPlan(stats, total, paletteSize);
      var m := NonEmpty(stats);
      var ranked := Ranking.SortDesc(stats, StatShots);
      && m <= |ranked|
      && (r.Success? <==> m == 0 || (total > 0 && m <= paletteSize))
      && (r.Failure? ==> r.error == if total == 0 then DivisionByZero else PaletteIndexOutOfRange(paletteSize))
      && (r.Success? ==> |r.value| == m && forall k :: 0 <= k < m ==>
            r.value[k] == LegacyFill(ranked[k].zone, k, Share(ranked[k].shots, total)) && ranked[k].shots > 0)
  {
    Ranking.SortedPositivePrefix(stats, StatShots);
    PlanFromSpec(Ranking.SortDesc(stats, StatShots), 0, total, paletteSize, NonEmpty(stats));
  }

  /** Six zones with shots, as the table allows. */
  function SixFilledZones(): seq<ZoneStat> {
    var z := LiteralZones();
    [ZoneStat(z[0], 6, 0.6), ZoneStat(z[1], 5, 0.5), ZoneStat(z[2], 4, 0.4),
     ZoneStat(z[3], 3, 0.3), ZoneStat(z[4], 2, 0.2), ZoneStat(z[5], 1, 0.1),
     ZoneStat(z[6], 0, 0.0), ZoneStat(z[7], 0, 0.0), ZoneStat(z[8], 0, 0.0), ZoneStat(z[9], 0, 0.0)]
  }

  /** Six of the ten zones have shots. */
  lemma SixFilledZonesNonEmpty()
    ensures NonEmpty(SixFilledZones()) == 6
  {
    var s := SixFilledZones();
    assert forall i :: 0 <= i < |s| ==> (s[i].shots > 0 <==> i < 6);
    Ranking.PositiveCountOfPrefix(s, StatShots, 6);
  }

  /** With the five-colour palette, six non-empty zones of the ten make rank 5 index past the palette. */
  lemma PaletteOverflow()
    ensures DrawPlan(SixFilledZones(), 21, 5) == Failure(PaletteIndexOutOfRange(5))
  {
    SixFilledZonesNonEmpty();
    DrawPlanSpec(SixFilledZones(), 21, 5);
  }

  /** A fill coloured by its rank's fraction of a continuous colour map instead of a palette entry. */
  datatype GradedFill = GradedFill(zone: LegacyZone, fraction: real, percentage: real)

  /** The ranked zones with the fraction of their rank and their share of the total. */
  function GradedFills(ranked: seq<ZoneStat>, total: nat): (fills: seq<GradedFill>)
    requires total > 0
    ensures |fills| == |ranked|
    ensures forall k :: 0 <= k < |ranked| ==>
      fills[k] == GradedFill(ranked[k].zone, ShotZone.ColourFraction(k, |ranked|), Share(ranked[k].shots, total))
  {
    seq(|ranked|, k requires 0 <= k < |ranked| =>
      GradedFill(ranked[k].zone, ShotZone.ColourFraction(k, |ranked|), Share(ranked[k].shots, total)))
  }

  /**
    The fills with the colour chosen as the newer figure does, by the
    fraction (rank + 1) / count: any number of non-empty zones can be drawn,
    and only a zero shot total with shots in some zone fails.
   */
  function GradedPlan(stats: seq<ZoneStat>, total: nat): (r: Result<seq<GradedFill>, DrawError>)
    ensures r.Failure? <==> NonEmpty(stats) > 0 && total == 0
    ensures r.Failure? ==> r.error == DivisionByZero
    ensures r.Success? ==> |r.value| == NonEmpty(stats)
    ensures r.Success? ==> forall k :: 0 <= k < |r.value| ==>
      && r.value[k].zone == Ranking.RankedPositive(stats, StatShots)[k].zone
      && 0.0 < r.value[k].fraction <= 1.0
      && r.value[k].fraction == ShotZone.ColourFraction(k, |r.value|)
  {
    var ranked := Ranking.RankedPositive(stats, StatShots);
    Ranking.RankedPositiveSize(stats, StatShots);
    if |ranked| == 0 then Success([])
    else if total == 0 then Failure(DivisionByZero)
    else Success(GradedFills(ranked, total))
  }

  /** Ranks further down, with fewer shots, are painted with strictly larger fractions. */
  lemma GradedPlanIncreasing(stats: seq<ZoneStat>, total: nat, i: nat, j: nat)
    requires GradedPlan(stats, total).Success? && i < j < |GradedPlan(stats, total).value|
    ensures GradedPlan(stats, total).value[i].fraction < GradedPlan(stats, total).value[j].fraction
  {
    ShotZone.ColourFractionIncreases(i, j, |GradedPlan(stats, total).value|);
  }

  /**
    Whenever more zones have shots than the palette has colours, the palette
    plan stops at the first rank past the palette, while the graded plan
    draws every non-empty zone.
   */
  lemma GradedPlanOnOverflow(stats: seq<ZoneStat>, total: nat, paletteSize: nat)
    requires total > 0 && NonEmpty(stats) > paletteSize
    ensures DrawPlan(stats, total, paletteSize) == Failure(PaletteIndexOutOfRange(paletteSize))
    ensures GradedPlan(stats, total).Success? && |GradedPlan(stats, total).value| == NonEmpty(stats)
  {
    DrawPlanSpec(stats, total, paletteSize);
  }
}
