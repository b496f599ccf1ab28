/**
  Per-zone shot aggregation of src/shotzone.py: `calculate_zones_stats`
  rewrites the `values` of every zone of a `Zones` object in place, and the
  figure fills the zones that received shots, most shots first.
 */
module ShotZone {
  import opened Wrappers
  import opened PitchZones
  import opened Tally
  import Ranking
  import ShotUtils

  type ShotRecord = ShotUtils.ShotRecord

  /** Index of the first zone at or after `from` whose `is_inside` holds for the point. */
  function FirstInsideFrom(zones: seq<Zone>, px: real, py: real, vertical: bool, from: nat): (r: Option<nat>)
    requires from <= |zones|
    ensures r.Some? ==> from <= r.value < |zones| && IsInside(zones[r.value], px, py, vertical)
    ensures r.Some? ==> forall k :: from <= k < r.value ==> !IsInside(zones[k], px, py, vertical)
    ensures r.None? ==> forall k :: from <= k < |zones| ==> !IsInside(zones[k], px, py, vertical)
    decreases |zones| - from
  {
    if from == |zones| then None
    else if IsInside(zones[from], px, py, vertical) then Some(from)
    else FirstInsideFrom(zones, px, py, vertical, from + 1)
  }

  /** The zone a shot is counted in: the first one in list order that holds it, if any. */
  function FirstInside(zones: seq<Zone>, shot: ShotRecord, vertical: bool): Option<nat> {
    FirstInsideFrom(zones, shot.x, shot.y, vertical, 0)
  }

  /** The first matching zone is the unique zone that holds the point and follows no zone that does. */
  lemma FirstInsideIsFirst(zones: seq<Zone>, shot: ShotRecord, vertical: bool, j: nat)
    requires j < |zones|
    ensures FirstInside(zones, shot, vertical) == Some(j) <==>
      IsInside(zones[j], shot.x, shot.y, vertical) && forall k :: 0 <= k < j ==> !IsInside(zones[k], shot.x, shot.y, vertical)
  {
  }

  /** Which zone, if any, each shot is counted in. */
  function Assignment(zones: seq<Zone>, shots: seq<ShotRecord>, vertical: bool): (a: seq<Option<nat>>)
    ensures |a| == |shots|
    ensures forall p :: 0 <= p < |a| && a[p].Some? ==> a[p].value < |zones|
  {
    seq(|shots|, p requires 0 <= p < |shots| => FirstInside(zones, shots[p], vertical))
  }

  /** Two zones with the same rectangle and borders, whatever their values. */
  predicate SameGeometry(z: Zone, w: Zone) {
    z.x == w.x && z.y == w.y && z.width == w.width && z.height == w.height && z.draw == w.draw
  }

  /** The shots counted in zone `i`, and their xG, according to the zones' geometry. */
  function ZoneShots(zones: seq<Zone>, shots: seq<ShotRecord>, vertical: bool, i: nat): nat {
    Count(Assignment(zones, shots, vertical), i)
  }

  function ZoneXG(zones: seq<Zone>, shots: seq<ShotRecord>, vertical: bool, i: nat): real {
    Weight(Assignment(zones, shots, vertical), ShotUtils.XGs(shots), i)
  }

  function Percentage(shots: nat, total: nat): real
    requires total > 0
  {
    shots as real * 100.0 / total as real
  }

  /**
    `calculate_zones_stats(df, zones, vertical)`. Every zone keeps its
    rectangle, borders and place in the list; its shot count and xG are reset
    and recomputed from `shots` alone, each shot going to the first zone that
    holds it. Then every zone's percentage is its share of all shots. With no
    shots the percentage pass divides by zero on the first zone: `failed` is
    set and no percentage is written.
   */
  method CalculateZonesStats(shots: seq<ShotRecord>, zs: Zones, vertical: bool) returns (failed: bool)
    modifies zs
    ensures |zs.zones| == |old(zs.zones)|
    ensures forall i :: 0 <= i < |zs.zones| ==> SameGeometry(zs.zones[i], old(zs.zones)[i])
    ensures forall i: nat :: i < |zs.zones| ==>
      zs.zones[i].values.shots == ZoneShots(old(zs.zones), shots, vertical, i)
      && zs.zones[i].values.xG == ZoneXG(old(zs.zones), shots, vertical, i)
    ensures failed <==> |shots| == 0 && |zs.zones| > 0
    ensures forall i :: 0 <= i < |zs.zones| ==>
      zs.zones[i].values.percentage ==
        if |shots| > 0 then Some(Percentage(zs.zones[i].values.shots, |shots|)) else old(zs.zones)[i].values.percentage
  {
    ghost var original := zs.zones;
    ResetValues(zs);
    var s := 0;
    while s < |shots|
      invariant 0 <= s <= |shots| && |zs.zones| == |original|
      invariant forall k :: 0 <= k < |original| ==> SameGeometry(zs.zones[k], original[k])
      invariant forall k :: 0 <= k < |original| ==> zs.zones[k].values.percentage == original[k].values.percentage
      invariant forall k: nat :: k < |original| ==>
        zs.zones[k].values.shots == ZoneShots(original, shots[..s], vertical, k)
        && zs.zones[k].values.xG == ZoneXG(original, shots[..s], vertical, k)
    {
      SameGeometryFirstInside(zs.zones, original, shots[s].x, shots[s].y, vertical, 0);
      AddShot(zs, shots[s], vertical);
      AssignmentStep(original, shots, vertical, s);
      s := s + 1;
    }
    assert shots[..|shots|] == shots;
    failed := FillPercentages(zs, |shots|);
  }

  /** First pass: every zone's shot count and xG back to zero. */
  method ResetValues(zs: Zones)
    modifies zs
    ensures |zs.zones| == |old(zs.zones)|
    ensures forall k :: 0 <= k < |zs.zones| ==>
      SameGeometry(zs.zones[k], old(zs.zones)[k]) && zs.zones[k].values == old(zs.zones)[k].values.(shots := 0, xG := 0.0)
  {
    var i := 0;
    while i < |zs.zones|
      invariant 0 <= i <= |zs.zones| == |old(zs.zones)|
      invariant forall k :: 0 <= k < |zs.zones| ==> SameGeometry(zs.zones[k], old(zs.zones)[k])
      invariant forall k :: 0 <= k < i ==> zs.zones[k].values == old(zs.zones)[k].values.(shots := 0, xG := 0.0)
      invariant forall k :: i <= k < |zs.zones| ==> zs.zones[k] == old(zs.zones)[k]
    {
      zs.zones := zs.zones[i := zs.zones[i].(values := zs.zones[i].values.(shots := 0, xG := 0.0))];
      i := i + 1;
    }
  }

  /** Inner loop: the shot goes to the first zone that holds it, and to no other. */
  method AddShot(zs: Zones, shot: ShotRecord, vertical: bool)
    modifies zs
    ensures |zs.zones| == |old(zs.zones)|
    ensures forall k :: 0 <= k < |zs.zones| ==>
      SameGeometry(zs.zones[k], old(zs.zones)[k]) && zs.zones[k].values.percentage == old(zs.zones)[k].values.percentage
    ensures forall k: nat :: k < |zs.zones| ==>
      zs.zones[k].values.shots == old(zs.zones)[k].values.shots + (if FirstInside(old(zs.zones), shot, vertical) == Some(k) then 1 else 0)
      && zs.zones[k].values.xG == old(zs.zones)[k].values.xG + (if FirstInside(old(zs.zones), shot, vertical) == Some(k) then shot.xG else 0.0)
  {
    var j := 0;
    while j < |zs.zones|
      invariant 0 <= j <= |zs.zones|
      invariant zs.zones == old(zs.zones)
      invariant FirstInside(zs.zones, shot, vertical) == FirstInsideFrom(zs.zones, shot.x, shot.y, vertical, j)
    {
      if IsInside(zs.zones[j], shot.x, shot.y, vertical) {
        var v := zs.zones[j].values;
        zs.zones := zs.zones[j := zs.zones[j].(values := v.(shots := v.shots + 1, xG := v.xG + shot.xG))];
        return;
      }
      j := j + 1;
    }
  }

  /** Last pass: each zone's share of all shots, in percent; no shots means a division by zero. */
  method FillPercentages(zs: Zones, total: nat) returns (failed: bool)
    modifies zs
    ensures |zs.zones| == |old(zs.zones)|
    ensures failed <==> total == 0 && |zs.zones| > 0
    ensures forall k :: 0 <= k < |zs.zones| ==>
      SameGeometry(zs.zones[k], old(zs.zones)[k])
      && zs.zones[k].values.shots == old(zs.zones)[k].values.shots
      && zs.zones[k].values.xG == old(zs.zones)[k].values.xG
      && zs.zones[k].values.percentage ==
        (if total > 0 then Some(Percentage(zs.zones[k].values.shots, total)) else old(zs.zones)[k].values.percentage)
  {
    failed := false;
    var i := 0;
    while i < |zs.zones|
      invariant 0 <= i <= |zs.zones| == |old(zs.zones)|
      invariant total == 0 ==> i == 0
      invariant forall k :: 0 <= k < i ==> zs.zones[k] == old(zs.zones)[k].(values := old(zs.zones)[k].values.(percentage := Some(Percentage(old(zs.zones)[k].values.shots, total))))
      invariant forall k :: i <= k < |zs.zones| ==> zs.zones[k] == old(zs.zones)[k]
    {
      if total == 0 {
        failed := true;
        return;
      }
      var v := zs.zones[i].values;
      zs.zones := zs.zones[i := zs.zones[i].(values := v.(percentage := Some(v.shots as real * 100.0 / total as real)))];
      i := i + 1;
    }
  }

  /** Zone membership looks at the rectangle only, so the values do not change which zone is first. */
  lemma {:induction false} SameGeometryFirstInside(zones: seq<Zone>, other: seq<Zone>, px: real, py: real, vertical: bool, from: nat)
    requires |zones| == |other| && from <= |zones|
    requires forall k :: 0 <= k < |zones| ==> SameGeometry(zones[k], other[k])
    ensures FirstInsideFrom(zones, px, py, vertical, from) == FirstInsideFrom(other, px, py, vertical, from)
    decreases |zones| - from
  {
    if from < |zones| {
      SameGeometryFirstInside(zones, other, px, py, vertical, from + 1);
    }
  }

  /** Processing one more shot adds it to its own zone only. */
  lemma AssignmentStep(zones: seq<Zone>, shots: seq<ShotRecord>, vertical: bool, s: nat)
    requires s < |shots|
    ensures forall k: nat ::
      ZoneShots(zones, shots[..s + 1], vertical, k) ==
      ZoneShots(zones, shots[..s], vertical, k) + (if FirstInside(zones, shots[s], vertical) == Some(k) then 1 else 0)
    ensures forall k: nat ::
      ZoneXG(zones, shots[..s + 1], vertical, k) ==
      ZoneXG(zones, shots[..s], vertical, k) + (if FirstInside(zones, shots[s], vertical) == Some(k) then shots[s].xG else 0.0)
  {
    var a := Assignment(zones, shots[..s], vertical);
    var o := FirstInside(zones, shots[s], vertical);
    assert Assignment(zones, shots[..s + 1], vertical) == a + [o];
    assert ShotUtils.XGs(shots[..s + 1]) == ShotUtils.XGs(shots[..s]) + [shots[s].xG];
    forall k: nat ensures ZoneShots(zones, shots[..s + 1], vertical, k) == Count(a, k) + (if o == Some(k) then 1 else 0) {
      CountAppend(a, o, k);
    }
    forall k: nat ensures ZoneXG(zones, shots[..s + 1], vertical, k) == Weight(a, ShotUtils.XGs(shots[..s]), k) + (if o == Some(k) then shots[s].xG else 0.0) {
      WeightAppend(a, ShotUtils.XGs(shots[..s]), o, shots[s].xG, k);
    }
  }

  // ---------------------------------------------------------------------------
  // Properties of the aggregation
  // ---------------------------------------------------------------------------

  /**
    After the call the zone counts add up to at most the number of shots (a
    shot inside no zone is in none of them), and to exactly that number when
    every shot is inside some zone.
   */
  lemma ZoneCountsBound(zones: seq<Zone>, result: seq<Zone>, shots: seq<ShotRecord>, vertical: bool)
    requires |result| == |zones|
    requires forall i :: 0 <= i < |result| ==> result[i].values.shots == ZoneShots(zones, shots, vertical, i)
    ensures SumOf(result, ShotsOf) <= |shots|
    ensures SumOf(result, ShotsOf) == |shots| <==>
      forall p :: 0 <= p < |shots| ==> exists j :: 0 <= j < |zones| && IsInside(zones[j], shots[p].x, shots[p].y, vertical)
  {
    var a := Assignment(zones, shots, vertical);
    SumOfIsTotal(result, ShotsOf, a, |result|);
    assert result[..|result|] == result;
    TotalBound(a, |zones|);
    forall p | 0 <= p < |shots|
      ensures a[p].Some? <==> exists j :: 0 <= j < |zones| && IsInside(zones[j], shots[p].x, shots[p].y, vertical)
    {
      if a[p].Some? {
        assert IsInside(zones[a[p].value], shots[p].x, shots[p].y, vertical);
      }
    }
  }

  /**
    On the default zones with centred boxes and a vertical pitch, each shot
    of [0, length) x [0, width) is counted in the zone `ZoneIndex` names, so
    the zone counts add up to the number of shots.
   */
  lemma DefaultZonesCountEveryShot(d: Dims, result: seq<Zone>, shots: seq<ShotRecord>)
    requires Centred(d)
    requires forall p :: 0 <= p < |shots| ==> 0.0 <= shots[p].x < d.length && 0.0 <= shots[p].y < d.width
    requires |result| == 42
    requires forall i :: 0 <= i < 42 ==> result[i].values.shots == ZoneShots(DefaultZones(d), shots, true, i)
    ensures forall p :: 0 <= p < |shots| ==>
      FirstInside(DefaultZones(d), shots[p], true) == Some(ZoneIndex(d, shots[p].x, shots[p].y))
    ensures SumOf(result, ShotsOf) == |shots|
  {
    var zones := DefaultZones(d);
    forall p | 0 <= p < |shots|
      ensures FirstInside(zones, shots[p], true) == Some(ZoneIndex(d, shots[p].x, shots[p].y))
      ensures exists j :: 0 <= j < |zones| && IsInside(zones[j], shots[p].x, shots[p].y, true)
    {
      var j := ZoneIndex(d, shots[p].x, shots[p].y);
      DefaultZonesPartition(d, shots[p].x, shots[p].y, j);
      forall k | 0 <= k < j ensures !IsInside(zones[k], shots[p].x, shots[p].y, true) {
        DefaultZonesPartition(d, shots[p].x, shots[p].y, k);
      }
      FirstInsideIsFirst(zones, shots[p], true, j);
    }
    ZoneCountsBound(zones, result, shots, true);
  }

  // ---------------------------------------------------------------------------
  // Zones to fill
  // ---------------------------------------------------------------------------

  function ShotsOf(z: Zone): nat { z.values.shots }

  /**
    The zones the figure fills (line 69): the zones with shots, most shots
    first, zones with equal counts in list order.
   */
  function ZonesToFill(zones: seq<Zone>): (r: seq<Zone>)
    ensures forall i :: 0 <= i < |r| ==> r[i].values.shots > 0
    ensures forall i, j :: 0 <= i < j < |r| ==> r[i].values.shots >= r[j].values.shots
    ensures multiset(r) == multiset(Ranking.Positive(zones, ShotsOf))
    ensures forall k :: k > 0 ==> Ranking.WithKey(r, ShotsOf, k) == Ranking.WithKey(zones, ShotsOf, k)
  {
    Ranking.RankedPositive(zones, ShotsOf)
  }

  /** A zone is filled exactly when it has shots. */
  lemma ZonesToFillMembers(zones: seq<Zone>, z: Zone)
    ensures z in ZonesToFill(zones) <==> z in zones && z.values.shots > 0
  {
    Ranking.PositiveMultiset(zones, ShotsOf, z);
    assert z in ZonesToFill(zones) <==> z in multiset(ZonesToFill(zones));
  }

  /** Colour of the fill of rank `index` among `count` zones: `(index + 1) / count`. */
  function ColourFraction(index: nat, count: nat): (f: real)
    requires index < count
    ensures 0.0 < f <= 1.0
  {
    (index as real + 1.0) / count as real
  }

  /** One fill of the figure: the zone and the colour-map fraction it is painted with. */
  datatype Fill = Fill(zone: Zone, fraction: real)

  /** Lines 69-72: the zones to fill, each with the colour fraction of its rank. */
  function FillPlan(zones: seq<Zone>): (fills: seq<Fill>)
    ensures |fills| == |ZonesToFill(zones)|
    ensures forall i :: 0 <= i < |fills| ==> fills[i].zone == ZonesToFill(zones)[i]
    ensures forall i :: 0 <= i < |fills| ==> fills[i].fraction == ColourFraction(i, |fills|)
  {
    var ranked := ZonesToFill(zones);
    seq(|ranked|, i requires 0 <= i < |ranked| => Fill(ranked[i], ColourFraction(i, |ranked|)))
  }

  /** A later rank (fewer shots) gets a strictly larger fraction, and the last rank gets 1. */
  lemma ColourFractionIncreases(i: nat, j: nat, count: nat)
    requires i < j < count
    ensures ColourFraction(i, count) < ColourFraction(j, count)
    ensures ColourFraction(count - 1, count) == 1.0
  {
    var n := count as real;
    assert ColourFraction(j, count) - ColourFraction(i, count) == (j as real - i as real) / n;
  }
}
