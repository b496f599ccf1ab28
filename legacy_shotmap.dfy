/**
  The helpers of football_shotmap/shotmap.py. They are copies of the ones in
  src/utils.py (the shot preparation is named `prepare_date` there), so each
  is defined by the shared model and states the same guarantees.
 */
module LegacyShotmap {
  import opened Wrappers
  import opened ShotUtils

  /** `get_season_label(year)`: the year, one slash, then year mod 100 plus one. */
  function GetSeasonLabel(year: nat): (r: string)
    ensures r == SeasonLabel(year)
    ensures var k := |DecimalString(year)|;
      && k < |r| && r[k] == '/'
      && IsDigits(r[..k]) && IsDigits(r[k + 1..])
      && DecimalValue(r[..k]) == year && DecimalValue(r[k + 1..]) == year % 100 + 1
      && r[k + 1] != '0'
  {
    SeasonLabelParts(year);
    SeasonLabel(year)
  }

  /** `prepare_date(data)`: same record count, X and Y times 100, xG and result kept; no records, no columns. */
  function PrepareDate(data: seq<ShotRecord>): (r: Result<seq<ShotRecord>, FrameError>)
    ensures r == PrepareShotData(data)
    ensures r.Failure? <==> |data| == 0
    ensures r.Success? ==> |r.value| == |data| && forall i :: 0 <= i < |data| ==>
      r.value[i] == data[i].(x := data[i].x * 100.0, y := data[i].y * 100.0)
  {
    PrepareShotData(data)
  }

  /** `calculate_stats(df)`: the statistics of `calculate_shots_stats`. */
  function CalculateStats(df: seq<ShotRecord>): (r: ShotStats)
    ensures r == CalculateShotsStats(df)
    ensures r.totalShots == |df| && r.totalXG == SumXG(df)
    ensures r.totalGoals == |GoalPositions(df)| && r.totalGoals <= r.totalShots
    ensures |df| > 0 ==> r.xGPerShot == Some(r.totalXG / |df| as real)
    ensures |df| > 0 ==> r.pointsAverageDistance == Some(SumX(df) / |df| as real)
    ensures |df| > 0 ==> r.actualAverageDistance == Some(AveragePitchSize - SumX(df) / |df| as real * AveragePitchSize / 100.0)
  {
    CalculateShotsStats(df)
  }
}
