/**
  Shot normalisation and per-player shot statistics (src/utils.py).

  A shot record has numeric coordinates (fractions of the pitch as the provider
  sends them, or 0..100 after normalisation), an xG value and a result label.
  A data frame is a sequence of such records, one per row, in row order.
 */
module ShotUtils {
  import opened Wrappers

  datatype ShotRecord = ShotRecord(x: real, y: real, xG: real, result: string)

  // ---------------------------------------------------------------------------
  // Season label
  // ---------------------------------------------------------------------------

  predicate IsDigits(s: string) {
    forall i :: 0 <= i < |s| ==> '0' <= s[i] <= '9'
  }

  function DigitChar(n: nat): (c: char)
    requires n < 10
    ensures '0' <= c <= '9' && (c - '0') as nat == n
  {
    (n as int + '0' as int) as char
  }

  /** Decimal rendering of a natural number, without leading zeros. */
  function DecimalString(n: nat): (s: string)
    ensures |s| >= 1 && IsDigits(s)
    ensures n > 0 ==> s[0] != '0'
    decreases n
  {
    if n < 10 then [DigitChar(n)] else DecimalString(n / 10) + [DigitChar(n % 10)]
  }

  /** Value of a string of decimal digits. */
  function DecimalValue(s: string): nat
    requires IsDigits(s)
  {
    if s == [] then 0 else DecimalValue(s[..|s| - 1]) * 10 + (s[|s| - 1] - '0') as nat
  }

  /** Reading back a rendered number gives the number. */
  lemma {:induction false} DecimalRoundTrip(n: nat)
    ensures DecimalValue(DecimalString(n)) == n
    decreases n
  {
    if n >= 10 {
      DecimalRoundTrip(n / 10);
      var s := DecimalString(n);
      assert s[..|s| - 1] == DecimalString(n / 10);
    }
  }

  /** Four-digit years render as four characters. */
  lemma FourDigitYear(year: nat)
    requires 1000 <= year <= 9999
    ensures |DecimalString(year)| == 4
  {
    assert DecimalString(year) == DecimalString(year / 10) + [DigitChar(year % 10)];
    assert DecimalString(year / 10) == DecimalString(year / 100) + [DigitChar(year / 10 % 10)];
    assert DecimalString(year / 100) == DecimalString(year / 1000) + [DigitChar(year / 100 % 10)];
    assert |DecimalString(year / 1000)| == 1;
  }

  /** `f"{year}/{int(year) % 100 + 1}"`: the year, a slash, then year mod 100 plus one, unpadded. */
  function SeasonLabel(year: nat): string {
    DecimalString(year) + "/" + DecimalString(year % 100 + 1)
  }

  /**
    The label has one slash; the digits before it read as the year and the
    digits after it as year mod 100 plus one, with no leading zero.
   */
  lemma SeasonLabelParts(year: nat)
    ensures var r, k := SeasonLabel(year), |DecimalString(year)|;
      && k < |r| && r[k] == '/'
      && IsDigits(r[..k]) && IsDigits(r[k + 1..])
      && DecimalValue(r[..k]) == year
      && DecimalValue(r[k + 1..]) == year % 100 + 1
      && r[k + 1] != '0'
      && (forall j :: 0 <= j < |r| && j != k ==> r[j] != '/')
  {
    var a, b := DecimalString(year), DecimalString(year % 100 + 1);
    var r := SeasonLabel(year);
    var k := |a|;
    assert r[..k] == a && r[k] == '/' && r[k + 1..] == b;
    DecimalRoundTrip(year);
    DecimalRoundTrip(year % 100 + 1);
    forall j | 0 <= j < |r| && j != k ensures r[j] != '/' {
      if j < k {
        assert r[j] == a[j];
      } else {
        assert r[j] == b[j - k - 1];
      }
    }
  }

  /** The season starting in 2024 is labelled "2024/25". */
  lemma SeasonLabel2024()
    ensures SeasonLabel(2024) == "2024/25"
  {
    YearStrings();
    assert 2024 % 100 + 1 == 25;
    assert DecimalString(2) == "2";
    assert DecimalString(25) == "25";
    assert SeasonLabel(2024) == "2024" + "/" + "25";
  }

  /** Years ending in 99 get a three-digit suffix, years ending 00..08 a one-digit one. */
  lemma SeasonLabelUnpadded()
    ensures SeasonLabel(1999) == "1999/100"
    ensures SeasonLabel(2008) == "2008/9"
  {
    YearStrings();
    assert 1999 % 100 + 1 == 100 && 2008 % 100 + 1 == 9;
    assert DecimalString(9) == "9";
    assert DecimalString(10) == "10";
    assert DecimalString(100) == "100";
    assert SeasonLabel(1999) == "1999" + "/" + "100";
    assert SeasonLabel(2008) == "2008" + "/" + "9";
  }

  /** The decimal renderings of the years used in the examples. */
  lemma YearStrings()
    ensures DecimalString(1999) == "1999"
    ensures DecimalString(2008) == "2008"
    ensures DecimalString(2024) == "2024"
  {
    assert DecimalString(19) == "19";
    assert DecimalString(199) == "199";
    assert DecimalString(20) == "20";
    assert DecimalString(200) == "200";
    assert DecimalString(202) == "202";
  }

  /** The label the docstring describes: "YYYY/YY", the second part (year + 1) mod 100 in two digits. */
  function SeasonLabelTwoDigit(year: nat): (r: string)
    ensures 1000 <= year <= 9999 ==>
      |r| == 7 && r[4] == '/' && IsDigits(r[..4]) && IsDigits(r[5..])
      && DecimalValue(r[..4]) == year && DecimalValue(r[5..]) == (year + 1) % 100
  {
    var next := (year + 1) % 100;
    TwoDigitLabelParts(year, next);
    DecimalString(year) + "/" + [DigitChar(next / 10), DigitChar(next % 10)]
  }

  lemma TwoDigitLabelParts(year: nat, next: nat)
    requires next < 100
    ensures var r := DecimalString(year) + "/" + [DigitChar(next / 10), DigitChar(next % 10)];
      1000 <= year <= 9999 ==>
        |r| == 7 && r[4] == '/' && IsDigits(r[..4]) && IsDigits(r[5..])
        && DecimalValue(r[..4]) == year && DecimalValue(r[5..]) == next
  {
    if 1000 <= year <= 9999 {
      var tail := [DigitChar(next / 10), DigitChar(next % 10)];
      var r := DecimalString(year) + "/" + tail;
      FourDigitYear(year);
      DecimalRoundTrip(year);
      assert r[..4] == DecimalString(year);
      assert r[5..] == tail;
      assert tail[..1] == [DigitChar(next / 10)];
      assert DecimalValue(tail[..1]) == next / 10;
    }
  }

  /** A number from 10 to 99 renders as its two digits. */
  lemma TwoDigitString(n: nat)
    requires 10 <= n <= 99
    ensures DecimalString(n) == [DigitChar(n / 10), DigitChar(n % 10)]
  {
    assert DecimalString(n / 10) == [DigitChar(n / 10)];
  }

  lemma HundredString()
    ensures |DecimalString(100)| == 3
  {
    assert DecimalString(100) == DecimalString(10) + [DigitChar(0)];
    assert DecimalString(10) == DecimalString(1) + [DigitChar(0)];
  }

  /** Adding one to a year not ending in 99 adds one to its last two digits. */
  lemma NextYearDigits(year: nat)
    requires year % 100 <= 98
    ensures (year + 1) % 100 == year % 100 + 1
  {
    var q, r := year / 100, year % 100;
    assert year == 100 * q + r;
    assert year + 1 == 100 * q + (r + 1);
  }

  /** The two labels agree exactly when year mod 100 plus one already has two digits. */
  lemma SeasonLabelsAgree(year: nat)
    requires 1000 <= year <= 9999
    ensures SeasonLabel(year) == SeasonLabelTwoDigit(year) <==> 9 <= year % 100 <= 98
  {
    var next := year % 100 + 1;
    var two := (year + 1) % 100;
    var head := DecimalString(year) + "/";
    var tail := [DigitChar(two / 10), DigitChar(two % 10)];
    assert SeasonLabel(year) == head + DecimalString(next);
    assert SeasonLabelTwoDigit(year) == head + tail;
    if 9 <= year % 100 <= 98 {
      NextYearDigits(year);
      TwoDigitString(next);
    } else {
      if next == 100 {
        HundredString();
      }
      assert |DecimalString(next)| != 2;
      assert |SeasonLabel(year)| != |SeasonLabelTwoDigit(year)|;
    }
  }

  lemma SeasonLabelTwoDigitExamples()
    ensures SeasonLabelTwoDigit(1999) == "1999/00"
    ensures SeasonLabelTwoDigit(2008) == "2008/09"
    ensures SeasonLabelTwoDigit(2024) == SeasonLabel(2024)
  {
    YearStrings();
    assert (1999 + 1) % 100 == 0 && (2008 + 1) % 100 == 9;
    SeasonLabelsAgree(2024);
  }

  // ---------------------------------------------------------------------------
  // Normalisation
  // ---------------------------------------------------------------------------

  datatype FrameError = MissingColumns

  /** One row with X and Y multiplied by 100 for the pitch's 0..100 coordinates. */
  function Scaled(s: ShotRecord): ShotRecord {
    s.(x := s.x * 100.0, y := s.y * 100.0)
  }

  /**
    `prepare_shot_data`: build the frame and scale X and Y by 100. A frame built
    from no records has no columns, so the xG/X/Y type conversion fails.
   */
  function PrepareShotData(data: seq<ShotRecord>): (r: Result<seq<ShotRecord>, FrameError>)
    ensures r.Failure? <==> |data| == 0
    ensures r.Success? ==> |r.value| == |data|
    ensures r.Success? ==> forall i :: 0 <= i < |data| ==>
      r.value[i].x == data[i].x * 100.0 && r.value[i].y == data[i].y * 100.0
      && r.value[i].xG == data[i].xG && r.value[i].result == data[i].result
  {
    if |data| == 0 then Failure(MissingColumns)
    else Success(seq(|data|, i requires 0 <= i < |data| => Scaled(data[i])))
  }

  /** Provider coordinates in [0, 1] become pitch coordinates in [0, 100]. */
  lemma PrepareShotDataRange(data: seq<ShotRecord>)
    requires |data| > 0
    requires forall i :: 0 <= i < |data| ==> 0.0 <= data[i].x <= 1.0 && 0.0 <= data[i].y <= 1.0
    ensures PrepareShotData(data).Success?
    ensures forall i :: 0 <= i < |data| ==>
      0.0 <= PrepareShotData(data).value[i].x <= 100.0 && 0.0 <= PrepareShotData(data).value[i].y <= 100.0
  {
  }

  // ---------------------------------------------------------------------------
  // Statistics
  // ---------------------------------------------------------------------------

  /** Real pitch length in metres used for the average distance. */
  const AveragePitchSize: real := 105.0

  /**
    The statistics of one frame. The means are `None` for an empty frame, where
    the source's float division and `mean()` give NaN.
   */
  datatype ShotStats = ShotStats(
    totalShots: nat,
    totalGoals: nat,
    totalXG: real,
    xGPerShot: Option<real>,
    pointsAverageDistance: Option<real>,
    actualAverageDistance: Option<real>)

  /** The positions of the records whose result is "Goal". */
  function GoalPositions(df: seq<ShotRecord>): set<nat> {
    set i: nat | i < |df| && df[i].result == "Goal"
  }

  /** `df[df['result'] == 'Goal'].shape[0]`: the number of records whose result is "Goal". */
  function Goals(df: seq<ShotRecord>): (n: nat)
    ensures n == |GoalPositions(df)|
    ensures n <= |df|
  {
    if df == [] then
      assert GoalPositions(df) == {};
      0
    else
      GoalPositionsStep(df);
      Goals(df[..|df| - 1]) + (if df[|df| - 1].result == "Goal" then 1 else 0)
  }

  /** The goal positions of a frame are those of its prefix, plus the last position when it is a goal. */
  lemma GoalPositionsStep(df: seq<ShotRecord>)
    requires df != []
    ensures GoalPositions(df) == GoalPositions(df[..|df| - 1]) + (if df[|df| - 1].result == "Goal" then {|df| - 1} else {})
    ensures |df| - 1 !in GoalPositions(df[..|df| - 1])
  {
  }

  function SumXG(df: seq<ShotRecord>): real {
    if df == [] then 0.0 else SumXG(df[..|df| - 1]) + df[|df| - 1].xG
  }

  /** The `xG` column of the frame. */
  function XGs(df: seq<ShotRecord>): (w: seq<real>)
    ensures |w| == |df|
  {
    seq(|df|, p requires 0 <= p < |df| => df[p].xG)
  }

  function SumX(df: seq<ShotRecord>): real {
    if df == [] then 0.0 else SumX(df[..|df| - 1]) + df[|df| - 1].x
  }

  /** Sum of the column `X * 105 / 100`. */
  function SumMetres(df: seq<ShotRecord>): real {
    if df == [] then 0.0 else SumMetres(df[..|df| - 1]) + df[|df| - 1].x * AveragePitchSize / 100.0
  }

  function Mean(sum: real, n: nat): Option<real> {
    if n == 0 then None else Some(sum / n as real)
  }

  /** Scaling the column first and summing afterwards is scaling the sum. */
  lemma {:induction false} SumMetresScales(df: seq<ShotRecord>)
    ensures SumMetres(df) == SumX(df) * AveragePitchSize / 100.0
  {
    if df != [] {
      SumMetresScales(df[..|df| - 1]);
    }
  }

  lemma {:induction false} SumXBounds(df: seq<ShotRecord>, lo: real, hi: real)
    requires forall i :: 0 <= i < |df| ==> lo <= df[i].x <= hi
    ensures lo * |df| as real <= SumX(df) <= hi * |df| as real
  {
    if df != [] {
      SumXBounds(df[..|df| - 1], lo, hi);
    }
  }

  /** `calculate_shots_stats` on one frame. */
  function CalculateShotsStats(df: seq<ShotRecord>): (r: ShotStats)
    ensures r.totalShots == |df|
    ensures r.totalGoals == Goals(df) && r.totalGoals == |GoalPositions(df)|
    ensures r.totalGoals <= r.totalShots
    ensures r.totalXG == SumXG(df)
    ensures r.xGPerShot.Some? <==> |df| > 0
    ensures r.xGPerShot.Some? ==> r.xGPerShot.value * |df| as real == r.totalXG
    ensures r.pointsAverageDistance.Some? <==> |df| > 0
    ensures r.pointsAverageDistance.Some? ==> r.pointsAverageDistance.value * |df| as real == SumX(df)
    ensures r.actualAverageDistance.Some? <==> |df| > 0
    ensures r.actualAverageDistance.Some? ==>
      r.actualAverageDistance.value == AveragePitchSize - r.pointsAverageDistance.value * AveragePitchSize / 100.0
  {
    var n := |df|;
    var metres := Mean(SumMetres(df), n);
    SumMetresScales(df);
    if n > 0 then
      MeanOfScaled(SumX(df), n as real);
      ShotStats(n, Goals(df), SumXG(df), Mean(SumXG(df), n), Mean(SumX(df), n), Some(AveragePitchSize - metres.value))
    else
    ShotStats(
      n,
      Goals(df),
      SumXG(df),
      Mean(SumXG(df), n),
      Mean(SumX(df), n),
      None)
  }

  lemma MeanOfScaled(sum: real, n: real)
    requires n > 0.0
    ensures sum * AveragePitchSize / 100.0 / n == sum / n * AveragePitchSize / 100.0
  {
    var m := sum / n;
    assert sum == m * n;
    assert sum * AveragePitchSize / 100.0 == (m * AveragePitchSize / 100.0) * n;
  }

  /** Every X on the 0..100 scale puts the mean X in [0, 100] and the distance in [0, 105] metres. */
  lemma AverageDistanceRange(df: seq<ShotRecord>)
    requires |df| > 0
    requires forall i :: 0 <= i < |df| ==> 0.0 <= df[i].x <= 100.0
    ensures 0.0 <= CalculateShotsStats(df).pointsAverageDistance.value <= 100.0
    ensures 0.0 <= CalculateShotsStats(df).actualAverageDistance.value <= AveragePitchSize
  {
    SumXBounds(df, 0.0, 100.0);
    var n := |df| as real;
    var m := SumX(df) / n;
    assert m * n == SumX(df);
    assert 0.0 <= m <= 100.0;
  }

  /** Ten shots, three of them goals, with xG 0.1, 0.2, 0.05, 0.3, 0.15, 0.6, 0.25, 0.4, 0.12 and 0.08. */
  function TenShots(): seq<ShotRecord> {
    [ ShotRecord(88.0, 50.0, 0.1, "Goal"),
      ShotRecord(80.0, 40.0, 0.2, "SavedShot"),
      ShotRecord(75.0, 30.0, 0.05, "MissedShots"),
      ShotRecord(90.0, 55.0, 0.3, "Goal"),
      ShotRecord(78.0, 62.0, 0.15, "BlockedShot"),
      ShotRecord(94.0, 48.0, 0.6, "Goal"),
      ShotRecord(85.0, 45.0, 0.25, "SavedShot"),
      ShotRecord(89.0, 52.0, 0.4, "MissedShots"),
      ShotRecord(82.0, 70.0, 0.12, "ShotOnPost"),
      ShotRecord(70.0, 35.0, 0.08, "SavedShot") ]
  }

  lemma TenShotExample()
    ensures CalculateShotsStats(TenShots()).totalShots == 10
    ensures CalculateShotsStats(TenShots()).totalGoals == 3
    ensures CalculateShotsStats(TenShots()).totalXG == 2.25
    ensures CalculateShotsStats(TenShots()).xGPerShot == Some(0.225)
  {
    TenShotGoals();
    TenShotXG();
  }

  /** Three of the ten shots are goals, counted prefix by prefix. */
  lemma TenShotGoals()
    ensures Goals(TenShots()) == 3
  {
    var df := TenShots();
    assert df[..1][..0] == df[..0];
    assert Goals(df[..1]) == 1;
    assert df[..2][..1] == df[..1];
    assert Goals(df[..2]) == 1;
    assert df[..3][..2] == df[..2];
    assert Goals(df[..3]) == 1;
    assert df[..4][..3] == df[..3];
    assert Goals(df[..4]) == 2;
    assert df[..5][..4] == df[..4];
    assert Goals(df[..5]) == 2;
    assert df[..6][..5] == df[..5];
    assert Goals(df[..6]) == 3;
    assert df[..7][..6] == df[..6];
    assert Goals(df[..7]) == 3;
    assert df[..8][..7] == df[..7];
    assert Goals(df[..8]) == 3;
    assert df[..9][..8] == df[..8];
    assert Goals(df[..9]) == 3;
    assert df[..10][..9] == df[..9];
    assert Goals(df[..10]) == 3;
    assert df[..10] == df;
  }

  /** The ten shots' expected goals add up to 2.25, summed prefix by prefix. */
  lemma TenShotXG()
    ensures SumXG(TenShots()) == 2.25
  {
    var df := TenShots();
    assert df[..1][..0] == df[..0];
    assert SumXG(df[..1]) == 0.1;
    assert df[..2][..1] == df[..1];
    assert SumXG(df[..2]) == 0.3;
    assert df[..3][..2] == df[..2];
    assert SumXG(df[..3]) == 0.35;
    assert df[..4][..3] == df[..3];
    assert SumXG(df[..4]) == 0.65;
    assert df[..5][..4] == df[..4];
    assert SumXG(df[..5]) == 0.8;
    assert df[..6][..5] == df[..5];
    assert SumXG(df[..6]) == 1.4;
    assert df[..7][..6] == df[..6];
    assert SumXG(df[..7]) == 1.65;
    assert df[..8][..7] == df[..7];
    assert SumXG(df[..8]) == 2.05;
    assert df[..9][..8] == df[..8];
    assert SumXG(df[..9]) == 2.17;
    assert df[..10][..9] == df[..9];
    assert SumXG(df[..10]) == 2.25;
    assert df[..10] == df;
  }
}
