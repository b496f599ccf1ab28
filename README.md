# Football shot zones — a Dafny model

This project models the part of the football-visualizations repository that
puts shots into pitch zones and summarises them. The code around that part
scrapes Understat and draws mplsoccer figures.

- **PitchZones** (`pitch_zones.dfy`, src/zones.py):
  - the `Zone` record and its half-open membership test;
  - the derived pitch constants;
  - the 42 default zones, built by appending in a loop;
  - the `Zones` container;
  - the border segments and fill rectangle computed before each plot call.
- **ShotZone** (`shot_zone.dfy`, src/shotzone.py):
  - `calculate_zones_stats`, which rewrites the zones' values in place in three passes;
  - the choice and ordering of the zones to fill;
  - their colour fraction.
- **LegacyShotZone** (`legacy_shot_zone.dfy`, football_shotmap/shotzone.py). This is the older revision:
  - upper-corner zones with the membership `(x − w, x] × (y − h, y]`;
  - aggregation on a copy of the zone list;
  - the literal ten-zone table;
  - the rank/palette rule of `draw_zones`.
- **ShotUtils** (`shot_utils.dfy`, src/utils.py):
  - the season label;
  - shot normalisation;
  - the shot statistics.
- **LegacyShotmap** (`legacy_shotmap.dfy`, football_shotmap/shotmap.py): the copies of those helpers.
- **Tally** and **Ranking**: support modules.
  - Tally counts and weights an assignment of shots to zone indices.
  - Ranking is Python's stable `sorted(..., reverse=True)` as a stable descending insertion sort, plus the positive-count filter.
- **Wrappers**: `Option` and `Result`.

Numeric conventions:

- Coordinates and xG are exact `real`s, and counts are `nat`s.
- A pandas frame is a sequence of `ShotRecord`s whose fields are already numeric.

Pitch dimensions:

- The pitch dimensions come from `mplsoccer.opta_dims()`. That code is not part of this model.
- They are a parameter `Dims`.
- The tiling and partition results assume the relations of `PitchZones.Centred`:
  - both boxes are centred across the width;
  - `six_yard_bottom = (width − six_yard_width)/2`;
  - `penalty_area_right = length − penalty_area_length`;
  - and the like.

Behaviour at the edges, as the code has it:

- **Points on the far lines.** A point in `[0, length) × [0, width)` lies in exactly one default zone. A point with `x = length` or `y = width` lies in none, because every interval excludes its upper end; in particular the far goal line is in no zone. The model follows the code (`PitchZones.DefaultZonesPartition`, `PitchZones.FarLinesInNoZone`).
- **No records at all.** `prepare_shot_data` builds a frame with no columns, and its `astype` raises `KeyError`. This is modelled as `Failure(MissingColumns)`.
- **Empty frame in the statistics.** `calculate_shots_stats` on an empty frame gives NaN means. These are modelled as `None`.
- **Zero shots in the percentage pass.** `calculate_zones_stats` with zones but no shots divides by zero in its percentage pass. It has already reset and recounted the zones at that point. The model returns `failed` and leaves the percentages as they were. The figure code returns early on empty data, so it never reaches this case.

## Model

| member | source | states |
|---|---|---|
| PitchZones.PitchSideWidth | src/zones.py:12 | definition: (width − penalty_area_width)/2, the strip beside the penalty area |
| PitchZones.PitchSideLength | src/zones.py:13 | definition: length/2 − penalty_area_length, from the penalty area to the halfway line |
| PitchZones.PenaltyAreaSideWidth | src/zones.py:16 | definition: (penalty_area_width − six_yard_width)/2, the penalty-area strip beside the six-yard box |
| PitchZones.PenaltyAreaSideLength | src/zones.py:17 | definition: penalty_area_length − six_yard_length, the penalty area beyond the six-yard box |
| PitchZones.IsInside | src/zones.py:29-35 | definition: on a horizontal pitch the point's coordinates are exchanged, then x ≤ a < x + width and y ≤ b < y + height |
| PitchZones.IsInsideSwap | src/zones.py:32-33 | asking with `vertical` false about (a, b) is asking with `vertical` true about (b, a) |
| PitchZones.IsInsideHalfOpen | src/zones.py:35 | the lower corner of a non-degenerate zone is inside it; no point of its upper x edge or upper y edge is |
| PitchZones.LateralBandsTile | src/zones.py:12-16 | with centred boxes the five lateral bands have positive widths, meet edge to edge and end at the pitch width |
| PitchZones.LongitudinalSegmentsTile | src/zones.py:13-17 | six-yard box plus the strip behind it span the penalty area; six columns of width PITCH_SIDE_LENGTH/3 reach `penalty_area_right`; the back row mirrors the front and ends at the length |
| PitchZones.DefaultZones | src/zones.py:38-70 | the default list has exactly 42 zones |
| PitchZones.MakeDefaultZones | src/zones.py:38-70 | the appends of the three blocks, loop over six columns included, produce exactly the default list (front row, 6 × 5 middle zones, back row) |
| PitchZones.AddFrontRow | src/zones.py:43-48 | the six appends of the first row extend the list by exactly the front row |
| PitchZones.AddColumn | src/zones.py:53-60 | the five appends of loop step i extend the list by exactly column i, with the step's x, width and border choice |
| PitchZones.AddBackRow | src/zones.py:63-68 | the six appends of the last row extend the list by exactly the back row |
| PitchZones.Zones.constructor | src/zones.py:81-83 | a new `Zones` holds the default zone list |
| PitchZones.DefaultZonesLayout | src/zones.py:42-68 | zone j is front-row zone j for j < 6, zone (j−6) mod 5 of column (j−6)/5 for 6 ≤ j < 36, back-row zone j−36 after that |
| PitchZones.MiddleColumnBorders | src/zones.py:54-60 | column i's four inner zones draw top and right, or only top for i ∈ {2, 5}; its outer zone draws right, or nothing for i ∈ {2, 5} |
| PitchZones.DefaultZonesPartition | src/zones.py:35-68 | with centred boxes, default zone j holds (a, b) if and only if the point is in [0, length) × [0, width) and j is its `ZoneIndex`: one zone per point of the pitch, none off it |
| PitchZones.FarLinesInNoZone | src/zones.py:35 | a point with x = length or y = width is in no default zone |
| PitchZones.Side | src/zones.py:98-108 | definition: top runs from (x, y + h) to (x + w, y + h), bottom from (x, y) to (x + w, y), left from (x, y) to (x, y + h), right from (x + w, y) to (x + w, y + h) |
| PitchZones.SideJoinsCorners | src/zones.py:98-108 | every border segment joins two corners of the zone; top and bottom run along x over the width, left and right along y over the height |
| PitchZones.ZoneBorders | src/zones.py:92-108 | no segment for an empty `draw`; exactly one segment per distinct edge named in `draw` (so at most four); a segment for every named edge and only for named edges |
| PitchZones.DrawZoneBorders | src/zones.py:96-108 | the conditional appends build exactly `ZoneBorders(z)` |
| PitchZones.FillRect | src/zones.py:114-122 | definition: the zone's rectangle, with x exchanged with y and width with height on a vertical pitch |
| PitchZones.FillRectMatchesIsInside | src/zones.py:114-122 | the fill rectangle swaps x with y and width with height exactly when the pitch is vertical, and holds the point (b, a) exactly when `is_inside(a, b, vertical)` holds |
| ShotZone.FirstInsideFrom | src/shotzone.py:25-29 | the scan from `from` stops at a zone that holds the point with none before it, or reports none when no zone from `from` on holds it |
| ShotZone.FirstInsideIsFirst | src/shotzone.py:25-29 | a shot is assigned zone j if and only if zone j holds it and no earlier zone does |
| ShotZone.CalculateZonesStats | src/shotzone.py:15-33 | same zone count, geometry and borders; each zone's shots and xG are the count and xG sum of the shots whose first matching zone it is; percentage is shots·100/total when there are shots; `failed` exactly when there are zones but no shots, with percentages unchanged |
| ShotZone.ResetValues | src/shotzone.py:18-20 | every zone's shots and xG become 0, nothing else changes |
| ShotZone.AddShot | src/shotzone.py:25-29 | only the first zone holding the shot gains one shot and its xG, and the scan stops there |
| ShotZone.FillPercentages | src/shotzone.py:31-33 | each zone's percentage becomes shots·100/total; with a zero total, failure before any zone is written |
| ShotZone.SameGeometryFirstInside | src/shotzone.py:26 | membership depends only on the rectangle, so resetting values does not change the first matching zone |
| ShotZone.AssignmentStep | src/shotzone.py:22-29 | one more shot adds one to its own zone's count and its xG to that zone's sum, and changes no other zone |
| ShotZone.ZoneCountsBound | src/shotzone.py:25-29 | the zone counts add up to at most the number of shots, and to exactly that number if and only if every shot is inside some zone |
| ShotZone.DefaultZonesCountEveryShot | src/shotzone.py:22-29 | on the default zones of a vertical pitch, every shot of [0, length) × [0, width) goes to its `ZoneIndex` zone and the counts sum to the number of shots |
| ShotZone.ZonesToFill | src/shotzone.py:69 | the zones to fill all have shots, in non-increasing order of shots; as a multiset they are the zones with shots; zones with equal counts keep list order |
| ShotZone.ZonesToFillMembers | src/shotzone.py:69 | a zone is filled if and only if it is in the list and has shots |
| ShotZone.ColourFraction | src/shotzone.py:72 | `(index + 1)/len` lies in (0, 1] |
| ShotZone.ColourFractionIncreases | src/shotzone.py:72 | later ranks get strictly larger fractions and the last rank gets exactly 1 |
| ShotZone.FillPlan | src/shotzone.py:69-72 | one fill per zone to fill, in rank order, fill i coloured with the fraction of rank i |
| Ranking.SortDesc | src/shotzone.py:69 | the sorted list is a permutation of the input in non-increasing key order |
| Ranking.SortDescStable | src/shotzone.py:69 | elements with the same key appear in the sorted list in their input order |
| Ranking.RankedPositive | src/shotzone.py:69 | filter after sort: positive keys only, non-increasing, the multiset of positive-key elements, stable per key |
| Ranking.PositivePrefix | src/shotzone.py:69 | in a descending list the positive-key elements form a prefix and the rest have key 0 |
| Ranking.SortedPositivePrefix | src/shotzone.py:69 | after the sort, position k has a positive key if and only if k is below the number of positive-key elements |
| Ranking.PositiveCountOfPrefix | src/shotzone.py:69 | a list whose keys are positive exactly on its first m positions keeps exactly m elements under the filter |
| Ranking.InsertWithKey | src/shotzone.py:69 | inserting an element leaves the order of each key's elements as it was, with the new one first among its key |
| LegacyShotZone.IsInsideZone | football_shotmap/shotzone.py:15-18 | definition: x − width < a ≤ x and y − height < b ≤ y, the zone anchored at its upper corner |
| LegacyShotZone.TestPointOrientations | football_shotmap/shotzone.py:30-33 | the horizontal test point is the vertical one with its coordinates exchanged, and both test the shot's own X and Y |
| LegacyShotZone.TestPointSwap | football_shotmap/shotzone.py:30-33 | the horizontal test of a shot is the vertical test of the shot with X and Y exchanged |
| LegacyShotZone.FirstInsideFrom | football_shotmap/shotzone.py:35-39 | the scan stops at the first zone that holds the point, or reports none |
| LegacyShotZone.FirstInsideIsFirst | football_shotmap/shotzone.py:35-39 | zone j is the match if and only if it holds the point and no earlier zone does |
| LegacyShotZone.CalculateZonesStats | football_shotmap/shotzone.py:21-41 | a new list with one entry per input zone, same zone and order; entry i's shots and xG count and sum the shots whose first matching zone is i; the input is a value and stays as it was |
| LegacyShotZone.AddShot | football_shotmap/shotzone.py:35-39 | only the first entry whose zone holds the shot gains one shot and its xG |
| LegacyShotZone.AssignmentStep | football_shotmap/shotzone.py:29-39 | one more shot adds to its own zone only |
| LegacyShotZone.AssignedIffInside | football_shotmap/shotzone.py:35-39 | a shot is assigned some zone if and only if some zone holds its test point |
| LegacyShotZone.ZoneCountsBound | football_shotmap/shotzone.py:29-39 | counts sum to at most the number of shots, exactly when every shot is inside some zone |
| LegacyShotZone.LiteralZones | football_shotmap/shotzone.py:116-127 | the table has ten zones |
| LegacyShotZone.LiteralZonesPartition | football_shotmap/shotzone.py:116-127 | literal zone j holds (a, b) if and only if the point is in (0, 100] × (50, 100] and j is its band: the ten zones tile the attacking half without overlap |
| LegacyShotZone.LiteralFirstInside | football_shotmap/shotzone.py:116-127 | a shot with 50 < X ≤ 100 and 0 < Y ≤ 100 is counted in its band's zone |
| LegacyShotZone.AttackingHalfCounted | football_shotmap/shotzone.py:129 | on the literal table and a vertical pitch, the counts of attacking-half shots add up to the number of shots |
| LegacyShotZone.LowerEdgesOutside | football_shotmap/shotzone.py:18 | a shot on the halfway line (X = 50) or on the touchline Y = 0 is in no literal zone |
| LegacyShotZone.PlanFrom | football_shotmap/shotzone.py:79-82 | definition: from rank `index` on, a zone with shots divides by the total (line 81) before it looks up palette entry `index` (line 82); a zone without shots adds no fill |
| LegacyShotZone.DrawPlan | football_shotmap/shotzone.py:78-82 | definition: `PlanFrom` from rank 0 over the zones sorted by shots, most first, keeping ties in list order |
| LegacyShotZone.DrawZones | football_shotmap/shotzone.py:78-82 | the loop over the sorted zones returns exactly the fills or the error of `DrawPlan` |
| LegacyShotZone.PlanFromSpec | football_shotmap/shotzone.py:79-82 | from rank `index` of a list whose first m entries have shots: failure exactly when a fill is due and the total is zero or the rank has no colour; otherwise fill k has colour index+k and label shots·100/total |
| LegacyShotZone.DrawPlanSpec | football_shotmap/shotzone.py:79-82 | success if and only if no zone has shots or (total > 0 and the non-empty zones fit in the palette); fill k is the k-th zone by shots, coloured with palette entry k and labelled shots·100/total; a division by zero or an index error naming the first rank with no colour otherwise |
| LegacyShotZone.PaletteOverflow | football_shotmap/shotzone.py:82 | six non-empty zones with a five-colour palette stop at rank 5 with an index error |
| LegacyShotZone.GradedPlan | football_shotmap/shotzone.py:79-82 | colouring by rank fraction: fails, with a division by zero, if and only if the total is zero and some zone has shots; otherwise one fill per non-empty zone in rank order, fill k coloured with fraction (k + 1)/count in (0, 1] |
| LegacyShotZone.GradedPlanIncreasing | football_shotmap/shotzone.py:79-82 | in the graded plan, later ranks get strictly larger fractions |
| LegacyShotZone.GradedPlanOnOverflow | football_shotmap/shotzone.py:79-82 | whenever more zones have shots than the palette has colours and the total is positive, the palette plan fails with the index error of the first rank past the palette, while the graded plan draws every non-empty zone |
| ShotUtils.SeasonLabel | src/utils.py:17 | definition: the year in decimal, '/', then year mod 100 plus one in decimal without padding |
| ShotUtils.DecimalRoundTrip | src/utils.py:17 | reading back the decimal rendering of n gives n |
| ShotUtils.SeasonLabelParts | src/utils.py:17 | the label has a single '/', the digits before it read as the year and the digits after it as year mod 100 plus one, with no leading zero |
| ShotUtils.SeasonLabel2024 | src/utils.py:17 | 2024 gives "2024/25" |
| ShotUtils.SeasonLabelUnpadded | src/utils.py:17 | 1999 gives "1999/100" and 2008 gives "2008/9" |
| ShotUtils.SeasonLabelTwoDigit | src/utils.py:7-15 | for a four-digit year: seven characters, '/' at position 4, the year before it and (year + 1) mod 100 in two digits after it |
| ShotUtils.SeasonLabelsAgree | src/utils.py:17 | for a four-digit year, the label as written equals the two-digit label if and only if year mod 100 is between 9 and 98 |
| ShotUtils.SeasonLabelTwoDigitExamples | src/utils.py:7-15 | 1999 gives "1999/00", 2008 gives "2008/09", and 2024 gives the label as written |
| ShotUtils.PrepareShotData | src/utils.py:39-46 | fails exactly on no records; otherwise keeps the record count, multiplies X and Y by 100 and keeps xG and result |
| ShotUtils.Scaled | src/utils.py:43-44 | definition: X and Y multiplied by 100, xG and result kept |
| ShotUtils.PrepareShotDataRange | src/utils.py:42-44 | coordinates in [0, 1] become coordinates in [0, 100] |
| ShotUtils.Goals | src/utils.py:72 | the number of positions whose result is "Goal", so no more goals than shots |
| ShotUtils.SumMetresScales | src/utils.py:77-78 | the sum of the metre column x·105/100 is 105/100 times the sum of X |
| ShotUtils.CalculateShotsStats | src/utils.py:71-78 | shots is the record count; goals is the number of records whose result is "Goal", at most the shots; total xG is the sum of the xG column; the means exist exactly on a non-empty frame; xG per shot times shots is total xG; points distance is the mean of X; actual distance is 105 − mean(X)·105/100 |
| ShotUtils.AverageDistanceRange | src/utils.py:75-78 | if every X is in [0, 100], the mean of X is in [0, 100] and the distance in metres is in [0, 105] |
| ShotUtils.TenShotExample | src/utils.py:71-74 | a fixed ten-shot frame gives 10 shots, 3 goals, 2.25 xG and 0.225 xG per shot |
| ShotUtils.TenShotGoals | src/utils.py:72 | three shots of the fixed ten-shot frame have the result "Goal" |
| ShotUtils.TenShotXG | src/utils.py:73 | the fixed ten-shot frame's xG adds up to 2.25 |
| LegacyShotmap.GetSeasonLabel | football_shotmap/shotmap.py:24 | the same label as `get_season_label` of src/utils.py: the year, one '/', then year mod 100 plus one with no leading zero |
| LegacyShotmap.PrepareDate | football_shotmap/shotmap.py:31-39 | the same result as `prepare_shot_data`: fails on no records, otherwise the same count with X and Y times 100 and everything else kept |
| LegacyShotmap.CalculateStats | football_shotmap/shotmap.py:42-59 | the same statistics as `calculate_shots_stats`: goals is the number of "Goal" records, total xG the xG sum, xG per shot = total xG / shots, points distance = mean X, actual distance = 105 − mean(X)·105/100 on a non-empty frame |

## Left out

- **Drawing.** Figures, axes, text, `Rectangle`, `annotate`, `ax.plot`/`pitch.plot` and `savefig` are not modelled. Only the geometry computed before each call is. This means the border segments, the fill rectangle, the fills to draw and their colour and label.
- **Legacy borders and patches.** `draw_zone` and `draw_zone_borders` of football_shotmap/shotzone.py (lines 44-75) are left out. They choose edges as src/zones.py does, on upper-corner zones, and then only draw.
- **Legacy `draw_zones` borders.** `LegacyShotZone.DrawZones` models the fills. The border call made for every zone (line 84) draws only.
- **src `draw_zones`.** `draw_zones` of src/zones.py (lines 130-132) only calls `draw_zone_borders` per zone, and that call is modelled by `PitchZones.DrawZoneBorders`.
- **Legacy palette.** football_shotmap/style.py defines no `PURPLES`, so the legacy `draw_zones` as shipped fails when it looks up the palette name. Colours are not modelled. The palette is only a length (`paletteSize`), and the five colours of src/style.py serve as the example.
- **Scraping.** football_shotmap/scrape.py and every `get_*` scraping call are left out. They are network access through aiohttp/understat.
- **src/shotmap.py.** It is figure layout and file naming, and is not part of this model.
- **Fonts and colours.** src/style.py and football_shotmap/style.py hold only fonts and colours.
- **`opta_dims()` values.** They are parameters constrained by `Centred`.
- **Stubs.** `make_simplified_zones` and `make_detailed_zones` (src/zones.py:73-78) are empty and are not modelled.
- **`__main__` blocks.** The demo blocks and `create_*` figure builders are not modelled, except for the facts drawn from them recorded in the rows above. Those are the literal table, the early return on empty data, and the zone choice of line 69.
- **`Zones.__iter__`.** Iterating a `Zones` yields its `zones` list in order. The model reads the `zones` field of the class directly.
- **Aliasing.** In Python every `Zone` is a separate mutable object that the caller shares. Here a zone is a value inside the `seq` field of one `Zones` object that the methods reassign, so aliasing between zone objects is not modelled.
- **pandas.** Records are already numeric. `astype` failures on non-numeric columns are not modelled, and neither are extra columns or the `to_dict` round trip.
- **Floating point.** Coordinates, xG, means and percentages are exact reals. IEEE rounding is not modelled, and neither are the `.2f` renderings of the labels.
- **Season year type.** The season year is a `nat` and is rendered in decimal. The source also accepts a string, which it prints as given, so a string such as "02024" is not modelled.
- **Edge names.** The strings of `draw` are the `Edge` values `Top`, `Bottom`, `Left` and `Right`. Unknown names, which the source ignores, are not modelled.
- ShotZone.CalculateZonesStats: does not model the exception itself. With no shots it reports `failed` instead of raising `ZeroDivisionError`.
- **Percentage total.** The model does not state that the percentages add up to 100. The source does not claim it, and it would hold only when every shot is inside some zone.

## Findings

| source | as written | input that shows it | evidently intended | confidence | as-written member | corrected member |
|---|---|---|---|---|---|---|
| src/utils.py:17 | the suffix is `year % 100 + 1`, printed unpadded (copied at football_shotmap/shotmap.py:24) | 1999 gives "1999/100" and 2008 gives "2008/9" | "YYYY/YY" as the docstring (lines 7-15) says: (year + 1) mod 100 in two digits, "1999/00", "2008/09" | high, not executed | ShotUtils.SeasonLabelUnpadded | ShotUtils.SeasonLabelTwoDigit |
| football_shotmap/shotzone.py:82 | the rank indexes a fixed palette, `Colors.PURPLES[index]` | six non-empty zones of the ten with the five colours of src/style.py:21: rank 5 raises IndexError | a colour for every rank; the later revision uses `(index + 1)/len` of a colour map (src/shotzone.py:72) | medium, not executed | LegacyShotZone.PaletteOverflow | LegacyShotZone.GradedPlan |
