/**
  The pitch zones of src/zones.py: rectangles over a horizontal pitch whose x
  axis runs along the pitch length and y axis across its width, built from the
  pitch dimensions, with a half-open membership test and the geometry of the
  borders and fills drawn for them.
 */
module PitchZones {
  import opened Wrappers

  /**
    Pitch dimensions as mplsoccer reports them (the values themselves are not
    part of this model, only the relations of `Centred`).
   */
  datatype Dims = Dims(
    length: real, width: real,
    penaltyAreaLength: real, penaltyAreaWidth: real,
    sixYardLength: real, sixYardWidth: real,
    sixYardBottom: real, sixYardTop: real,
    penaltyAreaTop: real, penaltyAreaRight: real, sixYardRight: real)

  /**
    Both boxes are centred across the width and mirrored along the length, the
    six-yard box lies inside the penalty area, and the two penalty areas do not
    meet.
   */
  predicate Centred(d: Dims) {
    && 0.0 < d.sixYardWidth < d.penaltyAreaWidth < d.width
    && 0.0 < d.sixYardLength < d.penaltyAreaLength
    && 2.0 * d.penaltyAreaLength < d.length
    && d.sixYardBottom == (d.width - d.sixYardWidth) / 2.0
    && d.sixYardTop == d.sixYardBottom + d.sixYardWidth
    && d.penaltyAreaTop == (d.width + d.penaltyAreaWidth) / 2.0
    && d.penaltyAreaRight == d.length - d.penaltyAreaLength
    && d.sixYardRight == d.length - d.sixYardLength
  }

  /** Width of a strip beside the penalty area. */
  function PitchSideWidth(d: Dims): real { (d.width - d.penaltyAreaWidth) / 2.0 }

  /** Length from the penalty area to the halfway line. */
  function PitchSideLength(d: Dims): real { d.length / 2.0 - d.penaltyAreaLength }

  /** Width of a penalty-area strip beside the six-yard box. */
  function PenaltyAreaSideWidth(d: Dims): real { (d.penaltyAreaWidth - d.sixYardWidth) / 2.0 }

  /** Length of the penalty area beyond the six-yard box. */
  function PenaltyAreaSideLength(d: Dims): real { d.penaltyAreaLength - d.sixYardLength }

  datatype Edge = Top | Bottom | Left | Right

  /**
    The `values` dictionary of a zone. A new zone's dictionary is empty: its
    shots and xG are written by the reset before they are read, and an absent
    percentage is `None`.
   */
  datatype ZoneValues = ZoneValues(shots: nat, xG: real, percentage: Option<real>)

  datatype Zone = Zone(x: real, y: real, width: real, height: real, draw: seq<Edge>, values: ZoneValues)

  function NewZone(x: real, y: real, width: real, height: real, draw: seq<Edge>): Zone {
    Zone(x, y, width, height, draw, ZoneValues(0, 0.0, None))
  }

  /**
    `Zone.is_inside`: on a horizontal pitch the point's coordinates are swapped
    first; then the lower edges are inside and the upper edges outside.
   */
  predicate IsInside(z: Zone, px: real, py: real, vertical: bool) {
    var (a, b) := if vertical then (px, py) else (py, px);
    z.x <= a < z.x + z.width && z.y <= b < z.y + z.height
  }

  /** Asking with `vertical` false is asking about the swapped point with `vertical` true. */
  lemma IsInsideSwap(z: Zone, a: real, b: real)
    ensures IsInside(z, a, b, false) == IsInside(z, b, a, true)
  {
  }

  /** The lower-left corner belongs to a non-degenerate zone; no point of the upper edges does. */
  lemma IsInsideHalfOpen(z: Zone, a: real, b: real)
    ensures IsInside(z, z.x, z.y, true) <==> z.width > 0.0 && z.height > 0.0
    ensures !IsInside(z, z.x + z.width, b, true) && !IsInside(z, a, z.y + z.height, true)
  {
  }

  // ---------------------------------------------------------------------------
  // The default zones
  // ---------------------------------------------------------------------------

  /** The six zones between the goal line and the penalty-area line. */
  function FrontRow(d: Dims): seq<Zone> {
    var psw, pasw, pasl := PitchSideWidth(d), PenaltyAreaSideWidth(d), PenaltyAreaSideLength(d);
    [ NewZone(0.0, 0.0, d.penaltyAreaLength, psw, [Right]),
      NewZone(0.0, psw, d.penaltyAreaLength, pasw, []),
      NewZone(0.0, d.sixYardBottom, d.sixYardLength, d.sixYardWidth, []),
      NewZone(d.sixYardLength, d.sixYardBottom, pasl, d.sixYardWidth, [Top, Bottom]),
      NewZone(0.0, d.sixYardTop, d.penaltyAreaLength, pasw, []),
      NewZone(0.0, d.penaltyAreaTop, d.penaltyAreaLength, psw, [Right]) ]
  }

  /** Width of one of the six middle columns: a third of the penalty-to-halfway length. */
  function ColumnWidth(d: Dims): real { PitchSideLength(d) / 3.0 }

  function ColumnDraw(i: nat): seq<Edge> {
    if i != 2 && i != 5 then [Top, Right] else [Top]
  }

  function OuterBandDraw(i: nat): seq<Edge> {
    if i != 2 && i != 5 then [Right] else []
  }

  /** The five zones of middle column `i`, across the five lateral bands. */
  function Column(d: Dims, i: nat): seq<Zone> {
    var psw, pasw, w := PitchSideWidth(d), PenaltyAreaSideWidth(d), ColumnWidth(d);
    var x := d.penaltyAreaLength + (i as real) * w;
    [ NewZone(x, 0.0, w, psw, ColumnDraw(i)),
      NewZone(x, psw, w, pasw, ColumnDraw(i)),
      NewZone(x, d.sixYardBottom, w, d.sixYardWidth, ColumnDraw(i)),
      NewZone(x, d.sixYardTop, w, pasw, ColumnDraw(i)),
      NewZone(x, d.penaltyAreaTop, w, psw, OuterBandDraw(i)) ]
  }

  lemma ColumnContents(d: Dims, i: nat, x: real, w: real, draw: seq<Edge>)
    requires w == PitchSideLength(d) / 3.0 && x == d.penaltyAreaLength + (i as real) * w
    requires draw == if i != 2 && i != 5 then [Top, Right] else [Top]
    ensures Column(d, i) == [
        NewZone(x, 0.0, w, PitchSideWidth(d), draw),
        NewZone(x, PitchSideWidth(d), w, PenaltyAreaSideWidth(d), draw),
        NewZone(x, d.sixYardBottom, w, d.sixYardWidth, draw),
        NewZone(x, d.sixYardTop, w, PenaltyAreaSideWidth(d), draw),
        NewZone(x, d.penaltyAreaTop, w, PitchSideWidth(d), if i != 2 && i != 5 then [Right] else []) ]
  {
    var c := Column(d, i);
    assert c[0] == NewZone(x, 0.0, w, PitchSideWidth(d), draw);
    assert c[1] == NewZone(x, PitchSideWidth(d), w, PenaltyAreaSideWidth(d), draw);
    assert c[2] == NewZone(x, d.sixYardBottom, w, d.sixYardWidth, draw);
    assert c[3] == NewZone(x, d.sixYardTop, w, PenaltyAreaSideWidth(d), draw);
    assert c[4] == NewZone(x, d.penaltyAreaTop, w, PitchSideWidth(d), if i != 2 && i != 5 then [Right] else []);
    assert c == [c[0], c[1], c[2], c[3], c[4]];
  }

  /** Middle columns 0 .. n-1 in order. */
  function Columns(d: Dims, n: nat): seq<Zone> {
    if n == 0 then [] else Columns(d, n - 1) + Column(d, n - 1)
  }

  /** The six zones of the far penalty area and its flanks, the mirror of the front row. */
  function BackRow(d: Dims): seq<Zone> {
    var psw, pasw, pasl := PitchSideWidth(d), PenaltyAreaSideWidth(d), PenaltyAreaSideLength(d);
    [ NewZone(d.penaltyAreaRight, 0.0, d.penaltyAreaLength, psw, [Left]),
      NewZone(d.penaltyAreaRight, psw, d.penaltyAreaLength, pasw, []),
      NewZone(d.sixYardRight, d.sixYardBottom, d.sixYardLength, d.sixYardWidth, []),
      NewZone(d.penaltyAreaRight, d.sixYardBottom, pasl, d.sixYardWidth, [Top, Bottom]),
      NewZone(d.penaltyAreaRight, d.sixYardTop, d.penaltyAreaLength, pasw, []),
      NewZone(d.penaltyAreaRight, d.penaltyAreaTop, d.penaltyAreaLength, psw, [Left]) ]
  }

  /** The list `make_default_zones` returns. */
  function DefaultZones(d: Dims): (zones: seq<Zone>)
    ensures |zones| == 42
  {
    ColumnsLength(d, 6);
    FrontRow(d) + Columns(d, 6) + BackRow(d)
  }

  /** `make_default_zones`: appends the front row, then each middle column, then the back row. */
  method MakeDefaultZones(d: Dims) returns (zones: seq<Zone>)
    ensures zones == DefaultZones(d)
    ensures |zones| == 42
  {
    zones := [];
    zones := AddFrontRow(d, zones);
    assert zones == FrontRow(d);

    var width := PitchSideLength(d) / 3.0;
    assert Columns(d, 0) == [];
    for i := 0 to 6
      invariant zones == FrontRow(d) + Columns(d, i)
      invariant |zones| == 6 + 5 * i
    {
      var x := d.penaltyAreaLength + (i as real) * width;
      var draw := if i != 2 && i != 5 then [Top, Right] else [Top];
      zones := AddColumn(d, zones, i, x, width, draw);
      assert Columns(d, i + 1) == Columns(d, i) + Column(d, i);
    }

    zones := AddBackRow(d, zones);
  }

  /** Appends the six zones of the near penalty area and its flanks. */
  method AddFrontRow(d: Dims, before: seq<Zone>) returns (zones: seq<Zone>)
    ensures zones == before + FrontRow(d)
  {
    var psw, pasw, pasl := PitchSideWidth(d), PenaltyAreaSideWidth(d), PenaltyAreaSideLength(d);
    zones := before;
    zones := zones + [NewZone(0.0, 0.0, d.penaltyAreaLength, psw, [Right])];
    zones := zones + [NewZone(0.0, psw, d.penaltyAreaLength, pasw, [])];
    zones := zones + [NewZone(0.0, d.sixYardBottom, d.sixYardLength, d.sixYardWidth, [])];
    zones := zones + [NewZone(d.sixYardLength, d.sixYardBottom, pasl, d.sixYardWidth, [Top, Bottom])];
    zones := zones + [NewZone(0.0, d.sixYardTop, d.penaltyAreaLength, pasw, [])];
    zones := zones + [NewZone(0.0, d.penaltyAreaTop, d.penaltyAreaLength, psw, [Right])];
  }

  /** Appends the five zones of column `i` of the middle part, from left `x` and `width` wide. */
  method AddColumn(d: Dims, before: seq<Zone>, i: nat, x: real, width: real, draw: seq<Edge>) returns (zones: seq<Zone>)
    requires width == PitchSideLength(d) / 3.0 && x == d.penaltyAreaLength + (i as real) * width
    requires draw == if i != 2 && i != 5 then [Top, Right] else [Top]
    ensures zones == before + Column(d, i)
  {
    var psw, pasw := PitchSideWidth(d), PenaltyAreaSideWidth(d);
    zones := before;
    zones := zones + [NewZone(x, 0.0, width, psw, draw)];
    zones := zones + [NewZone(x, psw, width, pasw, draw)];
    zones := zones + [NewZone(x, d.sixYardBottom, width, d.sixYardWidth, draw)];
    zones := zones + [NewZone(x, d.sixYardTop, width, pasw, draw)];
    zones := zones + [NewZone(x, d.penaltyAreaTop, width, psw, if i != 2 && i != 5 then [Right] else [])];
    ColumnContents(d, i, x, width, draw);
  }

  /** Appends the six zones of the far penalty area and its flanks. */
  method AddBackRow(d: Dims, before: seq<Zone>) returns (zones: seq<Zone>)
    ensures zones == before + BackRow(d)
  {
    var psw, pasw, pasl := PitchSideWidth(d), PenaltyAreaSideWidth(d), PenaltyAreaSideLength(d);
    zones := before;
    zones := zones + [NewZone(d.penaltyAreaRight, 0.0, d.penaltyAreaLength, psw, [Left])];
    zones := zones + [NewZone(d.penaltyAreaRight, psw, d.penaltyAreaLength, pasw, [])];
    zones := zones + [NewZone(d.sixYardRight, d.sixYardBottom, d.sixYardLength, d.sixYardWidth, [])];
    zones := zones + [NewZone(d.penaltyAreaRight, d.sixYardBottom, pasl, d.sixYardWidth, [Top, Bottom])];
    zones := zones + [NewZone(d.penaltyAreaRight, d.sixYardTop, d.penaltyAreaLength, pasw, [])];
    zones := zones + [NewZone(d.penaltyAreaRight, d.penaltyAreaTop, d.penaltyAreaLength, psw, [Left])];
  }

  /** The `Zones` container: its list is the default zones, iterated in list order. */
  class Zones {
    var zones: seq<Zone>

    constructor (d: Dims)
      ensures zones == DefaultZones(d)
    {
      var made := MakeDefaultZones(d);
      zones := made;
    }
  }

  // ---------------------------------------------------------------------------
  // Layout of the default list
  // ---------------------------------------------------------------------------

  lemma {:induction false} ColumnsAt(d: Dims, n: nat, j: nat)
    requires j < 5 * n
    ensures |Columns(d, n)| == 5 * n
    ensures Columns(d, n)[j] == Column(d, j / 5)[j % 5]
  {
    ColumnsLength(d, n - 1);
    var before := Columns(d, n - 1);
    assert Columns(d, n) == before + Column(d, n - 1);
    if j < 5 * (n - 1) {
      ColumnsAt(d, n - 1, j);
      assert Columns(d, n)[j] == before[j];
    } else {
      var r := j - 5 * (n - 1);
      assert 0 <= r < 5 && j == 5 * (n - 1) + r;
      assert j / 5 == n - 1 && j % 5 == r;
      assert Columns(d, n)[j] == Column(d, n - 1)[r];
    }
  }

  lemma {:induction false} ColumnsLength(d: Dims, n: nat)
    ensures |Columns(d, n)| == 5 * n
  {
    if n > 0 {
      ColumnsLength(d, n - 1);
    }
  }

  /**
    42 zones: the six of the front row, then middle column i's five zones at
    6 + 5i .. 10 + 5i, then the six of the back row.
   */
  lemma DefaultZonesLayout(d: Dims, j: nat)
    requires j < 42
    ensures |DefaultZones(d)| == 42
    ensures j < 6 ==> DefaultZones(d)[j] == FrontRow(d)[j]
    ensures 6 <= j < 36 ==> DefaultZones(d)[j] == Column(d, (j - 6) / 5)[(j - 6) % 5]
    ensures 36 <= j ==> DefaultZones(d)[j] == BackRow(d)[j - 36]
  {
    ColumnsLength(d, 6);
    if 6 <= j < 36 {
      ColumnsAt(d, 6, j - 6);
    }
  }

  /**
    Border marking of the middle columns: the four inner bands of column i draw
    their top and right edges, the outer band only its right edge, and columns
    2 and 5 draw no right edge.
   */
  lemma MiddleColumnBorders(d: Dims, i: nat, k: nat)
    requires i < 6 && k < 5
    ensures k < 4 ==> DefaultZones(d)[6 + 5 * i + k].draw == if i == 2 || i == 5 then [Top] else [Top, Right]
    ensures k == 4 ==> DefaultZones(d)[6 + 5 * i + k].draw == if i == 2 || i == 5 then [] else [Right]
  {
    DefaultZonesLayout(d, 6 + 5 * i + k);
    assert (5 * i + k) / 5 == i && (5 * i + k) % 5 == k;
  }

  // ---------------------------------------------------------------------------
  // Tiling
  // ---------------------------------------------------------------------------

  /** The five lateral bands run edge to edge from 0 to the pitch width. */
  lemma LateralBandsTile(d: Dims)
    requires Centred(d)
    ensures PitchSideWidth(d) > 0.0 && PenaltyAreaSideWidth(d) > 0.0
    ensures PitchSideWidth(d) + PenaltyAreaSideWidth(d) == d.sixYardBottom
    ensures d.sixYardBottom + d.sixYardWidth == d.sixYardTop
    ensures d.sixYardTop + PenaltyAreaSideWidth(d) == d.penaltyAreaTop
    ensures d.penaltyAreaTop + PitchSideWidth(d) == d.width
  {
  }

  /**
    Along the length: six-yard box then the strip behind it fill the penalty
    area, six middle columns fill the rest up to the far penalty area, which
    mirrors the first.
   */
  lemma LongitudinalSegmentsTile(d: Dims)
    requires Centred(d)
    ensures ColumnWidth(d) > 0.0 && PenaltyAreaSideLength(d) > 0.0
    ensures d.sixYardLength + PenaltyAreaSideLength(d) == d.penaltyAreaLength
    ensures d.penaltyAreaLength + 6.0 * ColumnWidth(d) == d.penaltyAreaRight
    ensures d.penaltyAreaRight + PenaltyAreaSideLength(d) == d.sixYardRight
    ensures d.sixYardRight + d.sixYardLength == d.length
  {
  }

  /** The lateral band, 0 (y = 0 side) to 4, of a coordinate across the pitch. */
  function BandOf(d: Dims, b: real): (k: nat)
    ensures k < 5
  {
    if b < PitchSideWidth(d) then 0
    else if b < d.sixYardBottom then 1
    else if b < d.sixYardTop then 2
    else if b < d.penaltyAreaTop then 3
    else 4
  }

  /** The middle column, 0 to 5, of a coordinate along the pitch. */
  function ColumnOf(d: Dims, a: real): (i: nat)
    ensures i < 6
  {
    var w := ColumnWidth(d);
    if a < d.penaltyAreaLength + w then 0
    else if a < d.penaltyAreaLength + 2.0 * w then 1
    else if a < d.penaltyAreaLength + 3.0 * w then 2
    else if a < d.penaltyAreaLength + 4.0 * w then 3
    else if a < d.penaltyAreaLength + 5.0 * w then 4
    else 5
  }

  /** Position in the default list of the zone that holds point (a, b) of the pitch. */
  function ZoneIndex(d: Dims, a: real, b: real): (j: nat)
    ensures j < 42
  {
    var k := BandOf(d, b);
    if a < d.penaltyAreaLength then
      (if k < 2 then k else if k == 2 then (if a < d.sixYardLength then 2 else 3) else k + 1)
    else if a < d.penaltyAreaRight then
      6 + 5 * ColumnOf(d, a) + k
    else
      (if k < 2 then 36 + k else if k == 2 then (if a < d.sixYardRight then 39 else 38) else 37 + k)
  }

  lemma BandOfInside(d: Dims, k: nat, z: Zone, b: real)
    requires Centred(d) && k < 5
    requires z.y == [0.0, PitchSideWidth(d), d.sixYardBottom, d.sixYardTop, d.penaltyAreaTop][k]
    requires z.height == [PitchSideWidth(d), PenaltyAreaSideWidth(d), d.sixYardWidth, PenaltyAreaSideWidth(d), PitchSideWidth(d)][k]
    ensures z.y <= b < z.y + z.height <==> 0.0 <= b < d.width && BandOf(d, b) == k
  {
    LateralBandsTile(d);
  }

  lemma ColumnOfInside(d: Dims, i: nat, a: real)
    requires Centred(d) && i < 6
    ensures var x := d.penaltyAreaLength + (i as real) * ColumnWidth(d);
      x <= a < x + ColumnWidth(d) <==>
        d.penaltyAreaLength <= a < d.penaltyAreaRight && ColumnOf(d, a) == i
  {
    LongitudinalSegmentsTile(d);
    if i == 0 {
    } else if i == 1 {
    } else if i == 2 {
    } else if i == 3 {
    } else if i == 4 {
    } else {
      assert i == 5;
    }
  }

  /** A point inside middle zone (i, k) is exactly a point whose index is 6 + 5i + k. */
  lemma MiddleZoneInside(d: Dims, i: nat, k: nat, a: real, b: real)
    requires Centred(d) && i < 6 && k < 5
    ensures IsInside(Column(d, i)[k], a, b, true) <==>
      0.0 <= a < d.length && 0.0 <= b < d.width && ZoneIndex(d, a, b) == 6 + 5 * i + k
  {
    var z := Column(d, i)[k];
    var x := d.penaltyAreaLength + (i as real) * ColumnWidth(d);
    assert z.x == x && z.width == ColumnWidth(d);
    assert IsInside(z, a, b, true) <==> x <= a < x + ColumnWidth(d) && z.y <= b < z.y + z.height;
    BandOfInside(d, k, z, b);
    ColumnOfInside(d, i, a);
    LongitudinalSegmentsTile(d);
  }

  lemma FrontZoneInside(d: Dims, j: nat, a: real, b: real)
    requires Centred(d) && j < 6
    ensures IsInside(FrontRow(d)[j], a, b, true) <==>
      0.0 <= a < d.length && 0.0 <= b < d.width && ZoneIndex(d, a, b) == j
  {
    var z := FrontRow(d)[j];
    var k := [0, 1, 2, 2, 3, 4][j];
    BandOfInside(d, k, z, b);
    LongitudinalSegmentsTile(d);
  }

  lemma BackZoneInside(d: Dims, j: nat, a: real, b: real)
    requires Centred(d) && j < 6
    ensures IsInside(BackRow(d)[j], a, b, true) <==>
      0.0 <= a < d.length && 0.0 <= b < d.width && ZoneIndex(d, a, b) == 36 + j
  {
    var z := BackRow(d)[j];
    var k := [0, 1, 2, 2, 3, 4][j];
    BandOfInside(d, k, z, b);
    LongitudinalSegmentsTile(d);
  }

  /**
    With centred boxes the default zones partition the pitch: a point of
    [0, length) x [0, width) is inside exactly one zone, the one at
    `ZoneIndex`, and any other point (an upper edge of the pitch included) is
    inside none.
   */
  lemma DefaultZonesPartition(d: Dims, a: real, b: real, j: nat)
    requires Centred(d) && j < 42
    ensures IsInside(DefaultZones(d)[j], a, b, true) <==>
      0.0 <= a < d.length && 0.0 <= b < d.width && j == ZoneIndex(d, a, b)
  {
    DefaultZonesLayout(d, j);
    if j < 6 {
      FrontZoneInside(d, j, a, b);
    } else if j < 36 {
      MiddleZoneInside(d, (j - 6) / 5, (j - 6) % 5, a, b);
    } else {
      BackZoneInside(d, j - 36, a, b);
    }
  }

  /** A shot on the far goal line or on the far touchline is in none of the 42 zones. */
  lemma FarLinesInNoZone(d: Dims, a: real, b: real, j: nat)
    requires Centred(d) && j < 42
    requires a == d.length || b == d.width
    ensures !IsInside(DefaultZones(d)[j], a, b, true)
  {
    DefaultZonesPartition(d, a, b, j);
  }

  // ---------------------------------------------------------------------------
  // Drawing geometry
  // ---------------------------------------------------------------------------

  datatype Point = Point(x: real, y: real)

  datatype Segment = Segment(start: Point, end: Point)

  /** The side of the zone's rectangle that an edge name stands for. */
  function Side(z: Zone, e: Edge): Segment {
    var x0, y0, x1, y1 := z.x, z.y, z.x + z.width, z.y + z.height;
    match e
    case Top => Segment(Point(x0, y1), Point(x1, y1))
    case Bottom => Segment(Point(x0, y0), Point(x1, y0))
    case Left => Segment(Point(x0, y0), Point(x0, y1))
    case Right => Segment(Point(x1, y0), Point(x1, y1))
  }

  predicate IsCorner(z: Zone, p: Point) {
    (p.x == z.x || p.x == z.x + z.width) && (p.y == z.y || p.y == z.y + z.height)
  }

  /** Each side joins two corners of the rectangle and runs along one axis. */
  lemma SideJoinsCorners(z: Zone, e: Edge)
    ensures IsCorner(z, Side(z, e).start) && IsCorner(z, Side(z, e).end)
    ensures e == Top || e == Bottom ==>
      Side(z, e).start.y == Side(z, e).end.y && Side(z, e).end.x - Side(z, e).start.x == z.width
    ensures e == Left || e == Right ==>
      Side(z, e).start.x == Side(z, e).end.x && Side(z, e).end.y - Side(z, e).start.y == z.height
  {
  }

  /**
    `draw_zone_borders` up to the plot call: one segment for each edge named in
    `draw`, in the order top, bottom, left, right, and none for an empty `draw`.
   */
  function ZoneBorders(z: Zone): (lines: seq<Segment>)
    ensures |z.draw| == 0 ==> lines == []
    ensures |lines| <= 4
    ensures |lines| == |DrawnEdges(z.draw)|
    ensures forall e :: e in z.draw ==> Side(z, e) in lines
    ensures forall s :: s in lines ==> exists e :: e in z.draw && s == Side(z, e)
  {
    DrawnEdgesSize(z.draw);
    if |z.draw| == 0 then []
    else
      (if Top in z.draw then [Side(z, Top)] else [])
      + (if Bottom in z.draw then [Side(z, Bottom)] else [])
      + (if Left in z.draw then [Side(z, Left)] else [])
      + (if Right in z.draw then [Side(z, Right)] else [])
  }

  /** The distinct edges named in `draw`. */
  function DrawnEdges(draw: seq<Edge>): set<Edge> {
    set e: Edge | e in draw
  }

  /** One for each of the four edges that `draw` names, however often it names it. */
  lemma DrawnEdgesSize(draw: seq<Edge>)
    ensures |DrawnEdges(draw)| ==
      (if Top in draw then 1 else 0) + (if Bottom in draw then 1 else 0)
      + (if Left in draw then 1 else 0) + (if Right in draw then 1 else 0)
  {
    var t := AddIf({}, Top, Top in draw);
    var tb := AddIf(t, Bottom, Bottom in draw);
    var tbl := AddIf(tb, Left, Left in draw);
    var all := AddIf(tbl, Right, Right in draw);
    assert DrawnEdges(draw) == all by {
      forall e: Edge | e in DrawnEdges(draw) ensures e in all {
        EdgeCases(e);
      }
    }
  }

  /** `s` with `x` added when `b` holds, and its size. */
  lemma AddIf(s: set<Edge>, x: Edge, b: bool) returns (r: set<Edge>)
    ensures r == if b then s + {x} else s
    ensures |r| == |s| + (if b && x !in s then 1 else 0)
  {
    r := if b then s + {x} else s;
    if b && x !in s {
      assert s * {x} == {};
      assert |r| + |s * {x}| == |s| + |{x}|;
    } else if b {
      assert r == s;
    }
  }

  /** Every edge is one of the four. */
  lemma EdgeCases(e: Edge)
    ensures e == Top || e == Bottom || e == Left || e == Right
  {
  }

  /** The appends of `draw_zone_borders`, in the source's order, before the segments are plotted. */
  method DrawZoneBorders(z: Zone) returns (lines: seq<Segment>)
    ensures lines == ZoneBorders(z)
  {
    lines := [];
    if |z.draw| == 0 {
      return;
    }
    ghost var top: seq<Segment> := if Top in z.draw then [Side(z, Top)] else [];
    ghost var bottom: seq<Segment> := if Bottom in z.draw then [Side(z, Bottom)] else [];
    ghost var left: seq<Segment> := if Left in z.draw then [Side(z, Left)] else [];
    if Top in z.draw {
      lines := lines + [Side(z, Top)];
    }
    assert lines == top;
    if Bottom in z.draw {
      lines := lines + [Side(z, Bottom)];
    }
    assert lines == top + bottom;
    if Left in z.draw {
      lines := lines + [Side(z, Left)];
    }
    assert lines == top + bottom + left;
    if Right in z.draw {
      lines := lines + [Side(z, Right)];
    }
  }

  datatype Rect = Rect(x: real, y: real, width: real, height: real)

  /** `draw_zone_fill` up to the patch: a vertical pitch transposes the rectangle. */
  function FillRect(z: Zone, vertical: bool): Rect {
    if vertical then Rect(z.y, z.x, z.height, z.width) else Rect(z.x, z.y, z.width, z.height)
  }

  predicate RectHolds(r: Rect, u: real, v: real) {
    r.x <= u < r.x + r.width && r.y <= v < r.y + r.height
  }

  /**
    The filled rectangle and the membership test agree: `is_inside(a, b,
    vertical)` holds exactly when the rectangle drawn for that pitch holds the
    point (b, a).
   */
  lemma FillRectMatchesIsInside(z: Zone, a: real, b: real, vertical: bool)
    ensures IsInside(z, a, b, vertical) <==> RectHolds(FillRect(z, vertical), b, a)
    ensures vertical ==> FillRect(z, vertical) == Rect(z.y, z.x, z.height, z.width)
    ensures !vertical ==> FillRect(z, vertical) == Rect(z.x, z.y, z.width, z.height)
  {
  }
}
