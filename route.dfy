/** The waypoint generator: a fixed table of relative offsets is walked from a
    start block, and every offset yields one segment record from the running
    point to the running point plus the offset. */
module Route {

  /** A relative displacement, one entry of the offset table. */
  datatype Offset = Offset(dx: int, dy: int, dz: int) {
    function Plus(other: Offset): Offset {
      Offset(dx + other.dx, dy + other.dy, dz + other.dz)
    }
  }

  /** An integer block position. */
  datatype Point = Point(x: int, y: int, z: int) {
    function Shift(o: Offset): Point {
      Point(x + o.dx, y + o.dy, z + o.dz)
    }
  }

  /** One leg of the route, with the six integer fields of the exported record. */
  datatype Segment = Segment(x1: int, y1: int, z1: int, x2: int, y2: int, z2: int) {
    function Start(): Point { Point(x1, y1, z1) }
    function End(): Point { Point(x2, y2, z2) }
  }

  function Leg(from: Point, to: Point): Segment {
    Segment(from.x, from.y, from.z, to.x, to.y, to.z)
  }

  /** The 21 offsets of the route, in table order. */
  const RouteOffsets: seq<Offset> := [
    Offset(-22, 1, -7),
    Offset(-4, 0, -28),
    Offset(8, -8, -10),
    Offset(29, -5, -3),
    Offset(-6, -6, 0),
    Offset(14, 14, 4),
    Offset(-12, 0, 9),
    Offset(-5, -3, 4),
    Offset(-4, -13, 20),
    Offset(-2, 2, -14),
    Offset(-5, 2, -11),
    Offset(5, -2, -4),
    Offset(14, -1, -9),
    Offset(7, -1, 8),
    Offset(0, -1, 23),
    Offset(5, 0, 9),
    Offset(0, 5, 6),
    Offset(-30, -2, 3),
    Offset(24, 7, 5),
    Offset(-7, 5, -1),
    Offset(-9, 6, -4)
  ]

  /** The componentwise sum of a run of offsets. */
  function Total(offsets: seq<Offset>): Offset {
    if offsets == [] then Offset(0, 0, 0) else offsets[0].Plus(Total(offsets[1..]))
  }

  /** The sum of the offsets from index `k` on, computed by index. */
  function TotalFrom(offsets: seq<Offset>, k: nat): Offset
    decreases |offsets| - k
  {
    if k >= |offsets| then Offset(0, 0, 0) else offsets[k].Plus(TotalFrom(offsets, k + 1))
  }

  /** Summing by index agrees with summing the suffix. */
  lemma {:induction false} TotalFromSuffix(offsets: seq<Offset>, k: nat)
    requires k <= |offsets|
    ensures TotalFrom(offsets, k) == Total(offsets[k..])
    decreases |offsets| - k
  {
    if k < |offsets| {
      TotalFromSuffix(offsets, k + 1);
      assert offsets[k..][1..] == offsets[k + 1..];
    }
  }

  /** The segments generated from `start` by walking `offsets`, one per offset. */
  function Waypoints(offsets: seq<Offset>, start: Point): (r: seq<Segment>)
    ensures |r| == |offsets|
  {
    if offsets == [] then []
    else
      var next := start.Shift(offsets[0]);
      [Leg(start, next)] + Waypoints(offsets[1..], next)
  }

  /** The last segment ends at the start displaced by all offsets together. */
  lemma {:induction false} WaypointsEnd(offsets: seq<Offset>, start: Point)
    requires offsets != []
    ensures Waypoints(offsets, start)[|offsets| - 1].End() == start.Shift(Total(offsets))
  {
    var next := start.Shift(offsets[0]);
    if |offsets| == 1 {
      assert offsets[1..] == [];
    } else {
      WaypointsEnd(offsets[1..], next);
    }
  }

  /** What it means for `r` to be the route from `start` along `offsets`:
      one record per offset, the first starts at `start`, each ends at its
      start plus its offset, and each starts where the previous one ended. */
  ghost predicate IsRouteFrom(r: seq<Segment>, offsets: seq<Offset>, start: Point) {
    && |r| == |offsets|
    && (|r| > 0 ==> r[0].Start() == start)
    && (forall i :: 0 <= i < |r| ==> r[i].End() == r[i].Start().Shift(offsets[i]))
    && (forall i :: 0 <= i < |r| - 1 ==> r[i + 1].Start() == r[i].End())
  }

  /** Closed form: segment i runs from the start displaced by the first i
      offsets to the start displaced by the first i + 1 offsets. */
  lemma {:induction false} WaypointsAt(offsets: seq<Offset>, start: Point, i: int)
    requires 0 <= i < |offsets|
    ensures Waypoints(offsets, start)[i]
            == Leg(start.Shift(Total(offsets[..i])), start.Shift(Total(offsets[..i + 1])))
  {
    var next := start.Shift(offsets[0]);
    if i == 0 {
      assert offsets[..0] == [];
      assert offsets[..1][1..] == [];
    } else {
      WaypointsAt(offsets[1..], next, i - 1);
      assert offsets[1..][..i - 1] == offsets[..i][1..];
      assert offsets[1..][..i] == offsets[..i + 1][1..];
    }
  }

  /** The generated segments satisfy the route properties. */
  lemma {:induction false} WaypointsIsRoute(offsets: seq<Offset>, start: Point)
    ensures IsRouteFrom(Waypoints(offsets, start), offsets, start)
  {
    if offsets != [] {
      var next := start.Shift(offsets[0]);
      WaypointsIsRoute(offsets[1..], next);
      var r := Waypoints(offsets, start);
      var tail := Waypoints(offsets[1..], next);
      assert r == [Leg(start, next)] + tail;
      forall i | 0 <= i < |r|
        ensures r[i].End() == r[i].Start().Shift(offsets[i])
      {
        if i > 0 { assert r[i] == tail[i - 1]; }
      }
      forall i | 0 <= i < |r| - 1
        ensures r[i + 1].Start() == r[i].End()
      {
        if i > 0 { assert r[i] == tail[i - 1] && r[i + 1] == tail[i]; }
      }
    }
  }

  /** The route properties determine the segments: any sequence satisfying
      them is the generated one. */
  lemma {:induction false} RouteIsWaypoints(r: seq<Segment>, offsets: seq<Offset>, start: Point)
    requires IsRouteFrom(r, offsets, start)
    ensures r == Waypoints(offsets, start)
  {
    if offsets != [] {
      var next := start.Shift(offsets[0]);
      assert r[0].End() == next;
      assert r[0] == Leg(start, next);
      var tail := r[1..];
      forall i | 0 <= i < |tail|
        ensures tail[i].End() == tail[i].Start().Shift(offsets[1..][i])
      {
        assert tail[i] == r[i + 1];
      }
      forall i | 0 <= i < |tail| - 1
        ensures tail[i + 1].Start() == tail[i].End()
      {
        assert tail[i] == r[i + 1] && tail[i + 1] == r[i + 2];
      }
      RouteIsWaypoints(tail, offsets[1..], next);
      assert r == [r[0]] + tail;
    }
  }

  /** The offset table has 21 entries and they cancel out. */
  lemma RouteOffsetsCancel()
    ensures |RouteOffsets| == 21
    ensures Total(RouteOffsets) == Offset(0, 0, 0)
  {
    // the sums of the table's suffixes, from the last entry back to the first
    assert TotalFrom(RouteOffsets, 20) == Offset(-9, 6, -4);
    assert TotalFrom(RouteOffsets, 19) == Offset(-16, 11, -5);
    assert TotalFrom(RouteOffsets, 18) == Offset(8, 18, 0);
    assert TotalFrom(RouteOffsets, 17) == Offset(-22, 16, 3);
    assert TotalFrom(RouteOffsets, 16) == Offset(-22, 21, 9);
    assert TotalFrom(RouteOffsets, 15) == Offset(-17, 21, 18);
    assert TotalFrom(RouteOffsets, 14) == Offset(-17, 20, 41);
    assert TotalFrom(RouteOffsets, 13) == Offset(-10, 19, 49);
    assert TotalFrom(RouteOffsets, 12) == Offset(4, 18, 40);
    assert TotalFrom(RouteOffsets, 11) == Offset(9, 16, 36);
    assert TotalFrom(RouteOffsets, 10) == Offset(4, 18, 25);
    assert TotalFrom(RouteOffsets, 9) == Offset(2, 20, 11);
    assert TotalFrom(RouteOffsets, 8) == Offset(-2, 7, 31);
    assert TotalFrom(RouteOffsets, 7) == Offset(-7, 4, 35);
    assert TotalFrom(RouteOffsets, 6) == Offset(-19, 4, 44);
    assert TotalFrom(RouteOffsets, 5) == Offset(-5, 18, 48);
    assert TotalFrom(RouteOffsets, 4) == Offset(-11, 12, 48);
    assert TotalFrom(RouteOffsets, 3) == Offset(18, 7, 45);
    assert TotalFrom(RouteOffsets, 2) == Offset(26, -1, 35);
    assert TotalFrom(RouteOffsets, 1) == Offset(22, -1, 7);
    TotalFromSuffix(RouteOffsets, 0);
    assert RouteOffsets[0..] == RouteOffsets;
  }

  /** The route generated from any start is a closed loop of 21 segments:
      it begins and ends at the start block. */
  lemma RouteReturnsToStart(start: Point)
    ensures |Waypoints(RouteOffsets, start)| == 21
    ensures Waypoints(RouteOffsets, start)[0].Start() == start
    ensures Waypoints(RouteOffsets, start)[20].End() == start
  {
    RouteOffsetsCancel();
    WaypointsEnd(RouteOffsets, start);
  }

  /** Walks `offsets` once from `start`, pushing one segment per offset and
      advancing the running point to the segment's end. */
  method Walk(offsets: seq<Offset>, start: Point) returns (waypoints: seq<Segment>)
    ensures waypoints == Waypoints(offsets, start)
  {
    waypoints := [];
    var current := start;
    for i := 0 to |offsets|
      invariant waypoints + Waypoints(offsets[i..], current) == Waypoints(offsets, start)
    {
      var offset := offsets[i];
      var nextPoint := Point(current.x + offset.dx, current.y + offset.dy, current.z + offset.dz);
      waypoints := waypoints + [Segment(current.x, current.y, current.z, nextPoint.x, nextPoint.y, nextPoint.z)];
      assert offsets[i..][1..] == offsets[i + 1..];
      current := nextPoint;
    }
    assert offsets[|offsets|..] == [];
  }

  /** The waypoints of the route table from the given start block. */
  method CalculateWaypoints(startX: int, startY: int, startZ: int) returns (waypoints: seq<Segment>)
    ensures waypoints == Waypoints(RouteOffsets, Point(startX, startY, startZ))
  {
    waypoints := Walk(RouteOffsets, Point(startX, startY, startZ));
  }
}
