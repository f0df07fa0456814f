/** The bandwidth chart (BandwidthUsageChart): one point per user summary,
    largest total first, and the size of the drawing. */
module Chart {
  import opened JsValues
  import opened Ordering

  /** A chart point: the user and the total `Number(totalRx || 0) +
      Number(totalTx || 0)`, with NaN as none. */
  datatype Point = Point(user: Value, value: Option<real>)

  /** `+` on two numbers, NaN if either is. */
  function Plus(a: Option<real>, b: Option<real>): (r: Option<real>)
    ensures r.Some? <==> a.Some? && b.Some?
    ensures r.Some? ==> r.value == a.value + b.value
  {
    if a.Some? && b.Some? then Some(a.value + b.value) else None
  }

  /** `Number(v || 0)` */
  function NumberOrZero(v: Value): Option<real> {
    ToNumber(Or(v, Num(0.0)))
  }

  /** The point of one summary item; reading `user` from null or undefined
      throws. */
  function PointOf(item: Value): (r: Completion<Point>)
    ensures r.Throw? <==> Nullish(item)
  {
    if Nullish(item) then Throw(ReadError(item, "user"))
    else Normal(Point(Get(item, "user"), Plus(NumberOrZero(Get(item, "totalRx")), NumberOrZero(Get(item, "totalTx")))))
  }

  function ValueKey(): Point -> Option<real> {
    (p: Point) => p.value
  }

  /** `(a, b) => b.value - a.value` */
  function ByValue(): (Point, Point) -> int {
    (a: Point, b: Point) => NumericOrder(a.value, b.value, true)
  }

  /** The `points` memo: none for data that is not an array or is empty,
      else the points of the items sorted by value, largest first. */
  function Points(data: Value): (r: Completion<seq<Point>>)
    ensures !data.Arr? ==> r == Normal([])
    ensures data == Arr([]) ==> r == Normal([])
  {
    if !data.Arr? || data.items == [] then Normal([])
    else
      match MapThrow(data.items, PointOf)
      case Throw(m) => Throw(m)
      case Normal(list) => Normal(Sort(list, ByValue()))
  }

  /** There is one point per item, each the point of an item, and the chart
      throws exactly when an item is null or undefined. */
  lemma PointsOfItems(items: seq<Value>)
    ensures Points(Arr(items)).Throw? <==> exists i :: 0 <= i < |items| && Nullish(items[i])
    ensures Points(Arr(items)).Normal? ==>
      var ps := Points(Arr(items)).value;
      |ps| == |items| && forall p :: p in ps ==> exists i :: 0 <= i < |items| && PointOf(items[i]) == Normal(p)
    ensures Points(Arr(items)).Normal? ==>
      && MapThrow(items, PointOf).Normal?
      && multiset(Points(Arr(items)).value) == multiset(MapThrow(items, PointOf).value)
  {
    MapThrowShape(items, PointOf);
    var r := MapThrow(items, PointOf);
    if items != [] && r.Normal? {
      SortPermutes(r.value, ByValue());
      SortMembers(r.value, ByValue());
      assert |Sort(r.value, ByValue())| == |r.value| by {
        assert |multiset(Sort(r.value, ByValue()))| == |multiset(r.value)|;
      }
      forall p | p in Sort(r.value, ByValue())
        ensures exists i :: 0 <= i < |items| && PointOf(items[i]) == Normal(p)
      {
        var i :| 0 <= i < |r.value| && r.value[i] == p;
        assert PointOf(items[i]) == Normal(p);
      }
    }
  }

  /** When every total is a number the points are in non-increasing order. */
  lemma PointsDescending(items: seq<Value>)
    requires Points(Arr(items)).Normal?
    requires forall i :: 0 <= i < |items| ==> PointOf(items[i]).Normal? && PointOf(items[i]).value.value.Some?
    ensures OrderedByKey(Points(Arr(items)).value, ValueKey(), true)
  {
    if items != [] {
      var list := MapThrow(items, PointOf).value;
      MapThrowShape(items, PointOf);
      forall p | p in list ensures ValueKey()(p).Some? {
        var i :| 0 <= i < |list| && list[i] == p;
      }
      SortByNumber(list, ByValue(), ValueKey(), true);
    }
  }

  // ---------------------------------------------------------------------------
  // The drawing

  /** `Math.min(Math.max(300, n * 60), 1200)` */
  function Width(n: nat): (w: int)
    ensures 300 <= w <= 1200
    ensures n <= 5 ==> w == 300
    ensures 20 <= n ==> w == 1200
    ensures 5 <= n <= 20 ==> w == n * 60
  {
    var wide := if 300 >= n * 60 then 300 else n * 60;
    if wide <= 1200 then wide else 1200
  }

  /** `Math.max(1, ...values)`: NaN when any value is. */
  function MaxVal(points: seq<Point>): (m: Option<real>)
    ensures m.None? <==> exists i :: 0 <= i < |points| && points[i].value.None?
    ensures m.Some? ==> 1.0 <= m.value && forall i :: 0 <= i < |points| ==> points[i].value.value <= m.value
    ensures m.Some? ==> m.value == 1.0 || exists i :: 0 <= i < |points| && points[i].value == m
  {
    if points == [] then Some(1.0)
    else
      var n := |points| - 1;
      var front := MaxVal(points[..n]);
      var last := points[n].value;
      if front.None? || last.None? then None
      else if last.value > front.value then last
      else front
  }

  /** `points.length > 1 ? width / (n - 1) : width`: the last point lands on
      the right edge. */
  function Step(n: nat, width: int): (step: real)
    ensures n > 1 ==> (n - 1) as real * step == width as real
    ensures n <= 1 ==> step == width as real
  {
    if n > 1 then width as real / (n - 1) as real else width as real
  }

  datatype Layout =
    | NoSummary
    | Drawing(points: seq<Point>, width: int, maxVal: Option<real>, step: real)

  /** What the chart shows: the "no usage summary" card when there are no
      points, else the points and the size of the drawing. */
  function ChartLayout(data: Value): (r: Completion<Layout>)
    ensures r.Throw? <==> Points(data).Throw?
  {
    match Points(data)
    case Throw(m) => Throw(m)
    case Normal(ps) =>
      if ps == [] then Normal(NoSummary)
      else
        var w := Width(|ps|);
        Normal(Drawing(ps, w, MaxVal(ps), Step(|ps|, w)))
  }

  /** Data that is not an array, or an empty array, shows no summary; any
      other array with no null items is drawn. */
  lemma LayoutCases(data: Value)
    ensures !data.Arr? || data.items == [] ==> ChartLayout(data) == Normal(NoSummary)
    ensures data.Arr? && data.items != [] && (forall i :: 0 <= i < |data.items| ==> !Nullish(data.items[i])) ==>
      ChartLayout(data).Normal? && ChartLayout(data).value.Drawing? &&
      |ChartLayout(data).value.points| == |data.items|
  {
    if data.Arr? {
      PointsOfItems(data.items);
    }
  }
}
