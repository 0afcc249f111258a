/**
 * The `Position` record, its decoding from one row of the positions reply by
 * positional unpacking, and the projection of decoded positions onto the
 * point features handed to the layer's data provider.
 */
module Positions {
  import opened Wrappers
  import opened Json

  /** The number of fields of a Position, hence of a row that decodes. */
  const PositionArity := 10

  /** The ten fields of a position, in the provider's order. Values pass through undecoded. */
  datatype Position = Position(
    mmsi: Json,
    dateTimeUtc: Json,
    longitude: Json,
    latitude: Json,
    cog: Json,
    sog: Json,
    aisMsgType: Json,
    calcSpeed: Json,
    secPrevpoint: Json,
    distPrevpoint: Json)

  /** A position as the tuple it is: its fields in declaration order. */
  function Fields(p: Position): (r: seq<Json>)
    ensures |r| == PositionArity
  {
    [p.mmsi, p.dateTimeUtc, p.longitude, p.latitude, p.cog, p.sog,
     p.aisMsgType, p.calcSpeed, p.secPrevpoint, p.distPrevpoint]
  }

  /** `Position(*xs)` for exactly ten arguments. */
  function FromFields(xs: seq<Json>): (p: Position)
    requires |xs| == PositionArity
    ensures Fields(p) == xs
  {
    Position(xs[0], xs[1], xs[2], xs[3], xs[4], xs[5], xs[6], xs[7], xs[8], xs[9])
  }

  /**
   * `Position(*row)`: succeeds exactly when iterating the row yields ten
   * values; a row of any other arity, or one that is not iterable, raises.
   */
  function DecodePosition(row: Json): (r: Option<Position>)
    ensures r.Some? <==> Elements(row).Some? && |Elements(row).value| == PositionArity
    ensures r.Some? ==> Fields(r.value) == Elements(row).value
  {
    match Elements(row)
    case None => None
    case Some(xs) => if |xs| == PositionArity then Some(FromFields(xs)) else None
  }

  /** A row that decodes into a Position. */
  predicate IsPositionRow(row: Json) {
    DecodePosition(row).Some?
  }

  /** Decoding the list of a position's fields gives the position back. */
  lemma DecodeFields(p: Position)
    ensures DecodePosition(JArr(Fields(p))) == Some(p)
  {
    var q := DecodePosition(JArr(Fields(p))).value;
    assert Fields(q) == Fields(p);
  }

  /** A point geometry `QgsPointXY(x, y)`. */
  datatype Point = Point(x: Json, y: Json)

  /** A feature: its point geometry and its attribute list. */
  datatype Feature = Feature(geometry: Point, attributes: seq<Json>)

  /** The feature built for one position. */
  function ToFeature(shipname: Json, p: Position): (f: Feature)
    ensures |f.attributes| == PositionArity - 1
  {
    Feature(
      Point(p.longitude, p.latitude),
      [shipname, p.mmsi, p.dateTimeUtc, p.cog, p.sog, p.aisMsgType,
       p.calcSpeed, p.secPrevpoint, p.distPrevpoint])
  }

  /**
   * A feature is located at (longitude, latitude), the third and fourth
   * fields, and its attributes are the ship's name followed by every other
   * field in order.
   */
  lemma FeatureLayout(shipname: Json, p: Position)
    ensures ToFeature(shipname, p).geometry == Point(Fields(p)[2], Fields(p)[3])
    ensures ToFeature(shipname, p).attributes == [shipname] + Fields(p)[..2] + Fields(p)[4..]
  {
  }

  /** The features one row contributes: one if it decodes, none if it is skipped. */
  function RowFeatures(row: Json, shipname: Json): (fs: seq<Feature>)
    ensures |fs| == if IsPositionRow(row) then 1 else 0
  {
    match DecodePosition(row)
    case None => []
    case Some(p) => [ToFeature(shipname, p)]
  }

  /** The features of all rows, in row order. */
  function Project(rows: seq<Json>, shipname: Json): (fs: seq<Feature>)
    ensures |fs| <= |rows|
  {
    if rows == [] then [] else RowFeatures(rows[0], shipname) + Project(rows[1..], shipname)
  }

  /** A single row projects onto its own features. */
  lemma ProjectSingleton(row: Json, shipname: Json)
    ensures Project([row], shipname) == RowFeatures(row, shipname)
  {
    assert [row][1..] == [];
  }

  /** The number of rows that decode, counted from the back. */
  function CountPositionRows(rows: seq<Json>): nat {
    if rows == [] then 0
    else CountPositionRows(rows[..|rows| - 1]) + (if IsPositionRow(rows[|rows| - 1]) then 1 else 0)
  }

  /** Projection distributes over concatenation: a row's features never depend on its neighbours. */
  lemma {:induction false} ProjectAppend(a: seq<Json>, b: seq<Json>, shipname: Json)
    ensures Project(a + b, shipname) == Project(a, shipname) + Project(b, shipname)
  {
    if a != [] {
      assert (a + b)[1..] == a[1..] + b;
      ProjectAppend(a[1..], b, shipname);
    } else {
      assert a + b == b;
    }
  }

  /** One feature per decoding row: the feature count is the number of ten-element rows. */
  lemma {:induction false} ProjectCount(rows: seq<Json>, shipname: Json)
    ensures |Project(rows, shipname)| == CountPositionRows(rows)
  {
    if rows != [] {
      var init, last := rows[..|rows| - 1], rows[|rows| - 1];
      assert rows == init + [last];
      ProjectAppend(init, [last], shipname);
      ProjectCount(init, shipname);
      ProjectSingleton(last, shipname);
    }
  }

  /** A row that does not decode is skipped without disturbing the rows around it. */
  lemma SkipMalformedRow(before: seq<Json>, row: Json, after: seq<Json>, shipname: Json)
    requires !IsPositionRow(row)
    ensures Project(before + [row] + after, shipname) == Project(before + after, shipname)
  {
    ProjectAppend(before + [row], after, shipname);
    ProjectAppend(before, [row], shipname);
    ProjectAppend(before, after, shipname);
    ProjectSingleton(row, shipname);
  }

  /** `row` decodes and `f` is the feature built from it. */
  predicate Yields(row: Json, shipname: Json, f: Feature) {
    IsPositionRow(row) && f == ToFeature(shipname, DecodePosition(row).value)
  }

  /** Every feature comes from a decoding row, built from that row's fields. */
  lemma {:induction false} ProjectSound(rows: seq<Json>, shipname: Json, k: nat)
    requires k < |Project(rows, shipname)|
    ensures exists i :: 0 <= i < |rows| && Yields(rows[i], shipname, Project(rows, shipname)[k])
  {
    var i := SourceRow(rows, shipname, k);
    SourceRowYields(rows, shipname, k);
  }

  /** The index of the row the k-th feature comes from. */
  ghost function SourceRow(rows: seq<Json>, shipname: Json, k: nat): nat
    requires k < |Project(rows, shipname)|
  {
    var n := |RowFeatures(rows[0], shipname)|;
    if k < n then 0 else 1 + SourceRow(rows[1..], shipname, k - n)
  }

  lemma {:induction false} SourceRowYields(rows: seq<Json>, shipname: Json, k: nat)
    requires k < |Project(rows, shipname)|
    ensures SourceRow(rows, shipname, k) < |rows|
    ensures Yields(rows[SourceRow(rows, shipname, k)], shipname, Project(rows, shipname)[k])
  {
    var head, tail := RowFeatures(rows[0], shipname), Project(rows[1..], shipname);
    assert Project(rows, shipname) == head + tail;
    if k >= |head| {
      SourceRowYields(rows[1..], shipname, k - |head|);
      assert rows[1..][SourceRow(rows[1..], shipname, k - |head|)] == rows[SourceRow(rows, shipname, k)];
    }
  }

  /** Every decoding row yields its feature. */
  lemma {:induction false} ProjectComplete(rows: seq<Json>, shipname: Json, i: nat)
    requires i < |rows| && IsPositionRow(rows[i])
    ensures ToFeature(shipname, DecodePosition(rows[i]).value) in Project(rows, shipname)
  {
    if i > 0 {
      assert rows[1..][i - 1] == rows[i];
      ProjectComplete(rows[1..], shipname, i - 1);
    }
  }

  /** The sample row quoted in a string literal inside `run` decodes into one position at (21.7261, 70.4006). */
  lemma SampleRow()
    ensures
      var row := JArr([JNum(258500000.0), JStr("2019-01-02T00:00:02"), JNum(21.7261), JNum(70.4006),
                       JNum(115.3), JNum(15.1), JNum(3.0), JNum(40.8), JNum(1.0), JNum(21.0)]);
      DecodePosition(row).Some?
      && DecodePosition(row).value.mmsi == JNum(258500000.0)
      && ToFeature(JStr("Unknown"), DecodePosition(row).value).geometry == Point(JNum(21.7261), JNum(70.4006))
  {
  }

  /** The layer's data provider: the features added to it so far. */
  class FeatureProvider {
    var features: seq<Feature>

    constructor ()
      ensures features == []
    {
      features := [];
    }

    /** `addFeatures(batch)`: appends the batch. */
    method AddFeatures(batch: seq<Feature>)
      modifies this
      ensures features == old(features) + batch
    {
      features := features + batch;
    }
  }

  /**
   * The loop of `run` over the rows of the positions reply: each row that
   * decodes becomes one feature added to the provider, the others are
   * skipped (the exception is logged and the loop continues).
   */
  method AddPositions(pr: FeatureProvider, rows: seq<Json>, shipname: Json)
    modifies pr
    ensures pr.features == old(pr.features) + Project(rows, shipname)
  {
    var i := 0;
    while i < |rows|
      invariant 0 <= i <= |rows|
      invariant pr.features == old(pr.features) + Project(rows[..i], shipname)
    {
      var row := rows[i];
      match DecodePosition(row) {
        case None =>
        case Some(pos) =>
          var feature := ToFeature(shipname, pos);
          pr.AddFeatures([feature]);
      }
      assert rows[..i + 1] == rows[..i] + [row];
      ProjectAppend(rows[..i], [row], shipname);
      ProjectSingleton(row, shipname);
      i := i + 1;
    }
    assert rows[..i] == rows;
  }
}
