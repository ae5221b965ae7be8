/** The argument validation that opens the three public operations of
    `ShrubyFrame` (shruby/lib/__init__.py): buffers, buffer search and cones.
    Each operation is a function of its arguments whose result is either the
    classification the validation arrived at (`Ok`) or the exception it
    raised (`Err`). The geometry that would follow the validation is not
    part of the source and not part of this model. */
module Shruby {
  import opened Wrappers
  import opened PyValues

  /** `DISTANCE_METRICS`: the units a distance may be given in. */
  const DistanceMetrics: seq<string> := ["meters", "kilometers", "feet", "miles", "nautical_miles"]

  /** The exceptions the operations raise. All but the last are the
      `ValueError`s of the validation; the last is the `TypeError` that
      `ShrubyFrame()` raises because `__init__` requires an `sdf` argument. */
  datatype Error =
    | MetricNotRecognised
    | DistanceNotNumberOrString
    | OrientationOutOfRange
    | OrientationNotNumberOrString
    | FrameInitArity

  /** How a distance is given: a constant (`"distance"`) or the name of a
      column holding one distance per row (`"field"`). */
  datatype DistanceKind = ConstantDistance | FieldDistance {
    function Name(): string {
      if ConstantDistance? then "distance" else "field"
    }
  }

  /** How an orientation is given: a column name (`"field"`) or a constant
      bearing in degrees (`"angle"`). */
  datatype OrientationKind = FieldOrientation | AngleOrientation {
    function Name(): string {
      if FieldOrientation? then "field" else "angle"
    }
  }

  /** What a successful validation has established about the arguments. */
  datatype BufferParams = BufferParams(distance: DistanceKind, metric: string)
  datatype ConeParams = ConeParams(distance: DistanceKind, orientation: OrientationKind, metric: string)

  // ---------------------------------------------------------------------
  // Reference definitions: the accepted arguments, stated per kind of value

  /** The five metric names, spelled out. */
  predicate IsRecognisedMetric(metric: Value) {
    || metric == Str("meters")
    || metric == Str("kilometers")
    || metric == Str("feet")
    || metric == Str("miles")
    || metric == Str("nautical_miles")
  }

  /** The values Python counts as numbers here: ints, floats and booleans. */
  predicate IsNumber(v: Value) {
    v.Int? || v.Bool? || v.Float?
  }

  /** A numeric bearing within [0, 360], both ends included. Booleans stand
      for 0 and 1, so both are in range. */
  predicate InRange(v: Value)
    requires IsNumber(v)
  {
    match v
    case Int(i) => 0 <= i <= 360
    case Bool(_) => true
    case Float(r) => 0.0 <= r <= 360.0
  }

  predicate OrientationAccepted(v: Value) {
    v.Str? || (IsNumber(v) && InRange(v))
  }

  /** The kind a non-rejected distance is given as. */
  function KindOfDistance(v: Value): DistanceKind {
    if v.Str? then FieldDistance else ConstantDistance
  }

  function KindOfOrientation(v: Value): OrientationKind {
    if v.Str? then FieldOrientation else AngleOrientation
  }

  // ---------------------------------------------------------------------
  // The checks, as the source writes them

  /** `if metric not in DISTANCE_METRICS: raise ValueError(...)`. */
  function CheckMetric(metric: Value): (r: Result<string, Error>)
    ensures r.Ok? <==> IsRecognisedMetric(metric)
    ensures r.Ok? ==> metric == Str(r.value) && r.value in DistanceMetrics
    ensures r.Err? ==> r.error == MetricNotRecognised
  {
    InListIsMembership(metric, DistanceMetrics);
    if !InList(metric, DistanceMetrics) then Err(MetricNotRecognised)
    else Ok(metric.s)
  }

  /** Numbers are constant distances, strings are column names, and any other
      value is rejected. */
  function ClassifyDistance(distance: Value): (r: Result<DistanceKind, Error>)
    ensures r == Ok(ConstantDistance) <==> IsNumber(distance)
    ensures r == Ok(FieldDistance) <==> distance.Str?
    ensures r == Err(DistanceNotNumberOrString) <==> distance.Other?
  {
    if IsInstance(distance, IntClass) || IsInstance(distance, FloatClass) then
      Ok(ConstantDistance)
    else if IsInstance(distance, StrClass) then
      Ok(FieldDistance)
    else
      Err(DistanceNotNumberOrString)
  }

  /** Strings are column names and are not checked further; numbers are
      bearings and must lie in [0, 360]; any other value is rejected. */
  function ClassifyOrientation(orientation: Value): (r: Result<OrientationKind, Error>)
    ensures orientation.Str? ==> r == Ok(FieldOrientation)
    ensures IsNumber(orientation) && InRange(orientation) ==> r == Ok(AngleOrientation)
    ensures IsNumber(orientation) && !InRange(orientation) ==> r == Err(OrientationOutOfRange)
    ensures orientation.Other? ==> r == Err(OrientationNotNumberOrString)
  {
    if IsInstance(orientation, StrClass) then
      Ok(FieldOrientation)
    else if IsInstance(orientation, IntClass) || IsInstance(orientation, FloatClass) then
      if NumericValue(orientation) < 0.0 || NumericValue(orientation) > 360.0 then
        Err(OrientationOutOfRange)
      else
        Ok(AngleOrientation)
    else
      Err(OrientationNotNumberOrString)
  }

  // ---------------------------------------------------------------------
  // The three operations. `self` is the frame the method is called on.

  /** `create_buffers(distance, metric)`: the metric is checked before the
      distance. */
  function CreateBuffers<Frame>(self: Frame, distance: Value, metric: Value): (r: Result<BufferParams, Error>)
    ensures !IsRecognisedMetric(metric) ==> r == Err(MetricNotRecognised)
    ensures IsRecognisedMetric(metric) && distance.Other? ==> r == Err(DistanceNotNumberOrString)
    ensures r.Ok? <==> IsRecognisedMetric(metric) && !distance.Other?
    ensures r.Ok? ==> r.value == BufferParams(KindOfDistance(distance), metric.s)
  {
    var unit :- CheckMetric(metric);
    var kind :- ClassifyDistance(distance);
    Ok(BufferParams(kind, unit))
  }

  /** `find_in_buffer(distance, metric)`: the same checks, in the same order,
      as `create_buffers`. */
  function FindInBuffer<Frame>(self: Frame, distance: Value, metric: Value): (r: Result<BufferParams, Error>)
    ensures r == CreateBuffers(self, distance, metric)
  {
    var unit :- CheckMetric(metric);
    var kind :- ClassifyDistance(distance);
    Ok(BufferParams(kind, unit))
  }

  /** `create_cones(distance, metric, orientation)`: the distance is checked
      first, then the orientation, and the metric last. */
  function CreateCones<Frame>(self: Frame, distance: Value, metric: Value, orientation: Value): (r: Result<ConeParams, Error>)
    ensures distance.Other? ==> r == Err(DistanceNotNumberOrString)
    ensures !distance.Other? && orientation.Other? ==> r == Err(OrientationNotNumberOrString)
    ensures !distance.Other? && IsNumber(orientation) && !InRange(orientation) ==> r == Err(OrientationOutOfRange)
    ensures !distance.Other? && OrientationAccepted(orientation) && !IsRecognisedMetric(metric) ==>
              r == Err(MetricNotRecognised)
    ensures r.Ok? <==> !distance.Other? && OrientationAccepted(orientation) && IsRecognisedMetric(metric)
    ensures r.Ok? ==> r.value == ConeParams(KindOfDistance(distance), KindOfOrientation(orientation), metric.s)
  {
    var kind :- ClassifyDistance(distance);
    var bearing :- ClassifyOrientation(orientation);
    var unit :- CheckMetric(metric);
    Ok(ConeParams(kind, bearing, unit))
  }

  // ---------------------------------------------------------------------
  // What the caller sees of an error

  function ExceptionClass(e: Error): string {
    if e == FrameInitArity then "TypeError" else "ValueError"
  }

  /** The argument a validation error is about. */
  function Parameter(e: Error): string
    requires e != FrameInitArity
  {
    match e
    case MetricNotRecognised => "metric"
    case DistanceNotNumberOrString => "distance"
    case OrientationOutOfRange => "orientation"
    case OrientationNotNumberOrString => "orientation"
  }

  /** The message of each `ValueError`, which opens with the name of the
      argument at fault. The metric message is `DISTANCE_METRICS` as
      `str.format` prints a list of strings. */
  function Message(e: Error): (r: string)
    requires e != FrameInitArity
    ensures Parameter(e) <= r
  {
    match e
    case MetricNotRecognised => "metric" + " must be one of ['meters', 'kilometers', 'feet', 'miles', 'nautical_miles']"
    case DistanceNotNumberOrString => "distance" + " must be a number or a string"
    case OrientationOutOfRange => "orientation" + " must be between 0 and 360"
    case OrientationNotNumberOrString => "orientation" + " must be a number or a string"
  }

  // ---------------------------------------------------------------------
  // The placeholder return, as written

  /** `ShrubyFrame(*args)`: `__init__(self, sdf)` takes exactly one argument
      besides `self`; any other number of arguments raises a `TypeError`
      before the frame is built. With one argument, the outcome is that of
      the GeoDataFrame constructor called at line 9, which is third-party
      code and is given as `superInit`. */
  function NewFrame(args: seq<Value>, superInit: Result<(), Error>): (r: Result<(), Error>)
    ensures |args| != 1 ==> r == Err(FrameInitArity) && ExceptionClass(r.error) == "TypeError"
    ensures |args| == 1 ==> r == superInit
  {
    if |args| == 1 then superInit else Err(FrameInitArity)
  }

  /** `create_buffers` as written: the validation, then `return ShrubyFrame()`.
      No call returns: a call that fails validation raises its `ValueError`,
      and one that passes raises the `TypeError` of the placeholder. */
  function CreateBuffersAsWritten<Frame>(self: Frame, distance: Value, metric: Value): (r: Result<(), Error>)
    ensures r.Err?
    ensures CreateBuffers(self, distance, metric).Ok? ==>
              r == Err(FrameInitArity) && ExceptionClass(r.error) == "TypeError"
    ensures CreateBuffers(self, distance, metric).Err? ==>
              r == Err(CreateBuffers(self, distance, metric).error) && ExceptionClass(r.error) == "ValueError"
  {
    var _ :- CreateBuffers(self, distance, metric);
    NewFrame([], Ok(()))  // no argument: the GeoDataFrame constructor is never reached
  }

  /** `find_in_buffer` as written: the validation, then `return ShrubyFrame()`. */
  function FindInBufferAsWritten<Frame>(self: Frame, distance: Value, metric: Value): (r: Result<(), Error>)
    ensures r.Err?
    ensures FindInBuffer(self, distance, metric).Ok? ==>
              r == Err(FrameInitArity) && ExceptionClass(r.error) == "TypeError"
    ensures FindInBuffer(self, distance, metric).Err? ==>
              r == Err(FindInBuffer(self, distance, metric).error) && ExceptionClass(r.error) == "ValueError"
  {
    var _ :- FindInBuffer(self, distance, metric);
    NewFrame([], Ok(()))  // no argument: the GeoDataFrame constructor is never reached
  }

  /** `create_cones` as written: the validation, then `return ShrubyFrame()`. */
  function CreateConesAsWritten<Frame>(self: Frame, distance: Value, metric: Value, orientation: Value): (r: Result<(), Error>)
    ensures r.Err?
    ensures CreateCones(self, distance, metric, orientation).Ok? ==>
              r == Err(FrameInitArity) && ExceptionClass(r.error) == "TypeError"
    ensures CreateCones(self, distance, metric, orientation).Err? ==>
              r == Err(CreateCones(self, distance, metric, orientation).error) && ExceptionClass(r.error) == "ValueError"
  {
    var _ :- CreateCones(self, distance, metric, orientation);
    NewFrame([], Ok(()))  // no argument: the GeoDataFrame constructor is never reached
  }
}
