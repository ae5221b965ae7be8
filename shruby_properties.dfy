/** Properties of the validation that relate several calls or several
    operations, and the consequences of the placeholder return. */
module ShrubyProperties {
  import opened Wrappers
  import opened PyValues
  import opened Shruby

  /** The metric test accepts exactly the strings listed in
      `DISTANCE_METRICS`, and that list holds five distinct names. */
  lemma MetricAcceptedIffListed(metric: Value)
    ensures CheckMetric(metric).Ok? <==> metric.Str? && metric.s in DistanceMetrics
    ensures |DistanceMetrics| == 5
    ensures forall i, j :: 0 <= i < j < |DistanceMetrics| ==> DistanceMetrics[i] != DistanceMetrics[j]
  {
  }

  /** An unknown unit such as "furlongs" is always the error reported by the
      two buffer operations, whatever the distance; `create_cones` reports
      it exactly when distance and orientation have passed, and otherwise
      reports the distance or orientation error. */
  lemma FurlongsRejected<Frame>(self: Frame, distance: Value, orientation: Value)
    ensures CreateBuffers(self, distance, Str("furlongs")) == Err(MetricNotRecognised)
    ensures FindInBuffer(self, distance, Str("furlongs")) == Err(MetricNotRecognised)
    ensures (CreateCones(self, distance, Str("furlongs"), orientation) == Err(MetricNotRecognised))
              <==> !distance.Other? && OrientationAccepted(orientation)
    ensures CreateCones(self, distance, Str("furlongs"), orientation).Err?
  {
  }

  /** For the same bad distance and bad metric, the buffer operations report
      the metric and `create_cones` reports the distance. */
  lemma PrecedenceDiffersBetweenOperations<Frame>(self: Frame, distance: Value, metric: Value, orientation: Value)
    requires distance.Other? && !IsRecognisedMetric(metric)
    ensures CreateBuffers(self, distance, metric) == Err(MetricNotRecognised)
    ensures FindInBuffer(self, distance, metric) == Err(MetricNotRecognised)
    ensures CreateCones(self, distance, metric, orientation) == Err(DistanceNotNumberOrString)
  {
  }

  /** In `create_cones` a rejected orientation is reported whatever the
      metric, once the distance has passed: every number outside [0, 360]
      gives the range error and every non-number, non-string the type error. */
  lemma OrientationBeforeMetric<Frame>(self: Frame, distance: Value, metric: Value, orientation: Value)
    requires !distance.Other?
    ensures IsNumber(orientation) && !InRange(orientation) ==>
              CreateCones(self, distance, metric, orientation) == Err(OrientationOutOfRange)
    ensures orientation.Other? ==>
              CreateCones(self, distance, metric, orientation) == Err(OrientationNotNumberOrString)
  {
  }

  /** Any string is taken as a column name, whether or not the frame has such
      a column and whatever the column holds: nothing about the string is
      examined. */
  lemma AnyStringIsAField<Frame>(self: Frame, column: string, orientation: string)
    ensures ClassifyDistance(Str(column)) == Ok(FieldDistance)
    ensures ClassifyOrientation(Str(orientation)) == Ok(FieldOrientation)
    ensures CreateBuffers(self, Str(column), Str("feet")) == Ok(BufferParams(FieldDistance, "feet"))
    ensures CreateCones(self, Str(column), Str("miles"), Str(orientation))
              == Ok(ConeParams(FieldDistance, FieldOrientation, "miles"))
  {
  }

  /** A constant distance is not checked for sign or size: a negative
      distance passes the validation. */
  lemma AnyNumberIsADistance<Frame>(self: Frame, d: int, x: real)
    ensures CreateBuffers(self, Int(d), Str("meters")) == Ok(BufferParams(ConstantDistance, "meters"))
    ensures CreateCones(self, Float(x), Str("kilometers"), Int(0))
              == Ok(ConeParams(ConstantDistance, AngleOrientation, "kilometers"))
  {
  }

  /** The bearing range is closed at both ends. */
  lemma OrientationBoundaries()
    ensures ClassifyOrientation(Int(0)) == Ok(AngleOrientation)
    ensures ClassifyOrientation(Int(360)) == Ok(AngleOrientation)
    ensures ClassifyOrientation(Float(360.0)) == Ok(AngleOrientation)
    ensures ClassifyOrientation(Int(350)) == Ok(AngleOrientation)
    ensures ClassifyOrientation(Int(-1)) == Err(OrientationOutOfRange)
    ensures ClassifyOrientation(Int(370)) == Err(OrientationOutOfRange)
    ensures ClassifyOrientation(Float(360.001)) == Err(OrientationOutOfRange)
  {
  }

  /** `bool` is a subclass of `int`, so `True` and `False` pass as numbers:
      as constant distances and as bearings 1 and 0. */
  lemma BooleansAreNumbers(b: bool)
    ensures NumericValue(Bool(b)) == if b then 1.0 else 0.0
    ensures ClassifyDistance(Bool(b)) == Ok(ConstantDistance)
    ensures ClassifyOrientation(Bool(b)) == Ok(AngleOrientation)
  {
  }

  /** The classifications carry the tags the source assigns to
      `distance_type` and `orientation_type`. */
  lemma KindNamesAreSourceTags(i: int, x: real, b: bool, s: string, v: Value)
    ensures ClassifyDistance(Int(i)).value.Name() == "distance"
    ensures ClassifyDistance(Float(x)).value.Name() == "distance"
    ensures ClassifyDistance(Bool(b)).value.Name() == "distance"
    ensures ClassifyDistance(Str(s)).value.Name() == "field"
    ensures ClassifyOrientation(Str(s)).value.Name() == "field"
    ensures ClassifyOrientation(Int(90)).value.Name() == "angle"
    ensures ClassifyOrientation(Bool(b)).value.Name() == "angle"
    ensures IsNumber(v) && InRange(v) ==> ClassifyOrientation(v).value.Name() == "angle"
    ensures IsNumber(v) ==> ClassifyDistance(v).value.Name() == "distance"
  {
  }

  /** The outcome depends on the arguments only, never on the frame. */
  lemma ValidationIgnoresFrame<Frame>(a: Frame, b: Frame, distance: Value, metric: Value, orientation: Value)
    ensures CreateBuffers(a, distance, metric) == CreateBuffers(b, distance, metric)
    ensures FindInBuffer(a, distance, metric) == FindInBuffer(b, distance, metric)
    ensures CreateCones(a, distance, metric, orientation) == CreateCones(b, distance, metric, orientation)
  {
  }

  /** Different validation errors have different messages, so a caller can
      tell from the `ValueError` which check failed. */
  lemma MessagesTellErrorsApart(e1: Error, e2: Error)
    requires e1 != FrameInitArity && e2 != FrameInitArity && e1 != e2
    ensures Message(e1) != Message(e2)
  {
    if Parameter(e1) != Parameter(e2) {
      // the messages start with different letters
      assert Message(e1)[0] == Parameter(e1)[0] && Message(e2)[0] == Parameter(e2)[0];
    } else {
      // the two orientation messages differ in length
      assert |Message(e1)| != |Message(e2)|;
    }
  }

  /** As written, a call that passes validation still raises:
      `create_buffers(5, "meters")`. */
  lemma ValidBufferCallRaisesAsWritten<Frame>(self: Frame)
    ensures CreateBuffers(self, Int(5), Str("meters")) == Ok(BufferParams(ConstantDistance, "meters"))
    ensures CreateBuffersAsWritten(self, Int(5), Str("meters")) == Err(FrameInitArity)
    ensures FindInBufferAsWritten(self, Int(5), Str("meters")) == Err(FrameInitArity)
    ensures CreateConesAsWritten(self, Int(5), Str("meters"), Int(90)) == Err(FrameInitArity)
  {
  }
}
