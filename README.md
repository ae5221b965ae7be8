# Shruby argument validation in Dafny

Shruby's `ShrubyFrame` is a GeoDataFrame subclass with three public operations:
`create_buffers(distance, metric)`, `find_in_buffer(distance, metric)` and
`create_cones(distance, metric, orientation)`. In the repository, each operation
validates its arguments and then ends in `return ShrubyFrame()`.
No buffer, cone, intersection or unit conversion is computed. This project models
that validation and proves what it accepts, what it rejects, and which error
wins when several arguments are wrong.

Files:

- `wrappers.dfy`, module `Wrappers`: the `Result` type, `Ok(value)` or `Err(error)`. It works with `:-`, so a check that fails stops the operation the way `raise` does.
- `python_values.dfy`, module `PyValues`: the Python values an argument can be (`Int`, `Bool`, `Float`, `Str`, `Other`). It also models the two language operations the validation uses: `isinstance`, through each class's method resolution order (so `bool` counts as an `int`), and `in` on a list of strings, as a left-to-right scan.
- `shruby_frame.dfy`, module `Shruby`: `DISTANCE_METRICS`, the error kinds and their messages, and the three checks (metric, distance, orientation). It also has the three operations, composed in the source's order, and the operations as written, which end in `ShrubyFrame()`.
- `shruby_properties.dfy`, module `ShrubyProperties`: lemmas that relate operations and arguments.

Each operation returns `Ok` with the classification the source computes. That is `distance_type` (`"distance"` or `"field"`), `orientation_type` (`"field"` or `"angle"`) and the accepted metric name. On failure it returns `Err` with the exception that was raised. The frame the method is called on is a type parameter `self: Frame`. The validation never looks at it.

The docstrings and the code disagree in places; the model follows the code:

- `distance` is documented as "Required Float" (lines 30, 55, 81), but ints, booleans and strings are accepted too (lines 39-42, 65-68, 90-93).
- `orientation` is documented as "Required String" (line 85), but numbers in [0, 360] are accepted too (lines 99-102).
- `create_cones` checks the metric last, so a bad distance or orientation is reported first (`FurlongsRejected`, `PrecedenceDiffersBetweenOperations`). The two buffer operations check the metric first.
- Any string is accepted as a field; nothing checks that the column exists or what it holds (lines 41-42, `AnyStringIsAField`).
- Any number passes as a distance, negative ones included (lines 39-40, `AnyNumberIsADistance`).
- The metric is only tested for membership in `DISTANCE_METRICS`; there are no conversion factors.

## Model

| member | source | states |
|---|---|---|
| `PyValues.InListIsMembership` | shruby/lib/__init__.py:37 | the list `in` scan finds a value exactly when it is a string equal to one of the list's elements; a value of any other type is never found |
| `PyValues.InList` | shruby/lib/__init__.py:37 | the `in` scan never finds a value that is not a string, and finds nothing in an empty list; the full statement is `PyValues.InListIsMembership` |
| `Shruby.CheckMetric` | shruby/lib/__init__.py:37-38 | the metric passes iff it is one of the strings "meters", "kilometers", "feet", "miles", "nautical_miles"; then the accepted name is that string and is in `DISTANCE_METRICS`; otherwise the error is the metric error |
| `ShrubyProperties.MetricAcceptedIffListed` | shruby/lib/__init__.py:5 | the metric test accepts exactly the members of `DISTANCE_METRICS`, which has five distinct names |
| `Shruby.ClassifyDistance` | shruby/lib/__init__.py:39-44 | three-way and total: ints, booleans and floats give the constant kind, strings give the field kind, and every other value gives the "distance must be a number or a string" error |
| `Shruby.ClassifyOrientation` | shruby/lib/__init__.py:97-104 | strings are field references with no range check; a number is an angle iff 0 <= value <= 360 and otherwise gives the range error; every other value gives the "orientation must be a number or a string" error |
| `Shruby.CreateBuffers` | shruby/lib/__init__.py:37-44 | a metric outside the five names is reported whatever the distance; with a good metric a non-number, non-string distance is reported; it succeeds iff both pass, with the distance's kind and the metric name |
| `Shruby.FindInBuffer` | shruby/lib/__init__.py:63-70 | gives the same outcome as `create_buffers` for every (distance, metric) pair |
| `Shruby.CreateCones` | shruby/lib/__init__.py:90-106 | checks the distance type first, then the orientation (its type, then its range), then the metric; it succeeds iff all three pass, with both kinds and the metric name |
| `ShrubyProperties.FurlongsRejected` | shruby/lib/__init__.py:37-38 | "furlongs" is the error reported by both buffer operations for every distance; `create_cones` fails for every distance and orientation, and reports the metric exactly when distance and orientation pass |
| `ShrubyProperties.PrecedenceDiffersBetweenOperations` | shruby/lib/__init__.py:90-106 | when both the distance type and the metric are bad, the buffer operations report the metric and `create_cones` reports the distance |
| `ShrubyProperties.OrientationBeforeMetric` | shruby/lib/__init__.py:97-106 | in `create_cones` with an accepted distance, every number outside [0, 360] gives the range error and every non-number, non-string orientation the type error, whatever the metric |
| `ShrubyProperties.AnyStringIsAField` | shruby/lib/__init__.py:41-42 | every string, including one that names no column, is accepted as a field reference, for the distance and for the orientation |
| `ShrubyProperties.AnyNumberIsADistance` | shruby/lib/__init__.py:39-40 | every number, negative ones included, is accepted as a constant distance |
| `ShrubyProperties.OrientationBoundaries` | shruby/lib/__init__.py:100-102 | 0, 350 and 360 are accepted as angles; -1, 370 and 360.001 give the range error |
| `ShrubyProperties.BooleansAreNumbers` | shruby/lib/__init__.py:99 | `True` and `False` compare as 1 and 0 and pass the numeric test, as constant distances and as in-range bearings |
| `ShrubyProperties.KindNamesAreSourceTags` | shruby/lib/__init__.py:90-102 | every number is tagged "distance" and every string "field" as a distance; every string is tagged "field" and every number in [0, 360] "angle" as an orientation (an out-of-range number gets no tag) |
| `ShrubyProperties.ValidationIgnoresFrame` | shruby/lib/__init__.py:37-44 | the outcome of each operation is the same on any two frames: it depends on the arguments only |
| `Shruby.Message` | shruby/lib/__init__.py:38 | each `ValueError` message (lines 38, 44, 101, 104) opens with the name of the argument at fault |
| `ShrubyProperties.MessagesTellErrorsApart` | shruby/lib/__init__.py:37-106 | the four `ValueError` messages are pairwise different, so the message identifies the failed check |
| `Shruby.NewFrame` | shruby/lib/__init__.py:8-9 | `ShrubyFrame(...)` with other than exactly one argument raises a `TypeError`; with one argument, `sdf`, the outcome is that of the GeoDataFrame constructor, which is not modelled and is a parameter |
| `Shruby.CreateBuffersAsWritten` | shruby/lib/__init__.py:37-46 | as written, `create_buffers` never returns: it raises the validation's `ValueError` or, past validation, the `TypeError` of `ShrubyFrame()` at line 46 |
| `Shruby.FindInBufferAsWritten` | shruby/lib/__init__.py:63-72 | as written, `find_in_buffer` never returns: it raises the validation's `ValueError` or, past validation, the `TypeError` of `ShrubyFrame()` at line 72 |
| `Shruby.CreateConesAsWritten` | shruby/lib/__init__.py:90-109 | as written, `create_cones` never returns: it raises the validation's `ValueError` or, past validation, the `TypeError` of `ShrubyFrame()` at line 109 |
| `ShrubyProperties.ValidBufferCallRaisesAsWritten` | shruby/lib/__init__.py:46 | `create_buffers(5, "meters")` passes validation and, as written, still raises the `TypeError`; so do `find_in_buffer(5, "meters")` and `create_cones(5, "meters", 90)` |

## Findings

| source | as written | input that shows it | evidently intended | confidence | as-written member | corrected member |
|---|---|---|---|---|---|---|
| shruby/lib/__init__.py:46 | `return ShrubyFrame()` calls `__init__(self, sdf)` without `sdf` | `create_buffers(5, "meters")` | return a frame once validation passes | high, not executed | `Shruby.CreateBuffersAsWritten` (with `ShrubyProperties.ValidBufferCallRaisesAsWritten`) | `Shruby.CreateBuffers` |
| shruby/lib/__init__.py:72 | `return ShrubyFrame()` calls `__init__(self, sdf)` without `sdf` | `find_in_buffer(5, "meters")` | return a frame once validation passes | high, not executed | `Shruby.FindInBufferAsWritten` (with `ShrubyProperties.ValidBufferCallRaisesAsWritten`) | `Shruby.FindInBuffer` |
| shruby/lib/__init__.py:109 | `return ShrubyFrame()` calls `__init__(self, sdf)` without `sdf` | `create_cones(5, "meters", 90)` | return a frame once validation passes | high, not executed | `Shruby.CreateConesAsWritten` (with `ShrubyProperties.ValidBufferCallRaisesAsWritten`) | `Shruby.CreateCones` |

The corrected members return `Ok` with the validated classification. No frame content is built, because the source builds none.

## Left out

- The GeoDataFrame superclass, `arcgis` and `shapely` (lines 1-3, 7-9): third-party code. The frame is a type parameter the validation never reads, and the outcome of the superclass constructor at line 9 is a parameter of `Shruby.NewFrame`.
- `_access_shape` (lines 11-21): a column lookup on a foreign dataframe, declared without `self`. It is not called by the validation.
- Buffer and cone geometry, intersection filtering and unit conversion: none of them exists in the source.
- The frame a successful call would return: the model returns the classification instead (see Findings).
- Floating point: Python floats are modelled as reals. NaN passes the range test at line 100 and infinities fail it. Neither is modelled.
- Instances of subclasses of `int`, `float` or `str` (`numpy.float64`, say, which passes `isinstance(x, float)` at lines 39 and 99) and objects with a custom `__eq__` that could equal a metric name: these values are outside the model. `Other` stands only for values whose class derives from none of `int`, `float` and `str` and that equal no string.
- The text of the `TypeError` raised by `ShrubyFrame()`: it differs between Python versions. Only its class is modelled (`ExceptionClass`).
