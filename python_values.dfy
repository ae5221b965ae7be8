/** The Python values that reach the validators, with the two operations of
    the language the validators use on them: `isinstance` and the `in`
    operator on a list of strings. */
module PyValues {

  /** An argument as the Python runtime sees it: an `int`, a `bool`, a
      `float` (modelled as a real: no NaN, no infinities), a `str`, or a
      value of some class that is none of these and derives from none of
      them (None, lists, dicts, frames, ...), which is `Other`. Instances of
      user-defined subclasses of `int`, `float` or `str` (`numpy.float64`,
      say) are not modelled. */
  datatype Value =
    | Int(i: int)
    | Bool(b: bool)
    | Float(r: real)
    | Str(s: string)
    | Other

  /** The built-in classes that the validators test against. */
  datatype PyClass = IntClass | BoolClass | FloatClass | StrClass | OtherClass | ObjectClass

  /** The class of a value, `type(v)` in Python. */
  function ClassOf(v: Value): PyClass {
    match v
    case Int(_) => IntClass
    case Bool(_) => BoolClass
    case Float(_) => FloatClass
    case Str(_) => StrClass
    case Other => OtherClass
  }

  /** The method resolution order of a class: the class, then its bases.
      `bool` is a subclass of `int` in Python. */
  function Mro(c: PyClass): seq<PyClass> {
    match c
    case BoolClass => [BoolClass, IntClass, ObjectClass]
    case ObjectClass => [ObjectClass]
    case _ => [c, ObjectClass]
  }

  /** `isinstance(v, c)`: `c` is the class of `v` or one of its bases. */
  predicate IsInstance(v: Value, c: PyClass) {
    c in Mro(ClassOf(v))
  }

  /** `v == s` for a string `s`: a value equals a string only when it is a
      string with the same characters. */
  predicate EqualsStr(v: Value, s: string) {
    v.Str? && v.s == s
  }

  /** `v in xs` for a list of strings: a left-to-right scan that stops at the
      first element equal to `v`. */
  predicate InList(v: Value, xs: seq<string>)
    ensures InList(v, xs) ==> v.Str? && |xs| > 0
  {
    if xs == [] then false
    else EqualsStr(v, xs[0]) || InList(v, xs[1..])
  }

  /** The scan finds `v` exactly when `v` is a string that occurs in `xs`. */
  lemma {:induction false} InListIsMembership(v: Value, xs: seq<string>)
    ensures InList(v, xs) <==> v.Str? && v.s in xs
  {
    if xs != [] {
      InListIsMembership(v, xs[1..]);
      assert xs == [xs[0]] + xs[1..];
    }
  }

  /** The number a numeric value stands for in a comparison such as `v < 0`;
      `True` and `False` compare as 1 and 0. */
  function NumericValue(v: Value): real
    requires IsInstance(v, IntClass) || IsInstance(v, FloatClass)
  {
    match v
    case Int(i) => i as real
    case Bool(b) => if b then 1.0 else 0.0
    case Float(r) => r
  }
}
