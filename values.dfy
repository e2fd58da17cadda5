/** The dynamically typed values of the language (a C# `object?` holding
    null, a bool, a double or a string) and the truthiness and equality
    helpers of src/Lox/Extensions/ObjectExtensions.cs. */
module Values {

  /** Numbers are kept abstract: the source uses C# doubles, the model uses
      exact reals, so rounding, infinities and NaN are not modelled. */
  type Number = real

  datatype Value = Nil | Bool(b: bool) | Num(n: Number) | Str(s: string)

  /** `IsTruthy`: null and false are falsey, everything else is truthy. */
  function IsTruthy(v: Value): (r: bool)
    ensures r <==> !(v.Nil? || v == Bool(false))
  {
    if v.Nil? then false
    else if v.Bool? then v.b
    else true
  }

  /** `IsFalsey` is the negation of `IsTruthy`. */
  function IsFalsey(v: Value): (r: bool)
    ensures r <==> !IsTruthy(v)
    ensures r <==> (v.Nil? || v == Bool(false))
  {
    !IsTruthy(v)
  }

  /** `object.Equals` on a non-null boxed value: same kind and same content. */
  function ObjectEquals(a: Value, b: Value): bool
    requires !a.Nil?
  {
    match a
    case Bool(x) => b.Bool? && b.b == x
    case Num(x) => b.Num? && b.n == x
    case Str(x) => b.Str? && b.s == x
  }

  /** `IsEqual`: two nulls are equal, null is unequal to anything else, and
      otherwise the comparison is `a.Equals(b)`. It coincides with equality
      of the modelled values. */
  function IsEqual(a: Value, b: Value): (r: bool)
    ensures r <==> a == b
  {
    if a.Nil? && b.Nil? then true
    else if a.Nil? then false
    else ObjectEquals(a, b)
  }

  lemma IsEqualReflexiveSymmetric(a: Value, b: Value)
    ensures IsEqual(a, a)
    ensures IsEqual(a, b) == IsEqual(b, a)
  {
  }

  /** Values of different kinds are never equal. */
  lemma IsEqualNeedsSameKind(a: Value, b: Value)
    requires IsEqual(a, b)
    ensures a.Nil? == b.Nil? && a.Bool? == b.Bool? && a.Num? == b.Num? && a.Str? == b.Str?
  {
  }

  /** `ToString()` of the boxed value, as used by string interpolation and
      the printers. `bool.ToString()` is "True"/"False"; the text of a
      double is produced by `showNumber`, which stands for .NET's
      `double.ToString()`. A null becomes the empty string in interpolation. */
  function ObjectText(v: Value, showNumber: Number -> string): string
  {
    match v
    case Nil => ""
    case Bool(x) => if x then "True" else "False"
    case Num(x) => showNumber(x)
    case Str(x) => x
  }
}
