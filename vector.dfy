/**
 * The `Vector` class of src/utils/Vector.py: a list of numbers with
 * length-checked componentwise arithmetic.  Components are exact reals, so the
 * float rounding of the source is not part of this model.  The value-returning
 * operators build new vectors from component lists and are written as
 * functions on `seq<real>`; `append` and `__setitem__` update a vector in
 * place and are methods of the class.
 */
module Vectors {
  import opened Wrappers

  /** What an operator receives as its right operand, as `isinstance` sees it. */
  datatype Operand =
    | VectorValue(components: seq<real>)  // a Vector, with its current components
    | Number(x: real)                     // an int or a float
    | NotNumeric                          // anything else

  /** Why a `ValueError` was raised. */
  datatype Reason = NotAVector | LengthMismatch | NotANumber | ZeroVector

  /** The exceptions the operators raise. */
  datatype VectorError = ValueError(reason: Reason) | ZeroDivisionError | IndexError

  /** Componentwise sum of two equally long component lists. */
  function Plus(a: seq<real>, b: seq<real>): (r: seq<real>)
    requires |a| == |b|
    ensures |r| == |a| && forall i :: 0 <= i < |a| ==> r[i] == a[i] + b[i]
  {
    seq(|a|, i requires 0 <= i < |a| => a[i] + b[i])
  }

  /** Componentwise difference of two equally long component lists. */
  function Minus(a: seq<real>, b: seq<real>): (r: seq<real>)
    requires |a| == |b|
    ensures |r| == |a| && forall i :: 0 <= i < |a| ==> r[i] == a[i] - b[i]
  {
    seq(|a|, i requires 0 <= i < |a| => a[i] - b[i])
  }

  /** Every component multiplied by `k`. */
  function Scaled(a: seq<real>, k: real): (r: seq<real>)
    ensures |r| == |a| && forall i :: 0 <= i < |a| ==> r[i] == a[i] * k
  {
    seq(|a|, i requires 0 <= i < |a| => a[i] * k)
  }

  /** The sum of the componentwise products, accumulated from the first component. */
  function InnerProduct(a: seq<real>, b: seq<real>): real
    requires |a| == |b|
  {
    if a == [] then 0.0 else a[0] * b[0] + InnerProduct(a[1..], b[1..])
  }

  /** `a + other` (Vector.py:37-43). */
  function Add(a: seq<real>, other: Operand): (r: Result<seq<real>, VectorError>)
    ensures !other.VectorValue? ==> r == Failure(ValueError(NotAVector))
    ensures other.VectorValue? && |other.components| != |a| ==> r == Failure(ValueError(LengthMismatch))
    ensures other.VectorValue? && |other.components| == |a| ==>
              r.Success? && |r.value| == |a| &&
              forall i :: 0 <= i < |a| ==> r.value[i] == a[i] + other.components[i]
  {
    if !other.VectorValue? then Failure(ValueError(NotAVector))
    else if |a| != |other.components| then Failure(ValueError(LengthMismatch))
    else Success(Plus(a, other.components))
  }

  /** `a - other` (Vector.py:45-51). */
  function Subtract(a: seq<real>, other: Operand): (r: Result<seq<real>, VectorError>)
    ensures !other.VectorValue? ==> r == Failure(ValueError(NotAVector))
    ensures other.VectorValue? && |other.components| != |a| ==> r == Failure(ValueError(LengthMismatch))
    ensures other.VectorValue? && |other.components| == |a| ==>
              r.Success? && |r.value| == |a| &&
              forall i :: 0 <= i < |a| ==> r.value[i] == a[i] - other.components[i]
  {
    if !other.VectorValue? then Failure(ValueError(NotAVector))
    else if |a| != |other.components| then Failure(ValueError(LengthMismatch))
    else Success(Minus(a, other.components))
  }

  /** `a.scale(constant)` (Vector.py:70-74): a non-number raises. */
  function Scale(a: seq<real>, constant: Operand): (r: Result<seq<real>, VectorError>)
    ensures !constant.Number? ==> r == Failure(ValueError(NotANumber))
    ensures constant.Number? ==>
              r.Success? && |r.value| == |a| &&
              forall i :: 0 <= i < |a| ==> r.value[i] == a[i] * constant.x
  {
    if constant.Number? then Success(Scaled(a, constant.x)) else Failure(ValueError(NotANumber))
  }

  /**
   * `a * other` (Vector.py:53-56).  A number scales the vector; anything else
   * falls off the end of `__mul__`, which then returns `None` instead of raising.
   */
  function Multiply(a: seq<real>, other: Operand): (r: Option<seq<real>>)
    ensures r.Some? <==> other.Number?
    ensures other.Number? ==> Scale(a, other) == Success(r.value)
  {
    if other.Number? then Some(Scaled(a, other.x)) else None
  }

  /** `other * a` (Vector.py:58-60): the same as `a * other`. */
  function MultiplyRight(other: Operand, a: seq<real>): (r: Option<seq<real>>)
    ensures r == Multiply(a, other)
    ensures r.Some? ==> forall i :: 0 <= i < |a| ==> r.value[i] == other.x * a[i]
  {
    Multiply(a, other)
  }

  /** `a / other` (Vector.py:62-68): a non-number raises ValueError, zero raises ZeroDivisionError. */
  function Divide(a: seq<real>, other: Operand): (r: Result<seq<real>, VectorError>)
    ensures !other.Number? ==> r == Failure(ValueError(NotANumber))
    ensures other == Number(0.0) ==> r == Failure(ZeroDivisionError)
    ensures other.Number? && other.x != 0.0 ==>
              r.Success? && |r.value| == |a| &&
              forall i :: 0 <= i < |a| ==> r.value[i] == a[i] / other.x
  {
    if !other.Number? then Failure(ValueError(NotANumber))
    else if other.x == 0.0 then Failure(ZeroDivisionError)
    else Success(seq(|a|, i requires 0 <= i < |a| => a[i] / other.x))
  }

  /** `a.dot(other)` (Vector.py:76-82). */
  function Dot(a: seq<real>, other: Operand): (r: Result<real, VectorError>)
    ensures !other.VectorValue? ==> r == Failure(ValueError(NotAVector))
    ensures other.VectorValue? && |other.components| != |a| ==> r == Failure(ValueError(LengthMismatch))
    ensures other.VectorValue? && |other.components| == |a| ==>
              r == Success(InnerProduct(a, other.components))
  {
    if !other.VectorValue? then Failure(ValueError(NotAVector))
    else if |a| != |other.components| then Failure(ValueError(LengthMismatch))
    else Success(InnerProduct(a, other.components))
  }

  /** `a == other` (Vector.py:22-25): only a Vector with the same components is equal. */
  function Equals(a: seq<real>, other: Operand): (r: bool)
    ensures r <==> other.VectorValue? && |other.components| == |a| &&
                   forall i :: 0 <= i < |a| ==> other.components[i] == a[i]
  {
    other.VectorValue? && other.components == a
  }

  /**
   * `a.projection(other)` (Vector.py:84-92), with the squared magnitude taken
   * as the inner product of `other` with itself.  The zero test comes before the
   * length test that `dot` makes.
   */
  function Projection(a: seq<real>, other: Operand): (r: Result<seq<real>, VectorError>)
    ensures !other.VectorValue? ==> r == Failure(ValueError(NotAVector))
    ensures other.VectorValue? && InnerProduct(other.components, other.components) == 0.0 ==>
              r == Failure(ValueError(ZeroVector))
    ensures other.VectorValue? && InnerProduct(other.components, other.components) != 0.0 ==>
              (r.Success? <==> |other.components| == |a|)
    ensures other.VectorValue? && InnerProduct(other.components, other.components) != 0.0 &&
              |other.components| != |a| ==>
              r == Failure(ValueError(LengthMismatch))
    ensures r.Success? ==>
              var b := other.components;
              |r.value| == |b| &&
              forall i :: 0 <= i < |b| ==> r.value[i] == InnerProduct(a, b) / InnerProduct(b, b) * b[i]
  {
    if !other.VectorValue? then Failure(ValueError(NotAVector))
    else
      var b := other.components;
      var magnitudeSquared := InnerProduct(b, b);
      if magnitudeSquared == 0.0 then Failure(ValueError(ZeroVector))
      else if |a| != |b| then Failure(ValueError(LengthMismatch))
      else
        Success(Scaled(b, InnerProduct(a, b) / magnitudeSquared))
  }

  /** Python's list indexing: a negative key counts from the end. */
  function NormalizeIndex(n: nat, key: int): (r: Option<nat>)
    ensures r.Some? <==> -(n as int) <= key < n
    ensures r.Some? ==> r.value < n && (if key >= 0 then r.value == key else r.value == n + key)
  {
    if 0 <= key < n then Some(key) else if -(n as int) <= key < 0 then Some(n + key) else None
  }

  /** A vector object: the component list `v` is updated in place by `Append` and `SetItem`. */
  class Vector {
    var v: seq<real>

    /** `Vector(values)` (Vector.py:6-8). */
    constructor (values: seq<real>)
      ensures v == values
    {
      v := values;
    }

    /** The operand this vector is when it stands on the right of an operator. */
    function AsOperand(): (r: Operand)
      reads this
      ensures r.VectorValue? && r.components == v
    {
      VectorValue(v)
    }

    /** `self[key]` (Vector.py:16-17). */
    function Get(key: int): (r: Result<real, VectorError>)
      reads this
      ensures r.Success? <==> -|v| <= key < |v|
      ensures r.Failure? ==> r.error == IndexError
      ensures 0 <= key < |v| ==> r == Success(v[key])
      ensures -|v| <= key < 0 ==> r == Success(v[|v| + key])
    {
      match NormalizeIndex(|v|, key)
      case Some(i) => Success(v[i])
      case None => Failure(IndexError)
    }

    /** `self.append(value)` (Vector.py:27-28). */
    method Append(value: real)
      modifies this
      ensures v == old(v) + [value]
    {
      v := v + [value];
    }

    /** `self[key] = value` (Vector.py:13-14); an index out of range raises IndexError. */
    method SetItem(key: int, value: real) returns (r: Option<VectorError>)
      modifies this
      ensures r.None? <==> -|old(v)| <= key < |old(v)|
      ensures r.Some? ==> r.value == IndexError && v == old(v)
      ensures r.None? ==> |v| == |old(v)| && Get(key) == Success(value)
      ensures r.None? ==> forall j :: 0 <= j < |v| && j != NormalizeIndex(|v|, key).value ==> v[j] == old(v)[j]
    {
      match NormalizeIndex(|v|, key)
      case Some(i) =>
        v := v[i := value];
        r := None;
      case None =>
        r := Some(IndexError);
    }
  }

  /** Adding and then subtracting the same vector gives back the original components. */
  lemma AddThenSubtract(a: seq<real>, b: seq<real>)
    requires |a| == |b|
    ensures Add(a, VectorValue(b)).Success?
    ensures Subtract(Add(a, VectorValue(b)).value, VectorValue(b)) == Success(a)
  {
    var s := Add(a, VectorValue(b)).value;
    assert Minus(s, b) == a;
  }

  /** Addition does not depend on the order of the operands. */
  lemma AddCommutes(a: seq<real>, b: seq<real>)
    requires |a| == |b|
    ensures Add(a, VectorValue(b)) == Add(b, VectorValue(a))
  {
    assert Plus(a, b) == Plus(b, a);
  }

  /** The dot product is symmetric. */
  lemma {:induction false} DotSymmetric(a: seq<real>, b: seq<real>)
    requires |a| == |b|
    ensures Dot(a, VectorValue(b)) == Dot(b, VectorValue(a))
    ensures InnerProduct(a, b) == InnerProduct(b, a)
  {
    if a != [] {
      DotSymmetric(a[1..], b[1..]);
    }
  }

  /** An all-zero vector has squared magnitude zero, so projecting onto it raises. */
  lemma {:induction false} ProjectionOntoZeroVector(a: seq<real>, b: seq<real>)
    requires forall i :: 0 <= i < |b| ==> b[i] == 0.0
    ensures InnerProduct(b, b) == 0.0
    ensures Projection(a, VectorValue(b)) == Failure(ValueError(ZeroVector))
  {
    if b != [] {
      ProjectionOntoZeroVector(a, b[1..]);
    }
  }

  /** The inner product is linear in its first argument. */
  lemma {:induction false} InnerProductOfDifference(a: seq<real>, c: seq<real>, b: seq<real>)
    requires |a| == |b| == |c|
    ensures InnerProduct(Minus(a, c), b) == InnerProduct(a, b) - InnerProduct(c, b)
  {
    if a != [] {
      assert Minus(a, c)[1..] == Minus(a[1..], c[1..]);
      InnerProductOfDifference(a[1..], c[1..], b[1..]);
    }
  }

  /** Scaling the first argument of the inner product scales the result. */
  lemma {:induction false} InnerProductOfScaled(b: seq<real>, k: real, d: seq<real>)
    requires |b| == |d|
    ensures InnerProduct(Scaled(b, k), d) == k * InnerProduct(b, d)
  {
    var kb := Scaled(b, k);
    if b != [] {
      assert forall i :: 0 <= i < |b| - 1 ==> kb[1..][i] == Scaled(b[1..], k)[i];
      assert kb[1..] == Scaled(b[1..], k);
      InnerProductOfScaled(b[1..], k, d[1..]);
      FactorOut(b[0], k, d[0], InnerProduct(b[1..], d[1..]));
    }
  }

  /** Pulling the scale factor out of one step of the inner product. */
  lemma FactorOut(x: real, k: real, y: real, rest: real)
    ensures x * k * y + k * rest == k * (x * y + rest)
  {
  }

  /** Division by a non-zero number is undone by multiplying back. */
  lemma QuotientTimesDivisor(x: real, m: real, k: real)
    requires m != 0.0 && k == x / m
    ensures k * m == x
  {
  }

  /**
   * What makes the projection a projection: the rest `a - proj` is orthogonal
   * to the vector projected onto.
   */
  lemma ProjectionResidualOrthogonal(a: seq<real>, b: seq<real>)
    requires |a| == |b|
    requires InnerProduct(b, b) != 0.0
    ensures Projection(a, VectorValue(b)).Success?
    ensures InnerProduct(Minus(a, Projection(a, VectorValue(b)).value), b) == 0.0
  {
    var m := InnerProduct(b, b);
    var x := InnerProduct(a, b);
    var k := x / m;
    var p := Scaled(b, k);
    assert Projection(a, VectorValue(b)) == Success(p);
    InnerProductOfDifference(a, p, b);
    InnerProductOfScaled(b, k, b);
    QuotientTimesDivisor(x, m, k);
    calc {
      InnerProduct(Minus(a, p), b);
      x - InnerProduct(p, b);
      x - k * m;
      0.0;
    }
  }

  /** Dividing by a non-zero number undoes scaling by it. */
  lemma ScaleThenDivide(a: seq<real>, k: real)
    requires k != 0.0
    ensures Divide(Scale(a, Number(k)).value, Number(k)) == Success(a)
  {
    var s := Scale(a, Number(k)).value;
    var d := Divide(s, Number(k)).value;
    assert |d| == |a|;
    assert forall i :: 0 <= i < |a| ==> d[i] == a[i] * k / k == a[i];
    assert d == a;
  }
}
