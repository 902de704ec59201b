/** A two-component integer vector with component-wise addition and subtraction.

    All six example programs define the same value: two integer fields, a
    constructor that sets them once, and `+` / `-` operators that build a new
    vector from the operands' fields.  Because a Dafny datatype value is never
    updated in place, the operands of `Add` and `Sub` are unchanged by
    construction, as in the sources: C# and Rust pass both operands by copy;
    C++ passes the right operand by const reference, and its non-const member
    operators leave the left operand `*this` unchanged only because their bodies
    never write it; PHP, Ruby and Python never assign an operand's fields.
 */
module Vectors {

  datatype Option<T> = None | Some(value: T)

  datatype Vector = Vector(x: int, y: int)

  /** The vector both components of which are 0. */
  const Zero: Vector := Vector(0, 0)

  /** The constructor with two optional positional parameters, each defaulting
      to 0 (`Vector(int x = 0, int y = 0)` in C#, `initialize(x = 0, y = 0)` in
      Ruby, `__init__(self, x = 0, y = 0)` in Python).  A call with more than two
      arguments is rejected: a compile-time error in C#, an `ArgumentError` in
      Ruby, a `TypeError` in Python. */
  function FromArguments(args: seq<int>): (r: Option<Vector>)
    ensures r.Some? <==> |args| <= 2
    ensures r.Some? ==> r.value.x == (if 0 < |args| then args[0] else 0)
    ensures r.Some? ==> r.value.y == (if 1 < |args| then args[1] else 0)
  {
    if |args| == 0 then Some(Vector(0, 0))
    else if |args| == 1 then Some(Vector(args[0], 0))
    else if |args| == 2 then Some(Vector(args[0], args[1]))
    else None
  }

  /** `left + right`: a new vector whose components are the sums of the
      operands' components.  Taking either operand away again gives back the
      other. */
  function Add(left: Vector, right: Vector): (r: Vector)
    ensures r.x - right.x == left.x && r.y - right.y == left.y
    ensures r.x - left.x == right.x && r.y - left.y == right.y
  {
    Vector(left.x + right.x, left.y + right.y)
  }

  /** `left - right`: a new vector whose components are the differences of the
      operands' components.  Each component of the result, added to the same
      component of `right`, gives back that component of `left`. */
  function Sub(left: Vector, right: Vector): (r: Vector)
    ensures r.x + right.x == left.x && r.y + right.y == left.y
  {
    Vector(left.x - right.x, left.y - right.y)
  }

  /** The equality the example programs check, written as they write it:
      `v.x == x && v.y == y`. */
  predicate HasComponents(v: Vector, x: int, y: int)
  {
    v.x == x && v.y == y
  }

  /** Whether both components of `v` fit in a signed 32-bit integer, the width of
      the fields in the C#, Rust and C++ programs. */
  predicate FitsInt32(v: Vector)
  {
    -0x8000_0000 <= v.x < 0x8000_0000 && -0x8000_0000 <= v.y < 0x8000_0000
  }

  // ----- Construction -----

  /** `Vector()` is the zero vector and `Vector(x)` leaves `y` at 0. */
  lemma DefaultArguments(x: int)
    ensures FromArguments([]) == Some(Zero)
    ensures FromArguments([x]) == Some(Vector(x, 0))
  {
  }

  /** Given both arguments, the constructor with defaults is the plain
      two-argument constructor of the C++, Rust and PHP programs. */
  lemma BothArguments(x: int, y: int)
    ensures FromArguments([x, y]) == Some(Vector(x, y))
  {
  }

  // ----- Equality -----

  /** Checking both components is checking equality of vectors. */
  lemma HasComponentsIsEquality(v: Vector, x: int, y: int)
    ensures HasComponents(v, x, y) <==> v == Vector(x, y)
  {
  }

  // ----- Algebra of the two operators -----

  /** `Add(Vector(a, b), Vector(c, d)) == Vector(a + c, b + d)`, and the same for
      `Sub`. */
  lemma ComponentWise(a: int, b: int, c: int, d: int)
    ensures Add(Vector(a, b), Vector(c, d)) == Vector(a + c, b + d)
    ensures Sub(Vector(a, b), Vector(c, d)) == Vector(a - c, b - d)
  {
  }

  /** The order of the operands of `+` does not matter. */
  lemma AddCommutative(u: Vector, v: Vector)
    ensures Add(u, v) == Add(v, u)
  {
  }

  /** Adding the zero vector changes nothing; subtracting a vector from itself
      gives the zero vector. */
  lemma ZeroIdentity(v: Vector)
    ensures Add(v, Zero) == v && Add(Zero, v) == v
    ensures Sub(v, Zero) == v && Sub(v, v) == Zero
  {
  }

  /** `(a - b) + b == a` and `(a + b) - b == a`: each operator undoes the other. */
  lemma SubThenAdd(a: Vector, b: Vector)
    ensures Add(Sub(a, b), b) == a
    ensures Sub(Add(a, b), b) == a
  {
  }

  /** `a - b` is the negation of `b - a`: the two differences add up to the zero
      vector, and `a - b` is `b - a` subtracted from zero. */
  lemma SubAntisymmetric(a: Vector, b: Vector)
    ensures Add(Sub(a, b), Sub(b, a)) == Zero
    ensures Sub(a, b) == Sub(Zero, Sub(b, a))
  {
  }

  /** Subtraction is not commutative: the order of the operands matters whenever
      they differ. */
  lemma SubOrderMatters(a: Vector, b: Vector)
    ensures Sub(a, b) == Sub(b, a) <==> a == b
  {
  }

  /** For all `a` and `b` there is exactly one vector that added to `b` gives
      `a`, and it is `a - b`. */
  lemma SubSolvesAdd(a: Vector, b: Vector)
    ensures exists w :: Add(w, b) == a
    ensures forall w :: Add(w, b) == a ==> w == Sub(a, b)
  {
    assert Add(Sub(a, b), b) == a;
  }
}
