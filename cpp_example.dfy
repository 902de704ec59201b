/** `main` of the C++ example (cpp/example.cpp): a class with a two-argument
    constructor and member operators that build and return a local `Vector`. */
module CppExample {
  import opened Vectors

  /** The two `assert`s of `main`, then its `return 0`.  There is no default
      constructor, so both operands are built from two arguments.  All values fit
      in the 32-bit `int` fields, so no signed overflow occurs. */
  method Run() returns (v1: Vector, v2: Vector, sum: Vector, difference: Vector, passed: bool, status: int)
    ensures sum == Vector(7, 12) && difference == Vector(1, 2)
    ensures v1 == Vector(3, 5) && v2 == Vector(4, 7)
    ensures FitsInt32(v1) && FitsInt32(v2) && FitsInt32(sum) && FitsInt32(difference)
    ensures passed && status == 0
  {
    v1 := Vector(3, 5);
    v2 := Vector(4, 7);
    sum := Add(v1, v2);
    difference := Sub(v2, v1);
    passed := HasComponents(sum, 7, 12) && HasComponents(difference, 1, 2);
    status := 0;
  }
}
