/** `main` of the Rust example (rust/example.rs): a `Copy` struct built by struct
    literals, `Add` and `Sub` implementations, and two `assert!`s. */
module RustExample {
  import opened Vectors

  /** The two `assert!`s of `main`.  `v1` and `v2` are `Copy`, so both are used
      again, unchanged, after `v1 + v2`; the difference `v2 - v1` has a negative
      component.  All values fit in `i32`, so neither operation overflows. */
  method Run() returns (v1: Vector, v2: Vector, sum: Vector, difference: Vector, passed: bool)
    ensures sum == Vector(10, 9) && difference == Vector(4, -1)
    ensures v1 == Vector(3, 5) && v2 == Vector(7, 4)
    ensures FitsInt32(v1) && FitsInt32(v2) && FitsInt32(sum) && FitsInt32(difference)
    ensures passed
  {
    v1 := Vector(3, 5);
    v2 := Vector(7, 4);
    sum := Add(v1, v2);
    difference := Sub(v2, v1);
    passed := HasComponents(sum, 10, 9) && HasComponents(difference, 4, -1);
  }
}
