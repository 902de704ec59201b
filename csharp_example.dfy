/** `Program.Main` of the C# example (csharp/example.cs): builds (3,4) and (6,7)
    with the constructor that has default parameters and checks their sum and
    difference. */
module CSharpExample {
  import opened Vectors

  /** The two checks of `Main`, in order.  `sum` is `v1 + v2` and `difference` is
      `v2 - v1`; `passed` is the conjunction of the two asserted conditions.  All
      operands and results fit in the 32-bit `int` fields, so the unbounded model
      and the C# program compute the same values. */
  method Run() returns (v1: Vector, v2: Vector, sum: Vector, difference: Vector, passed: bool)
    ensures sum == Vector(9, 11) && difference == Vector(3, 3)
    ensures v1 == Vector(3, 4) && v2 == Vector(6, 7)
    ensures FitsInt32(v1) && FitsInt32(v2) && FitsInt32(sum) && FitsInt32(difference)
    ensures passed
  {
    v1 := FromArguments([3, 4]).value;
    v2 := FromArguments([6, 7]).value;
    sum := Add(v1, v2);
    difference := Sub(v2, v1);
    passed := HasComponents(sum, 9, 11) && HasComponents(difference, 3, 3);
  }
}
