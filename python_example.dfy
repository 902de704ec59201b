/** The script body of the Python example (python/example.py): `Vector` with
    default arguments and two `assert` statements. */
module PythonExample {
  import opened Vectors

  /** The two asserted conditions of the script. */
  method Run() returns (sum: Vector, difference: Vector, passed: bool)
    ensures sum == Vector(6, 9) && difference == Vector(2, 3)
    ensures passed
  {
    var v1 := FromArguments([2, 3]).value;
    var v2 := FromArguments([4, 6]).value;
    sum := Add(v1, v2);
    difference := Sub(v2, v1);
    passed := HasComponents(sum, 6, 9) && HasComponents(difference, 2, 3);
  }
}
