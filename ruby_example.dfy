/** The script body of the Ruby example (ruby/example.rb): `Vector.new` with
    default arguments and two `raise ... unless` checks. */
module RubyExample {
  import opened Vectors

  /** The two checks of the script; `passed` holds when neither `raise` fires. */
  method Run() returns (sum: Vector, difference: Vector, passed: bool)
    ensures sum == Vector(8, 11) && difference == Vector(2, 3)
    ensures passed
  {
    var v1 := FromArguments([3, 4]).value;
    var v2 := FromArguments([5, 7]).value;
    sum := Add(v1, v2);
    difference := Sub(v2, v1);
    passed := HasComponents(sum, 8, 11) && HasComponents(difference, 2, 3);
  }
}
