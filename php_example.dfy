/** The PHP example (php/example.php): a class whose properties are declared with
    the value 0, a two-argument `__construct`, `__add` / `__sub`, and two script
    level `assert`s, the second of which is written with `=` where `==` was
    meant. */
module PhpExample {
  import opened Vectors

  /** The object before `__construct` runs: both properties hold their declared
      value 0, the vector the constructor with defaults of the C#, Ruby and
      Python programs gives when called without arguments. */
  function Declared(): (r: Vector)
    ensures r == Zero && FromArguments([]) == Some(r)
  {
    Vector(0, 0)
  }

  /** `new Vector($x, $y)`: `__construct` assigns `x`, then `y`, over the declared
      values, so nothing of them is left in the new object. */
  function Construct(x: int, y: int): (v: Vector)
    ensures HasComponents(v, x, y)
  {
    Declared().(x := x).(y := y)
  }

  /** PHP's conversion of an integer to a boolean. */
  predicate Truthy(n: int)
  {
    n != 0
  }

  /** PHP's integer value of a boolean. */
  function IntOfBool(b: bool): (n: int)
  {
    if b then 1 else 0
  }

  /** The second check as written: `$v4->x = 1 && $v4->y == 2`.  PHP gives `=`
      a lower precedence than `&&` and `==`, so this is
      `$v4->x = (1 && ($v4->y == 2))`: the value handed to `assert` is the
      boolean `1 && $v4->y == 2`, which depends on `y` alone, and that boolean
      is stored into `x` (shown by its integer value).  Returns the asserted
      value and the object afterwards. */
  function SecondCheckAsWritten(v4: Vector): (r: (bool, Vector))
    ensures r.0 <==> v4.y == 2
    ensures r.1.y == v4.y && r.1.x == IntOfBool(r.0)
  {
    var asserted := Truthy(1) && v4.y == 2;
    (asserted, v4.(x := IntOfBool(asserted)))
  }

  /** The second check as intended: `$v4->x == -1 && $v4->y == 2`, which holds of
      the difference (2,7) - (3,5) and of nothing else. */
  predicate SecondCheck(v4: Vector)
    ensures SecondCheck(v4) <==> v4 == Sub(Vector(2, 7), Vector(3, 5))
  {
    HasComponents(v4, -1, 2)
  }

  /** The as-written check does not look at `x`: it accepts (1, 2), which is not
      the difference it was meant to test, and it also accepts that difference. */
  lemma AsWrittenAcceptsWrongX()
    ensures exists v4 :: SecondCheckAsWritten(v4).0 && !SecondCheck(v4)
    ensures SecondCheckAsWritten(Vector(-1, 2)).0
  {
    assert SecondCheckAsWritten(Vector(1, 2)).0 && !SecondCheck(Vector(1, 2));
  }

  /** Whatever `$v4` held, the as-written check overwrites its `x` with the
      asserted boolean: `true` (1) when the check passes, `false` (0) when it
      fails.  So `$v4` keeps its value only if `x` already was that boolean. */
  lemma AsWrittenOverwritesX(v4: Vector)
    ensures SecondCheckAsWritten(v4).0 ==> SecondCheckAsWritten(v4).1 == Vector(1, 2)
    ensures !SecondCheckAsWritten(v4).0 ==> SecondCheckAsWritten(v4).1 == Vector(0, v4.y)
    ensures SecondCheckAsWritten(v4).1 == v4 <==> (v4.y == 2 && v4.x == 1) || (v4.y != 2 && v4.x == 0)
  {
  }

  /** The script as written: both `assert`s pass, and `$v4`, computed as
      (-1, 2), ends as (true, 2). */
  method RunAsWritten() returns (v3: Vector, v4: Vector, passed: bool)
    ensures v3 == Vector(5, 12)
    ensures v4 == Vector(1, 2)
    ensures passed
  {
    var v1 := Construct(3, 5);
    var v2 := Construct(2, 7);
    v3 := Add(v1, v2);
    v4 := Sub(v2, v1);
    var first := HasComponents(v3, 5, 12);
    var r := SecondCheckAsWritten(v4);
    var second;
    second, v4 := r.0, r.1;
    passed := first && second;
  }

  /** The script with the second check corrected: both checks pass and `$v4` is
      the true difference (2,7) - (3,5) = (-1, 2), a negative component included. */
  method Run() returns (v3: Vector, v4: Vector, passed: bool)
    ensures v3 == Vector(5, 12) && v4 == Vector(-1, 2)
    ensures passed
  {
    var v1 := Construct(3, 5);
    var v2 := Construct(2, 7);
    v3 := Add(v1, v2);
    v4 := Sub(v2, v1);
    passed := HasComponents(v3, 5, 12) && SecondCheck(v4);
  }
}
