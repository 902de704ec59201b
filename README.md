# Vector operator overloading, modelled in Dafny

The repository shows operator overloading on a two-field integer `Vector`, six
times, in C#, Rust, C++, PHP, Ruby and Python. Each file has three parts:

- a constructor;
- a `+` and a `-` operator, each of which builds a new vector from the operands'
  components;
- a program or script body that checks one sum and one difference against
  literal values.

The model has one module per file plus a shared module.

- `Vectors` (vectors.dfy) holds what the six files share:
  - the value `Vector(x, y)`;
  - the constructor whose two parameters default to 0 (C#, Ruby, Python), as
    `FromArguments`;
  - the operators `Add` and `Sub`;
  - the algebraic properties that follow from their component-wise
    definitions.
- The operators are the same in every file: csharp/example.cs:16-20,
  rust/example.rs:13-24, cpp/example.cpp:16-27, php/example.php:13-20,
  ruby/example.rb:10-17 and python/example.py:7-12. `Vectors.Add` and
  `Vectors.Sub` model all six.
- `CSharpExample`, `RustExample`, `CppExample`, `PhpExample`, `RubyExample` and
  `PythonExample` each model their file's entry point as a method `Run`. `Run`
  builds the operands the way that file does, applies the operators, and
  evaluates the checks. Its contract states the values computed and that the
  checks pass.
- For C#, Rust and C++, `Run` also states that both operands and both results
  fit in a signed 32-bit integer. So the unbounded model computes what the
  fixed-width program computes.
- `PhpExample` also models the PHP constructor, which overwrites properties
  declared with the value 0. It models the second PHP check twice: as written
  and as intended (see Findings).

Only the C#, Ruby and Python constructors have default parameters. C++ and PHP
declare a two-parameter constructor, and Rust builds the struct from a literal
that names both fields. The model follows this: C++, Rust and PHP vectors are
built from both components.

## Model

| member | source | states |
|---|---|---|
| Vectors.FromArguments | csharp/example.cs:10-14 | A call with at most two positional arguments succeeds and any longer call is rejected. `x` is the first argument or 0; `y` is the second argument or 0. |
| Vectors.DefaultArguments | python/example.py:2-4 | `Vector()` is (0, 0) and `Vector(x)` is (x, 0). |
| Vectors.BothArguments | ruby/example.rb:4-7 | Given both arguments, the constructor with defaults yields exactly those components. |
| Vectors.Add | csharp/example.cs:16-17 | Taking either operand's components away from the result gives back the other operand's: the result is the component-wise sum. The same operator is rust/example.rs:13-15, cpp/example.cpp:16-20, php/example.php:13-15, ruby/example.rb:10-12 and python/example.py:7-8. See also `ComponentWise`, `SubThenAdd` and `SubSolvesAdd`. |
| Vectors.Sub | csharp/example.cs:19-20 | Each component of the result, added to the same component of the right operand, gives back the left operand's: the result is the component-wise difference. The same operator is rust/example.rs:22-24, cpp/example.cpp:23-27, php/example.php:18-20, ruby/example.rb:15-17 and python/example.py:11-12. See also `ComponentWise`, `SubThenAdd` and `SubSolvesAdd`. |
| Vectors.HasComponentsIsEquality | cpp/example.cpp:35-36 | The programs' check `v.x == a && v.y == b` holds exactly when `v` equals `Vector(a, b)`. |
| Vectors.ComponentWise | csharp/example.cs:16-20 | `Vector(a, b) + Vector(c, d) == Vector(a + c, b + d)` and `Vector(a, b) - Vector(c, d) == Vector(a - c, b - d)`. |
| Vectors.AddCommutative | rust/example.rs:13-15 | `u + v == v + u`. |
| Vectors.ZeroIdentity | python/example.py:7-12 | Adding or subtracting the zero vector changes nothing, and `v - v` is the zero vector. |
| Vectors.SubThenAdd | rust/example.rs:13-24 | `(a - b) + b == a` and `(a + b) - b == a`. |
| Vectors.SubAntisymmetric | rust/example.rs:22-24 | `a - b` and `b - a` add up to zero, so `a - b` is the negation of `b - a`. |
| Vectors.SubOrderMatters | ruby/example.rb:15-17 | `a - b == b - a` holds exactly when `a == b`. |
| Vectors.SubSolvesAdd | php/example.php:13-20 | For every `a` and `b`, some vector added to `b` gives `a`, and every such vector is `a - b`. |
| CSharpExample.Run | csharp/example.cs:25-32 | (3,4) + (6,7) is (9, 11) and (6,7) - (3,4) is (3, 3). The operands are (3, 4) and (6, 7) and stay unchanged. Operands and results fit in 32 bits, and both checks pass. |
| RustExample.Run | rust/example.rs:27-33 | (3,5) + (7,4) is (10, 9) and (7,4) - (3,5) is (4, -1). The operands are unchanged after both operations, every value fits in `i32`, and both `assert!`s pass. |
| CppExample.Run | cpp/example.cpp:30-39 | (3,5) + (4,7) is (7, 12) and (4,7) - (3,5) is (1, 2). The operands are (3, 5) and (4, 7) and stay unchanged. Operands and results fit in 32 bits, both checks pass, and `main` returns 0. |
| PhpExample.Declared | php/example.php:4-5 | Before `__construct` runs, both properties hold their declared 0. That is the zero vector, the same value the C#, Ruby and Python constructors give when called without arguments. |
| PhpExample.Construct | php/example.php:4-10 | `__construct` overwrites both declared zeros: the new object holds exactly the two arguments. |
| PhpExample.SecondCheckAsWritten | php/example.php:30 | The asserted value holds exactly when `y == 2`, whatever `x` is. The assignment leaves `y` alone and stores that boolean into `x`. |
| PhpExample.SecondCheck | php/example.php:27-30 | The intended check holds exactly of (2,7) - (3,5). |
| PhpExample.AsWrittenAcceptsWrongX | php/example.php:30 | Some vector passes the as-written check but fails the intended one. The true difference (-1, 2) also passes it. |
| PhpExample.AsWrittenOverwritesX | php/example.php:30 | After the as-written check, `$v4` is (1, 2) if it passed and (0, y) if it failed. It keeps its value only when `x` already equalled that boolean. |
| PhpExample.RunAsWritten | php/example.php:23-30 | As written, (3,5) + (2,7) is (5, 12), both assertions pass, and `$v4` ends as (true, 2) instead of the computed (-1, 2). |
| PhpExample.Run | php/example.php:23-29 | With the second check corrected, (3,5) + (2,7) is (5, 12), (2,7) - (3,5) is (-1, 2), and both checks pass. |
| RubyExample.Run | ruby/example.rb:20-24 | (3,4) + (5,7) is (8, 11) and (5,7) - (3,4) is (2, 3), so neither `raise` fires. |
| PythonExample.Run | python/example.py:14-18 | (2,3) + (4,6) is (6, 9) and (4,6) - (2,3) is (2, 3), so both assertions hold. |

## Left out

- Integer width and component types: the model's components are unbounded integers.
  - C# `int`, Rust `i32` and C++ `int` are 32 bits wide. The model does not capture C#'s unchecked wrap-around, Rust's overflow panic or wrap, or C++'s undefined signed overflow. The C#, Rust and C++ `Run` methods prove that the examples' operands and results stay in range.
  - PHP's `int` is 64 bits wide, and an integer `+` or `-` that overflows yields a float. The model does not capture that conversion.
  - The PHP, Ruby and Python fields are untyped, so their `+` and `-` are whatever the components' operators are. The model fixes the components to integers, as every example uses them.
  - Ruby and Python integers are unbounded, so for integer components the model is exact for those two files.
- What a failed check does: `Debug.Assert`, C `assert`, `assert!`, Python `assert`, PHP `assert` and Ruby `raise`. Their abort or exit behaviour and the build settings that disable them (DEBUG, NDEBUG, `-O`, `zend.assertions`) are not modelled. Each check is the boolean `passed` returned by `Run`.
- Operator dispatch: how each language maps `+` and `-` onto the operator methods. This includes C# `operator`, Rust's `Add`/`Sub` traits, C++ member operators, dunder methods, Ruby operator methods, and PHP's `__add`/`__sub`, which fire only with an operator extension.
- Object identity: the C++, PHP, Ruby and Python operators allocate a new object. The model returns a new value. That operands stay unchanged holds by construction, because Dafny datatype values are never updated in place.
- Keyword arguments to the constructor with defaults (`Vector(y=3)` in Python, `new Vector(y: 3)` in C#) are not modelled. `FromArguments` takes positional arguments only.
- C#'s `new Vector()` on a struct runs the implicit zero-initialising constructor, not the one with default parameters. The result (0, 0) is the same either way.
- PHP constructor arity: PHP rejects a call with fewer than two arguments and ignores extra ones. The model constructs PHP vectors from exactly two arguments.
- PHP stores the boolean `true` into `$v4->x`, and a boolean is not an integer. The model records it by PHP's integer value of a boolean (1 or 0).
- Ruby's `attr_accessor` setters and Python's mutable attributes: no code path uses them. Rust's derived `Debug` and `Clone`, and the unused `<iostream>` include, are also not modelled.

## Findings

| source | as written | input that shows it | evidently intended | confidence | as-written member | corrected member |
|---|---|---|---|---|---|---|
| php/example.php:30 | `assert($v4->x = 1 && $v4->y == 2)` parses as `$v4->x = (1 && ($v4->y == 2))`. It asserts only `y == 2` and overwrites `x` with `true`. | `$v4` = (1, 2), or any vector whose `y` is 2, passes although `x` is not -1. For the true difference (-1, 2), `x` becomes `true`. | `assert($v4->x == -1 && $v4->y == 2)`, which holds exactly of (2,7) - (3,5) = (-1, 2) | high, not executed | PhpExample.AsWrittenAcceptsWrongX | PhpExample.Run |
