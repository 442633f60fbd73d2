/** Kotlin's `/` and `%` on `Int` truncate toward zero, whereas Dafny's are
    Euclidean.  The game's arithmetic is written with these two functions
    wherever an operand's sign is not fixed by the configuration. */
module KotlinInt {

  function Abs(x: int): int
  {
    if x < 0 then -x else x
  }

  /** Kotlin `a / b`: the quotient truncated toward zero. */
  function Div(a: int, b: int): (q: int)
    requires b != 0
    ensures a >= 0 && b > 0 ==> q == a / b
  {
    var m := Abs(a) / Abs(b);
    if (a >= 0) == (b > 0) then m else -m
  }

  /** Kotlin `a % b`: the remainder takes the sign of the dividend. */
  function Rem(a: int, b: int): (r: int)
    requires b != 0
    ensures a >= 0 ==> 0 <= r < Abs(b)
    ensures a <= 0 ==> -Abs(b) < r <= 0
    ensures a >= 0 && b > 0 ==> r == a % b
  {
    if a >= 0 then a % Abs(b) else -((-a) % Abs(b))
  }

  /** Truncating division and remainder satisfy the defining identity of
      Kotlin's operators: `a == (a / b) * b + a % b`. */
  lemma DivRemIdentity(a: int, b: int)
    requires b != 0
    ensures a == Div(a, b) * b + Rem(a, b)
  {
    var n, d := Abs(a), Abs(b);
    assert n == (n / d) * d + n % d;
    if a >= 0 && b > 0 {
    } else if a >= 0 {
      assert Div(a, b) * b == (n / d) * d;
    } else if b > 0 {
      assert Div(a, b) * b == -((n / d) * d);
    } else {
      assert Div(a, b) * b == -((n / d) * d);
    }
  }
}
