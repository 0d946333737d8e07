/// `execute/inbuilt.rs`: the `modulo` builtin.
module Inbuilt {
  import opened Errors
  import opened Tokens
  import opened Definitions

  /// Rust's `/` on integers: the quotient truncated toward zero.
  function TruncDiv(a: int, b: int): int
    requires b != 0
  {
    var q := (if a >= 0 then a else -a) / (if b > 0 then b else -b);
    if (a >= 0) == (b > 0) then q else -q
  }

  /// Rust's `%` on integers: the remainder of the truncated division, which
  /// has the sign of the dividend.
  function TruncRem(a: int, b: int): (r: int)
    requires b != 0
    ensures a == b * TruncDiv(a, b) + r
    ensures -(if b > 0 then b else -b) < r < (if b > 0 then b else -b)
    ensures r == 0 || (r > 0 <==> a > 0)
  {
    var m := if b > 0 then b else -b;
    var r := if a >= 0 then a % m else -((-a) % m);
    DivisionIdentity(a, b);
    r
  }

  lemma DivisionIdentity(a: int, b: int)
    requires b != 0
    ensures var m := if b > 0 then b else -b;
            a == b * TruncDiv(a, b) + (if a >= 0 then a % m else -((-a) % m))
  {
    var m := if b > 0 then b else -b;
    var n := if a >= 0 then a else -a;
    assert n == m * (n / m) + n % m;
    if b > 0 {
      assert b * TruncDiv(a, b) == (if a >= 0 then m * (n / m) else -(m * (n / m)));
    } else {
      assert b * TruncDiv(a, b) == (if a >= 0 then m * (n / m) else -(m * (n / m)));
    }
  }

  /// A non-zero multiple of a positive `m` is at least `m` in size.
  lemma MulBounds(m: int, d: int)
    requires m > 0
    ensures d >= 1 ==> m * d >= m
    ensures d <= -1 ==> m * d <= -m
  {
    if d >= 1 {
      assert m * d == m * (d - 1) + m;
      assert m * (d - 1) >= 0;
    } else if d <= -1 {
      var e := -d - 1;
      assert m * e >= 0;
      assert m * d == -(m * e) - m;
    }
  }

  /// A remainder in `[0, m)` that completes a division by `m` is `a % m`.
  lemma ModUnique(a: int, m: int, k: int, r: int)
    requires m > 0 && a == m * k + r && 0 <= r < m
    ensures a % m == r
  {
    var q := a / m;
    var d := k - q;
    assert a == m * q + a % m;
    assert m * k == m * q + m * d;
    MulBounds(m, d);
  }

  /// Rust's remainder against the Euclidean one: the same for a
  /// non-negative dividend or an exact division; otherwise the Euclidean
  /// remainder less the divisor's size.
  lemma TruncRemVsEuclidean(a: int, b: int)
    requires b != 0
    ensures var m := if b > 0 then b else -b;
            TruncRem(a, b) == if a >= 0 || a % m == 0 then a % m else a % m - m
  {
    var m := if b > 0 then b else -b;
    if a < 0 {
      var n := -a;
      var q, r := n / m, n % m;
      assert n == m * q + r;
      if r == 0 {
        ModUnique(a, m, -q, 0);
      } else {
        assert a == m * (-q - 1) + (m - r);
        ModUnique(a, m, -q - 1, m - r);
      }
    }
  }

  /// The object is a plain integer.
  predicate IsInt(o: LoxObj)
  {
    o.ptr.Plain? && o.ptr.value.Integer?
  }

  /// `modulo`: both arguments must be integers, the first checked first;
  /// the result is Rust's remainder. A zero divisor panics in the source
  /// and is excluded here.
  function Modulo(a: LoxObj, b: LoxObj, pos: Position): (r: Result<LoxObj>)
    requires IsInt(a) && IsInt(b) ==> b.ptr.value.i != 0
    ensures r.Ok? <==> IsInt(a) && IsInt(b)
    ensures r.Ok? ==> r.value == FromValue(Integer(TruncRem(a.ptr.value.i, b.ptr.value.i)))
    ensures r.Err? ==> r.error.kind == RuntimeError && r.error.pos == Some(pos)
  {
    if !IsInt(a) then NewErr("is not integer", pos, RuntimeError)
    else if !IsInt(b) then NewErr("is not integer", pos, RuntimeError)
    else Ok(FromValue(Integer(TruncRem(a.ptr.value.i, b.ptr.value.i))))
  }

  /// The remainder follows the dividend's sign, unlike the mathematical
  /// modulus: -7 % 3 is -1, not 2.
  lemma RemainderOfNegative(pos: Position)
    ensures Modulo(FromValue(Integer(-7)), FromValue(Integer(3)), pos) == Ok(FromValue(Integer(-1)))
  {
  }
}
