/** Swift's numeric conversions that differ from Dafny's: `Int(x)` for a `Double`
    truncates toward zero, and `Int` division and remainder truncate toward zero
    where Dafny's are Euclidean. Doubles are modelled as `real`, without rounding. */
module Numeric {

  /** `Int(x)` for a finite `Double`: drops the fraction, rounding toward zero. */
  function TruncateToInt(x: real): (r: int)
    ensures 0.0 <= x ==> 0 <= r && r as real <= x < (r + 1) as real
    ensures x < 0.0 ==> r <= 0 && (r - 1) as real < x <= r as real
  {
    if x >= 0.0 then x.Floor else -((-x).Floor)
  }

  /** Swift's `a / b` on `Int`: the quotient rounded toward zero. */
  function Quot(a: int, b: int): (q: int)
    requires b != 0
    ensures 0 <= a && 0 < b ==> q == a / b
  {
    var m := (if a < 0 then -a else a) / (if b < 0 then -b else b);
    if (a < 0) == (b < 0) then m else -m
  }

  /** Swift's `a % b` on `Int`: takes the sign of `a`. */
  function Rem(a: int, b: int): (r: int)
    requires b != 0
    ensures a == Quot(a, b) * b + r
    ensures 0 <= a ==> 0 <= r
    ensures a <= 0 ==> r <= 0
    ensures (if r < 0 then -r else r) < (if b < 0 then -b else b)
  {
    QuotRem(a, b);
    a - Quot(a, b) * b
  }

  lemma QuotRem(a: int, b: int)
    requires b != 0
    ensures var m := a - Quot(a, b) * b;
      && (0 <= a ==> 0 <= m)
      && (a <= 0 ==> m <= 0)
      && (if m < 0 then -m else m) < (if b < 0 then -b else b)
  {
    var aa := if a < 0 then -a else a;
    var bb := if b < 0 then -b else b;
    var m := aa / bb;
    assert aa == m * bb + aa % bb && 0 <= aa % bb < bb;
    MulSigns(m, bb);
    if (a < 0) == (b < 0) {
      assert Quot(a, b) == m;
      if a < 0 {
        assert b == -bb && Quot(a, b) * b == -(m * bb);
      } else {
        assert b == bb && Quot(a, b) * b == m * bb;
      }
    } else {
      assert Quot(a, b) == -m;
      if a < 0 {
        assert b == bb && Quot(a, b) * b == -(m * bb);
      } else {
        assert b == -bb && Quot(a, b) * b == m * bb;
      }
    }
  }

  lemma MulSigns(x: int, y: int)
    ensures x * -y == -(x * y) && -x * y == -(x * y) && -x * -y == x * y
  {
  }


  function MinReal(a: real, b: real): real {
    if a <= b then a else b
  }

  function MaxReal(a: real, b: real): real {
    if a >= b then a else b
  }

  /** `min(max(x, lo), hi)` for `lo <= hi`. */
  function Clamp(x: real, lo: real, hi: real): (r: real)
    requires lo <= hi
    ensures lo <= r <= hi
    ensures lo <= x <= hi ==> r == x
    ensures x < lo ==> r == lo
    ensures hi < x ==> r == hi
  {
    MinReal(MaxReal(x, lo), hi)
  }
}
