/** Real arithmetic shared by the broker, and the grid on which order sizes live.

    The C++ code compares sizes with a small epsilon instead of with zero.  The
    epsilon is kept here.  A test against it decides exactly between zero and
    non-zero for every size that is a whole number of lots, provided that the lot
    is not smaller than the epsilon (`GridNearZero`). */
module Numbers {

  datatype Option<+T> = None | Some(value: T)

  const EPS: real := 0.0000000001 // 1e-10

  function Abs(x: real): real {
    if x < 0.0 then -x else x
  }

  function Max(x: real, y: real): real {
    if x < y then y else x
  }

  function Min(x: real, y: real): real {
    if y < x then y else x
  }

  predicate NearZero(x: real) {
    Abs(x) < EPS
  }

  function Lots(count: int, lot: real): real {
    count as real * lot
  }

  /** `x` is a whole number of lots. */
  ghost predicate OnGrid(x: real, lot: real) {
    exists count: int :: x == Lots(count, lot)
  }

  lemma GridZero(lot: real)
    ensures OnGrid(0.0, lot)
  {
    assert 0.0 == Lots(0, lot);
  }

  lemma GridAdd(x: real, y: real, lot: real)
    requires OnGrid(x, lot) && OnGrid(y, lot)
    ensures OnGrid(x + y, lot)
  {
    var m: int :| x == Lots(m, lot);
    var n: int :| y == Lots(n, lot);
    assert x + y == Lots(m + n, lot);
  }

  lemma GridNeg(x: real, lot: real)
    requires OnGrid(x, lot)
    ensures OnGrid(-x, lot)
  {
    var m: int :| x == Lots(m, lot);
    assert -x == Lots(-m, lot);
  }

  /** On the grid the epsilon test is a test for zero. */
  lemma GridNearZero(x: real, lot: real)
    requires OnGrid(x, lot) && EPS <= lot
    ensures NearZero(x) <==> x == 0.0
  {
    var m: int :| x == Lots(m, lot);
    if m >= 1 {
      LotsBound(m, lot);
    } else if m <= -1 {
      LotsBound(-m, lot);
      assert Lots(m, lot) == -Lots(-m, lot);
    }
  }

  lemma LotsBound(m: int, lot: real)
    requires m >= 1 && lot >= 0.0
    ensures Lots(m, lot) >= lot
  {
    assert (m as real - 1.0) * lot >= 0.0;
  }

  /** Dividing by a non-zero quantity and multiplying back. */
  lemma DivMul(x: real, y: real)
    requires y != 0.0
    ensures y * (x / y) == x
    ensures (x / y) * y == x
  {
  }

  function Sum(s: seq<real>): real {
    if |s| == 0 then 0.0 else Sum(s[..|s| - 1]) + s[|s| - 1]
  }

  lemma SumAppend(s: seq<real>, x: real)
    ensures Sum(s + [x]) == Sum(s) + x
  {
    assert (s + [x])[..|s|] == s;
  }

  lemma {:induction false} SumUpdate(s: seq<real>, k: nat, x: real)
    requires k < |s|
    ensures Sum(s[k := x]) == Sum(s) - s[k] + x
  {
    var n := |s| - 1;
    if k == n {
      assert s[k := x][..n] == s[..n];
    } else {
      SumUpdate(s[..n], k, x);
      assert s[k := x][..n] == s[..n][k := x];
    }
  }

  lemma {:induction false} SumRemove(s: seq<real>, k: nat)
    requires k < |s|
    ensures Sum(s[..k] + s[k + 1..]) == Sum(s) - s[k]
  {
    var n := |s| - 1;
    if k == n {
      assert s[..k] + s[k + 1..] == s[..n];
    } else {
      SumRemove(s[..n], k);
      assert (s[..k] + s[k + 1..])[..n - 1] == s[..n][..k] + s[..n][k + 1..];
    }
  }
}
