/** Bitwise operations on unbounded numbers. */
module Bits {
  import opened Common
  import opened Bytes

  function Or(x: nat, y: nat): nat
    decreases x + y
  {
    if x == 0 && y == 0 then 0 else (if x % 2 == 1 || y % 2 == 1 then 1 else 0) + 2 * Or(x / 2, y / 2)
  }

  function And(x: nat, y: nat): nat
    decreases x + y
  {
    if x == 0 || y == 0 then 0 else (if x % 2 == 1 && y % 2 == 1 then 1 else 0) + 2 * And(x / 2, y / 2)
  }

  lemma {:induction false} OrZero(x: nat)
    ensures Or(x, 0) == x
  {
    if x > 0 { OrZero(x / 2); }
  }

  lemma Halve(x: nat, p: nat)
    ensures (x * (2 * p)) / 2 == x * p && (x * (2 * p)) % 2 == 0
  {
    assert x * (2 * p) == 2 * (x * p);
  }

  /** Numbers with no bits in common: the union is the sum. */
  lemma {:induction false} OrAbove(x: nat, y: nat, k: nat)
    requires y < Pow(2, k)
    ensures Or(x * Pow(2, k), y) == x * Pow(2, k) + y
    decreases k
  {
    if k == 0 {
      assert x * Pow(2, 0) == x;
      OrZero(x);
    } else {
      Halve(x, Pow(2, k - 1));
      OrAbove(x, y / 2, k - 1);
    }
  }

  /** The low `k` bits are the remainder. */
  lemma {:induction false} AndLow(x: nat, k: nat)
    ensures And(x, Pow(2, k) - 1) == x % Pow(2, k)
    decreases k
  {
    if k > 0 {
      var p := Pow(2, k - 1);
      AndLow(x / 2, k - 1);
      assert (2 * p - 1) / 2 == p - 1 && (2 * p - 1) % 2 == 1;
      ModDouble(x, p);
    }
  }

  lemma ModDouble(x: nat, p: nat)
    requires p > 0
    ensures x % (2 * p) == x % 2 + 2 * ((x / 2) % p)
  {
    var h := x / 2;
    var q, r := h / p, h % p;
    assert h == p * q + r;
    assert x == (2 * p) * q + (x % 2 + 2 * r) by { assert 2 * (p * q) == (2 * p) * q; }
    DivModUnique(x, 2 * p, q, x % 2 + 2 * r);
  }
}
