/**
 The comparison of secrets: XOR every pair of bytes, OR the results together,
 look at the outcome once. No branch depends on where two strings differ, and
 the answer is string equality. A string is read as its numeric units, which
 are bytes in Go and at most 21 bits wide here.
 */
module ConstantTime {

  const WIDTH: nat := 21

  function Pow2(n: nat): (p: nat)
    ensures p >= 1
  {
    if n == 0 then 1 else 2 * Pow2(n - 1)
  }

  /** Exclusive or, bit by bit from the lowest. */
  function Xor(a: nat, b: nat): nat
    decreases a + b
  {
    if a == 0 && b == 0 then 0 else 2 * Xor(a / 2, b / 2) + (if a % 2 == b % 2 then 0 else 1)
  }

  function Or(a: nat, b: nat): nat
    decreases a + b
  {
    if a == 0 && b == 0 then 0 else 2 * Or(a / 2, b / 2) + (if a % 2 == 1 || b % 2 == 1 then 1 else 0)
  }

  lemma {:induction false} XorIsZeroIffEqual(a: nat, b: nat)
    ensures Xor(a, b) == 0 <==> a == b
    decreases a + b
  {
    if a != 0 || b != 0 {
      XorIsZeroIffEqual(a / 2, b / 2);
    }
  }

  lemma {:induction false} OrIsZeroIffBoth(a: nat, b: nat)
    ensures Or(a, b) == 0 <==> a == 0 && b == 0
    decreases a + b
  {
    if a != 0 || b != 0 {
      OrIsZeroIffBoth(a / 2, b / 2);
    }
  }

  lemma {:induction false} BitsFit(a: nat, b: nat, n: nat)
    requires a < Pow2(n) && b < Pow2(n)
    ensures Xor(a, b) < Pow2(n) && Or(a, b) < Pow2(n)
  {
    if n > 0 {
      BitsFit(a / 2, b / 2, n - 1);
    }
  }

  /** The top bit of the 32-bit difference v - 1: 1 if v is 0, otherwise 0, with no branch. */
  function ZeroBit(v: nat): nat
  {
    ((v + 0xFFFF_FFFF) % 0x1_0000_0000) / 0x8000_0000
  }

  lemma ZeroBitIsZeroTest(v: nat)
    requires v < Pow2(WIDTH)
    ensures ZeroBit(v) == if v == 0 then 1 else 0
  {
    WidthIs();
  }

  lemma WidthIs()
    ensures Pow2(WIDTH) == 0x20_0000
  {
    assert Pow2(7) == 128;
    assert Pow2(14) == 128 * Pow2(7);
    assert Pow2(21) == 128 * Pow2(14);
  }

  method ConstantTimeCompare(x: string, y: string) returns (r: nat)
    ensures r == if x == y then 1 else 0
  {
    if |x| != |y| {
      return 0;
    }
    WidthIs();
    var v: nat := 0;
    for i := 0 to |x|
      invariant v < Pow2(WIDTH)
      invariant v == 0 <==> x[..i] == y[..i]
    {
      var difference := Xor(x[i] as nat, y[i] as nat);
      BitsFit(x[i] as nat, y[i] as nat, WIDTH);
      BitsFit(v, difference, WIDTH);
      XorIsZeroIffEqual(x[i] as nat, y[i] as nat);
      OrIsZeroIffBoth(v, difference);
      v := Or(v, difference);
      assert x[..i + 1] == x[..i] + [x[i]] && y[..i + 1] == y[..i] + [y[i]];
    }
    assert x[..|x|] == x && y[..|y|] == y;
    ZeroBitIsZeroTest(v);
    r := ZeroBit(v);
  }

  method ConstantTimeEqual(a: string, b: string) returns (r: bool)
    ensures r <==> a == b
  {
    if |a| != |b| {
      return false;
    }
    var one := ConstantTimeCompare(a, b);
    r := one == 1;
  }
}
