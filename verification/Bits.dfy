/** Verilog bit vectors as sequences of bits, least significant first. */
module Bits {
  import opened Words

  function Pow2(w: nat): (p: nat)
    ensures p > 0
  {
    if w == 0 then 1 else 2 * Pow2(w - 1)
  }

  function ToNat(b: seq<bool>): nat
  {
    if b == [] then 0 else (if b[0] then 1 else 0) + 2 * ToNat(b[1..])
  }

  function OfNat(x: nat, w: nat): (b: seq<bool>)
    ensures |b| == w
  {
    if w == 0 then [] else [x % 2 == 1] + OfNat(x / 2, w - 1)
  }

  lemma {:induction false} ToNatOfNat(x: nat, w: nat)
    requires x < Pow2(w)
    ensures ToNat(OfNat(x, w)) == x
  {
    if w > 0 {
      ToNatOfNat(x / 2, w - 1);
    }
  }

  lemma {:induction false} ToNatBound(b: seq<bool>)
    ensures ToNat(b) < Pow2(|b|)
  {
    if b != [] {
      ToNatBound(b[1..]);
    }
  }

  lemma Doubled(p: nat, x: nat)
    ensures 2 * (p * x) == (2 * p) * x
  {
  }

  lemma {:induction false} ToNatConcat(a: seq<bool>, b: seq<bool>)
    ensures ToNat(a + b) == ToNat(a) + Pow2(|a|) * ToNat(b)
  {
    if a == [] {
      assert a + b == b;
    } else {
      assert (a + b)[1..] == a[1..] + b;
      ToNatConcat(a[1..], b);
      Doubled(Pow2(|a| - 1), ToNat(b));
    }
  }

  lemma {:induction false} Pow2Adds(a: nat, b: nat)
    ensures Pow2(a + b) == Pow2(a) * Pow2(b)
  {
    if a > 0 {
      Pow2Adds(a - 1, b);
      Doubled(Pow2(a - 1), Pow2(b));
    }
  }

  lemma PowersOfInterest()
    ensures Pow2(11) == 2048
    ensures Pow2(32) == B32
    ensures Pow2(64) == B64
  {
    assert Pow2(8) == 256;
    Pow2Adds(8, 8);
    Pow2Adds(16, 16);
    Pow2Adds(32, 32);
  }

  lemma {:induction false} ToNatAllOnes(b: seq<bool>)
    requires forall i :: 0 <= i < |b| ==> b[i]
    ensures ToNat(b) == Pow2(|b|) - 1
  {
    if b != [] {
      ToNatAllOnes(b[1..]);
    }
  }

  /** `$clog2`: the fewest bits that can index `n` items. */
  function Clog2(n: nat): (w: nat)
    requires n >= 1
    ensures Pow2(w) >= n
    ensures w > 0 ==> Pow2(w - 1) < n
  {
    if n == 1 then 0 else 1 + Clog2((n + 1) / 2)
  }

  lemma {:induction false} Pow2Mono(a: nat, b: nat)
    requires a <= b
    ensures Pow2(a) <= Pow2(b)
  {
    if a < b {
      Pow2Mono(a, b - 1);
    }
  }
}
