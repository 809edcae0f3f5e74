/** The machine's number types: 32-bit bus words and 64-bit timer values. */
module Words {

  datatype Option<+T> = None | Some(value: T)

  const B32: nat := 0x1_0000_0000
  const B64: nat := 0x1_0000_0000_0000_0000

  type Word = x: nat | x < 0x1_0000_0000
  type Double = x: nat | x < 0x1_0000_0000_0000_0000

  const ALL_ONES: Word := 0xFFFF_FFFF

  function Hi(d: Double): Word { d / B32 }

  function Lo(d: Double): Word { d % B32 }

  function Join(hi: Word, lo: Word): Double { hi * B32 + lo }

  /** One word of a 64-bit value: 0 is the low one, 1 the high one. */
  function Half(d: Double, half: nat): Word
  {
    if half == 0 then Lo(d) else Hi(d)
  }

  /** Replace one word of a 64-bit value. */
  function Splice(d: Double, half: nat, w: Word): Double
  {
    if half == 0 then Join(Hi(d), w) else Join(w, Lo(d))
  }

  /** Truncation to the 64-bit register width. */
  function Wrap(x: nat): Double { x % 0x1_0000_0000_0000_0000 }

  lemma JoinParts(hi: Word, lo: Word)
    ensures Hi(Join(hi, lo)) == hi && Lo(Join(hi, lo)) == lo
  {
  }

  lemma JoinHalf(hi: Word, lo: Word, half: nat, w: Word)
    ensures Half(Join(hi, lo), half) == if half == 0 then lo else hi
    ensures Splice(Join(hi, lo), half, w) == if half == 0 then Join(hi, w) else Join(w, lo)
  {
    JoinParts(hi, lo);
  }

  lemma PartsJoin(d: Double)
    ensures Join(Hi(d), Lo(d)) == d
  {
  }

  /** Floor division by a positive divisor, the two facts nonlinear proofs below rest on. */
  lemma DivBounds(x: nat, p: nat)
    requires p > 0
    ensures (x / p) * p <= x < (x / p + 1) * p
  {
    assert x == (x / p) * p + x % p;
  }

  lemma DivUnique(x: nat, p: nat, q: nat)
    requires p > 0 && q * p <= x < (q + 1) * p
    ensures x / p == q
  {
    DivBounds(x, p);
    if x / p < q {
      MulMono(x / p + 1, q, p);
      assert false;
    } else if x / p > q {
      MulMono(q + 1, x / p, p);
      assert false;
    }
  }

  lemma MulMono(a: nat, b: nat, p: nat)
    requires a <= b
    ensures a * p <= b * p
  {
  }

  lemma AddWraps(x: nat, y: nat)
    ensures Wrap(Wrap(x) + y) == Wrap(x + y)
  {
  }
}
