/** `cortex_logical2hw`: logical task priorities in the encoding of the NVIC and of BASEPRI, where a smaller
    number is more urgent and only the upper bits of the byte exist. */
module Priorities {
  function Pow2(n: nat): (r: nat)
    ensures r >= 1
  {
    if n == 0 then 1 else 2 * Pow2(n - 1)
  }

  /** `1 << nvic_prio_bits`, the most urgent logical priority. */
  function Levels(bits: nat): nat {
    Pow2(bits)
  }

  /** `((1 << bits) - logical) << (8 - bits)` on `u8`: the shift drops what does not fit the byte. */
  function Code(logical: nat, bits: nat): (b: nat)
    requires 1 <= bits <= 7 && logical <= Levels(bits)
    ensures b < 256
  {
    ((Levels(bits) - logical) * Pow2(8 - bits)) % 256
  }

  lemma {:induction false} Pow2Splits(a: nat, b: nat)
    ensures Pow2(a) * Pow2(b) == Pow2(a + b)
  {
    if a > 0 {
      Pow2Splits(a - 1, b);
      assert Pow2(a) * Pow2(b) == 2 * (Pow2(a - 1) * Pow2(b));
    }
  }

  lemma CodeProduct(bits: nat, p: nat)
    requires 1 <= bits <= 7 && p <= Levels(bits)
    ensures Code(p, bits) == if p == 0 then 0 else 256 - p * Pow2(8 - bits)
    ensures p * Pow2(8 - bits) <= 256 && (p * Pow2(8 - bits) == 256 <==> p == Levels(bits))
  {
    var l, s := Levels(bits), Pow2(8 - bits);
    Pow2Splits(bits, 8 - bits);
    assert Pow2(8) == 256;
    assert (l - p) * s == 256 - p * s;
    if p < l { MulOrder(p, l, s); }
    if p > 0 { MulOrder(0, p, s); }
  }

  lemma {:induction false} MulOrder(a: nat, b: nat, s: nat)
    requires a < b && s >= 1
    ensures a * s < b * s
  {
    if s > 1 {
      MulOrder(a, b, s - 1);
      assert a * s == a * (s - 1) + a && b * s == b * (s - 1) + b;
    }
  }

  /** Strictly decreasing on 1..2^bits, so the encoding keeps the order of urgency; 0 only at the top level and,
      because the shifted byte wraps, at logical priority 0. */
  lemma CodeOrder(bits: nat, p: nat, q: nat)
    requires 1 <= bits <= 7 && 1 <= p <= Levels(bits) && 1 <= q <= Levels(bits)
    ensures p < q <==> Code(q, bits) < Code(p, bits)
  {
    CodeProduct(bits, p);
    CodeProduct(bits, q);
    if p < q { MulOrder(p, q, Pow2(8 - bits)); }
    if q < p { MulOrder(q, p, Pow2(8 - bits)); }
  }

  lemma CodeZero(bits: nat, p: nat)
    requires 1 <= bits <= 7 && p <= Levels(bits)
    ensures Code(p, bits) == 0 <==> p == 0 || p == Levels(bits)
  {
    CodeProduct(bits, p);
    if p > 0 { MulOrder(0, p, Pow2(8 - bits)); }
  }

  /** DDI 0403, B1.4.3: BASEPRI masks the exceptions whose priority value is not below it; 0 masks nothing. */
  predicate Masked(basepri: nat, code: nat) {
    basepri != 0 && code >= basepri
  }

  /** BASEPRI set to the code of ceiling `c` masks exactly the tasks of priority at most `c`. */
  lemma BasepriMasksUpToCeiling(bits: nat, c: nat, p: nat)
    requires 1 <= bits <= 7 && 1 <= p <= Levels(bits) && c < Levels(bits)
    ensures Masked(Code(c, bits), Code(p, bits)) <==> p <= c
  {
    CodeZero(bits, c);
    if c > 0 { CodeOrder(bits, c, p); }
  }
}
