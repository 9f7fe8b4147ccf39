/** Bytes of the serial wire, XOR, and the two sums the checksums are made of. */
module Bytes {
  type byte = x: int | 0 <= x < 256 witness 0
  type bytes = seq<byte>

  /** `a ^ b` on natural numbers, one bit at a time. */
  function Xor(a: nat, b: nat): nat
    decreases a + b
  {
    if a == 0 then b else if b == 0 then a else 2 * Xor(a / 2, b / 2) + (a + b) % 2
  }

  function Pow2(n: nat): (p: nat)
    ensures p >= 1
  {
    if n == 0 then 1 else 2 * Pow2(n - 1)
  }

  lemma {:induction false} XorCommutes(a: nat, b: nat)
    ensures Xor(a, b) == Xor(b, a)
    decreases a + b
  {
    if a != 0 && b != 0 {
      XorCommutes(a / 2, b / 2);
    }
  }

  lemma {:induction false} XorSelf(a: nat)
    ensures Xor(a, a) == 0
  {
    if a != 0 {
      XorSelf(a / 2);
    }
  }

  lemma HalveAndParity(q: nat, r: nat)
    requires r < 2
    ensures (2 * q + r) / 2 == q && (2 * q + r) % 2 == r
  {
  }

  /** The recursion equation without its zero cases. */
  lemma XorStep(a: nat, b: nat)
    ensures Xor(a, b) / 2 == Xor(a / 2, b / 2)
    ensures Xor(a, b) % 2 == (a + b) % 2
  {
    if a != 0 && b != 0 {
      HalveAndParity(Xor(a / 2, b / 2), (a + b) % 2);
    } else {
      XorCommutes(a, b);
      XorCommutes(a / 2, b / 2);
    }
  }

  lemma ParityAssociates(x: nat, y: nat, a: nat, b: nat, c: nat)
    requires x % 2 == (a + b) % 2 && y % 2 == (b + c) % 2
    ensures (x + c) % 2 == (a + y) % 2
  {
  }

  lemma {:induction false} XorAssociates(a: nat, b: nat, c: nat)
    ensures Xor(Xor(a, b), c) == Xor(a, Xor(b, c))
    decreases a + b + c
  {
    if a != 0 && b != 0 && c != 0 {
      var x, y := Xor(a, b), Xor(b, c);
      XorStep(a, b);
      XorStep(b, c);
      XorStep(x, c);
      XorStep(a, y);
      ParityAssociates(x, y, a, b, c);
      XorAssociates(a / 2, b / 2, c / 2);
    }
  }

  lemma {:induction false} XorBounded(a: nat, b: nat, n: nat)
    requires a < Pow2(n) && b < Pow2(n)
    ensures Xor(a, b) < Pow2(n)
  {
    if n > 0 && a != 0 && b != 0 {
      XorBounded(a / 2, b / 2, n - 1);
    }
  }

  lemma XorOfBytes(a: byte, b: byte)
    ensures Xor(a, b) < 256
  {
    assert Pow2(8) == 256 by {
      assert Pow2(4) == 16;
    }
    XorBounded(a, b, 8);
  }

  /** A second XOR with the same number undoes the first. */
  lemma XorTwice(a: nat, b: nat)
    ensures Xor(Xor(a, b), b) == a
  {
    XorAssociates(a, b, b);
    XorSelf(b);
  }

  lemma XorCancels(a: nat, b: nat, c: nat)
    requires Xor(a, c) == Xor(b, c)
    ensures a == b
  {
    XorTwice(a, c);
    XorTwice(b, c);
  }

  lemma XorExchanges(a: nat, b: nat, c: nat)
    ensures Xor(Xor(a, b), c) == Xor(Xor(a, c), b)
  {
    XorAssociates(a, b, c);
    XorCommutes(b, c);
    XorAssociates(a, c, b);
  }

  /** Bit `n` of `a`. */
  function Bit(a: nat, n: nat): nat
    decreases n
  {
    if n == 0 then a % 2 else Bit(a / 2, n - 1)
  }

  /** What XOR does: a bit of the result is set exactly when it is set in one operand only. */
  lemma {:induction false} XorBits(a: nat, b: nat, n: nat)
    ensures Bit(Xor(a, b), n) == if Bit(a, n) == Bit(b, n) then 0 else 1
    decreases n
  {
    if a == 0 || b == 0 {
      ZeroBits(n);
      BitIsBit(if a == 0 then b else a, n);
    } else {
      HalveAndParity(Xor(a / 2, b / 2), (a + b) % 2);
      if n > 0 { XorBits(a / 2, b / 2, n - 1); }
    }
  }

  lemma {:induction false} ZeroBits(n: nat)
    ensures Bit(0, n) == 0
  {
    if n > 0 { ZeroBits(n - 1); }
  }

  lemma {:induction false} BitIsBit(a: nat, n: nat)
    ensures Bit(a, n) in {0, 1}
    decreases n
  {
    if n > 0 { BitIsBit(a / 2, n - 1); }
  }

  function XorSum(s: bytes): (x: byte) {
    if s == [] then 0
    else
      XorOfBytes(XorSum(s[..|s| - 1]), s[|s| - 1]);
      Xor(XorSum(s[..|s| - 1]), s[|s| - 1])
  }

  function Sum(s: bytes): nat {
    if s == [] then 0 else Sum(s[..|s| - 1]) + s[|s| - 1]
  }

  lemma {:induction false} SumsOfConcat(a: bytes, b: bytes)
    ensures XorSum(a + b) == Xor(XorSum(a), XorSum(b))
    ensures Sum(a + b) == Sum(a) + Sum(b)
  {
    if b == [] {
      assert a + b == a;
    } else {
      var front, last := b[..|b| - 1], b[|b| - 1];
      assert (a + b)[..|a + b| - 1] == a + front;
      SumsOfConcat(a, front);
      XorAssociates(XorSum(a), XorSum(front), last);
    }
  }

  /** Splits both sums of `s` around position `i`. */
  lemma SumsAround(s: bytes, i: nat)
    requires i < |s|
    ensures XorSum(s) == Xor(Xor(XorSum(s[..i]), s[i]), XorSum(s[i + 1..]))
    ensures Sum(s) == Sum(s[..i]) + s[i] + Sum(s[i + 1..])
  {
    var left, right := s[..i + 1], s[i + 1..];
    assert s == left + right;
    assert left[..i] == s[..i];
    SumsOfConcat(left, right);
  }

  /** Replacing one byte moves both sums by exactly the difference of the two bytes. */
  lemma SumsOfUpdate(s: bytes, i: nat, v: byte)
    requires i < |s|
    ensures XorSum(s[i := v]) == Xor(Xor(XorSum(s), s[i]), v)
    ensures Sum(s[i := v]) == Sum(s) - s[i] + v
  {
    var t := s[i := v];
    SumsAround(s, i);
    SumsAround(t, i);
    assert t[..i] == s[..i] && t[i + 1..] == s[i + 1..];
    var p, r := XorSum(s[..i]), XorSum(s[i + 1..]);
    XorExchanges(Xor(p, s[i]), r, s[i]);
    XorTwice(p, s[i]);
    XorExchanges(p, r, v);
  }

  /** The XOR sum notices every change of a single byte. */
  lemma XorSumDetects(s: bytes, i: nat, v: byte)
    requires i < |s| && v != s[i]
    ensures XorSum(s[i := v]) != XorSum(s)
  {
    SumsOfUpdate(s, i, v);
    if XorSum(s[i := v]) == XorSum(s) {
      XorTwice(XorSum(s), s[i]);
      XorAssociates(XorSum(s), s[i], v);
      XorCommutes(XorSum(s), Xor(s[i], v));
      XorCommutes(XorSum(s), 0);
      XorCancels(Xor(s[i], v), 0, XorSum(s));
      XorSelf(v);
      XorCancels(s[i], v, v);
    }
  }

  /** Neither sum notices two bytes trading places. */
  lemma SumsOfSwap(s: bytes, i: nat, j: nat)
    requires i < |s| && j < |s|
    ensures XorSum(s[i := s[j]][j := s[i]]) == XorSum(s)
    ensures Sum(s[i := s[j]][j := s[i]]) == Sum(s)
  {
    var once := s[i := s[j]];
    SumsOfUpdate(s, i, s[j]);
    SumsOfUpdate(once, j, s[i]);
    XorTwice(Xor(XorSum(s), s[i]), s[j]);
    XorTwice(XorSum(s), s[i]);
  }

  /** Position of the first `header` in `s` at or after `start`, or `|s|` when there is none. */
  function IndexFrom(s: bytes, header: byte, start: nat): (i: nat)
    requires start <= |s|
    ensures start <= i <= |s|
    ensures i < |s| ==> s[i] == header
    ensures forall k :: start <= k < i ==> s[k] != header
    decreases |s| - start
  {
    if start == |s| || s[start] == header then start else IndexFrom(s, header, start + 1)
  }

  function Flatten(chunks: seq<bytes>): bytes {
    if chunks == [] then [] else chunks[0] + Flatten(chunks[1..])
  }

  lemma SumsOfMore(s: bytes, b: byte)
    ensures XorSum(s + [b]) == Xor(XorSum(s), b) && Sum(s + [b]) == Sum(s) + b
  {
    assert (s + [b])[..|s|] == s;
  }

  /** A byte that closes a sequence to XOR sum zero is the XOR sum of what comes before. */
  lemma XorSumCloses(s: bytes, b: byte)
    ensures XorSum(s + [b]) == 0 <==> b == XorSum(s)
  {
    SumsOfMore(s, b);
    XorSelf(b);
    XorCommutes(XorSum(s), b);
    if Xor(XorSum(s), b) == 0 {
      XorTwice(XorSum(s), b);
    }
  }
}
