/**
 * Unsigned words as natural numbers.  A right shift by k is a division by 2^k, a left shift a
 * multiplication, a mask of k low bits a remainder; only `|` needs a definition of its own.
 */
module Bits {

  type byte = x: int | 0 <= x < 256

  function Or(a: nat, b: nat): nat
    decreases a + b
  {
    if a == 0 then b
    else if b == 0 then a
    else 2 * Or(a / 2, b / 2) + (if a % 2 == 1 || b % 2 == 1 then 1 else 0)
  }

  function Pow2(k: nat): (p: nat)
    ensures p > 0
  {
    if k == 0 then 1 else 2 * Pow2(k - 1)
  }

  /** `|` of two words given by their lowest bits and the rest. */
  lemma OrOfPairs(x: nat, c: nat, y: nat, d: nat)
    requires c < 2 && d < 2
    ensures Or(2 * x + c, 2 * y + d) == 2 * Or(x, y) + (if c == 1 || d == 1 then 1 else 0)
  {
    assert (2 * x + c) / 2 == x && (2 * y + d) / 2 == y;
  }

  /** `|` sets no bit that neither word has. */
  lemma {:induction false} OrStaysBelow(a: nat, b: nat, k: nat)
    requires a < Pow2(k) && b < Pow2(k)
    ensures Or(a, b) < Pow2(k)
    decreases k
  {
    if k > 0 {
      OrStaysBelow(a / 2, b / 2, k - 1);
      OrOfPairs(a / 2, a % 2, b / 2, b % 2);
    }
  }

  /** One more bit below two words whose `|` is known. */
  lemma OrGrows(x: nat, y: nat, high: nat, l1: nat, l2: nat)
    requires Or(x + l1 / 2, y + l2 / 2) == high + Or(l1 / 2, l2 / 2)
    ensures Or(2 * x + l1, 2 * y + l2) == 2 * high + Or(l1, l2)
  {
    var u, v, c, d := l1 / 2, l2 / 2, l1 % 2, l2 % 2;
    OrOfPairs(x + u, c, y + v, d);
    OrOfPairs(u, c, v, d);
    assert l1 == 2 * u + c && l2 == 2 * v + d;
  }

  /** A left shift. */
  function Shift(h: nat, k: nat): nat
    decreases k
  {
    if k == 0 then h else 2 * Shift(h, k - 1)
  }

  lemma Shifts(h: nat)
    ensures Shift(h, 2) == 4 * h && Shift(h, 3) == 8 * h && Shift(h, 4) == 16 * h && Shift(h, 5) == 32 * h
    ensures Shift(h, 10) == 1024 * h && Shift(h, 16) == 65_536 * h
  {
    assert Shift(h, 1) == 2 * h && Shift(h, 2) == 4 * h && Shift(h, 3) == 8 * h && Shift(h, 4) == 16 * h;
    assert Shift(h, 5) == 32 * h && Shift(h, 6) == 64 * h && Shift(h, 7) == 128 * h && Shift(h, 8) == 256 * h;
    assert Shift(h, 9) == 512 * h && Shift(h, 10) == 1024 * h && Shift(h, 11) == 2048 * h && Shift(h, 12) == 4096 * h;
    assert Shift(h, 13) == 8192 * h && Shift(h, 14) == 16_384 * h && Shift(h, 15) == 32_768 * h;
  }

  /** `|` acts on the bits from position k up and on the k bits below it independently. */
  lemma {:induction false} OrSplits(h1: nat, l1: nat, h2: nat, l2: nat, k: nat)
    requires l1 < Pow2(k) && l2 < Pow2(k)
    ensures Or(Shift(h1, k) + l1, Shift(h2, k) + l2) == Shift(Or(h1, h2), k) + Or(l1, l2)
    decreases k
  {
    if k > 0 {
      OrSplits(h1, l1 / 2, h2, l2 / 2, k - 1);
      OrGrows(Shift(h1, k - 1), Shift(h2, k - 1), Shift(Or(h1, h2), k - 1), l1, l2);
    }
  }

  /** Words that share no set bit: `|` is addition. */
  lemma OrOfDisjoint(h: nat, l: nat, k: nat)
    requires l < Pow2(k)
    ensures Or(Shift(h, k), l) == Shift(h, k) + l
  {
    OrSplits(h, 0, 0, l, k);
    ShiftOfZero(k);
    assert Or(h, 0) == h && Or(0, l) == l;
  }

  lemma {:induction false} ShiftOfZero(k: nat)
    ensures Shift(0, k) == 0
  {
    if k > 0 {
      ShiftOfZero(k - 1);
    }
  }

  // The same for the shifts that occur.

  lemma ShiftBy4(h: nat)
    ensures Shift(h, 4) == h * 16 && Pow2(4) == 16
  {
    Shifts(h);
    PowersOfTwo();
  }

  lemma ShiftBy16(h: nat)
    ensures Shift(h, 16) == h * 65_536 && Pow2(16) == 65_536
  {
    Shifts(h);
    PowersOfTwo();
  }

  lemma OrSplits4(h1: nat, l1: nat, h2: nat, l2: nat)
    requires l1 < 16 && l2 < 16
    ensures Or(h1 * 16 + l1, h2 * 16 + l2) == Or(h1, h2) * 16 + Or(l1, l2)
  {
    ShiftBy4(h1);
    ShiftBy4(h2);
    ShiftBy4(Or(h1, h2));
    OrSplits(h1, l1, h2, l2, 4);
  }

  lemma OrSplitsScaled(h1: nat, l1: nat, h2: nat, l2: nat, k: nat, a: nat, b: nat, c: nat)
    requires l1 < Pow2(k) && l2 < Pow2(k)
    requires a == Shift(h1, k) && b == Shift(h2, k) && c == Shift(Or(h1, h2), k)
    ensures Or(a + l1, b + l2) == c + Or(l1, l2)
  {
    OrSplits(h1, l1, h2, l2, k);
  }

  lemma OrSplits16(h1: nat, l1: nat, h2: nat, l2: nat)
    requires l1 < 65_536 && l2 < 65_536
    ensures Or(h1 * 65_536 + l1, h2 * 65_536 + l2) == Or(h1, h2) * 65_536 + Or(l1, l2)
  {
    ShiftBy16(h1);
    ShiftBy16(h2);
    ShiftBy16(Or(h1, h2));
    OrSplitsScaled(h1, l1, h2, l2, 16, h1 * 65_536, h2 * 65_536, Or(h1, h2) * 65_536);
  }

  lemma OrBelow4(h: nat, l: nat)
    requires l < 4
    ensures Or(h * 4, l) == h * 4 + l
  {
    PowersOfTwo();
    Shifts(h);
    OrOfDisjoint(h, l, 2);
  }

  lemma OrBelow16(h: nat, l: nat)
    requires l < 16
    ensures Or(h * 16, l) == h * 16 + l
  {
    PowersOfTwo();
    Shifts(h);
    OrOfDisjoint(h, l, 4);
  }

  lemma OrBelow32(h: nat, l: nat)
    requires l < 32
    ensures Or(h * 32, l) == h * 32 + l
  {
    PowersOfTwo();
    Shifts(h);
    OrOfDisjoint(h, l, 5);
  }

  lemma OrBelow1024(h: nat, l: nat)
    requires l < 1024
    ensures Or(h * 1024, l) == h * 1024 + l
  {
    PowersOfTwo();
    Shifts(h);
    OrOfDisjoint(h, l, 10);
  }

  lemma PowersOfTwo()
    ensures Pow2(2) == 4 && Pow2(3) == 8 && Pow2(4) == 16 && Pow2(5) == 32
    ensures Pow2(10) == 1024 && Pow2(16) == 65_536
  {
    assert Pow2(1) == 2 && Pow2(2) == 4 && Pow2(3) == 8 && Pow2(4) == 16 && Pow2(5) == 32;
    assert Pow2(6) == 64 && Pow2(7) == 128 && Pow2(8) == 256 && Pow2(9) == 512 && Pow2(10) == 1024;
    assert Pow2(11) == 2048 && Pow2(12) == 4096 && Pow2(13) == 8192 && Pow2(14) == 16_384;
    assert Pow2(15) == 32_768;
  }

  function Sum(s: seq<byte>): nat {
    if s == [] then 0 else Sum(s[..|s| - 1]) + s[|s| - 1]
  }
}
