// Unsigned bytes and 16-bit words as the firmware's C types hold them, and the
// bitwise exclusive-or its checksum is built from.

module Bytes {

  type byte = x: int | 0 <= x < 0x100
  type word = x: int | 0 <= x < 0x1_0000

  // Conversion to `uchar_t` and to a 16-bit unsigned integer.
  function ToByte(x: int): byte { if 0 <= x < 0x100 then x else x % 0x100 }

  function ToWord(x: int): word { if 0 <= x < 0x1_0000 then x else x % 0x1_0000 }

  // The 16-bit value of a high byte and a low byte.
  function Join(hi: byte, lo: byte): word { hi * 0x100 + lo }

  function Pow2(k: nat): nat { if k == 0 then 1 else 2 * Pow2(k - 1) }

  // Exclusive-or of the low k bits, one bit at a time.
  function BitXor(k: nat, a: nat, b: nat): nat
  {
    if k == 0 then 0 else BitSum(a % 2, b % 2) + 2 * BitXor(k - 1, a / 2, b / 2)
  }

  function BitSum(x: nat, y: nat): (r: nat)
    ensures r < 2
  {
    if x == y then 0 else 1
  }

  lemma BitXorBits(k: nat, a: nat, b: nat)
    requires k > 0
    ensures BitXor(k, a, b) / 2 == BitXor(k - 1, a / 2, b / 2)
    ensures BitXor(k, a, b) % 2 == BitSum(a % 2, b % 2)
  {
  }

  lemma SameBits(x: nat, y: nat)
    requires x / 2 == y / 2 && x % 2 == y % 2
    ensures x == y
  {
  }

  lemma {:induction false} BitXorAssociates(k: nat, a: nat, b: nat, c: nat)
    ensures BitXor(k, BitXor(k, a, b), c) == BitXor(k, a, BitXor(k, b, c))
  {
    if k > 0 {
      BitXorAssociates(k - 1, a / 2, b / 2, c / 2);
      var ab, bc := BitXor(k, a, b), BitXor(k, b, c);
      BitXorBits(k, a, b);
      BitXorBits(k, b, c);
      BitXorBits(k, ab, c);
      BitXorBits(k, a, bc);
      SameBits(BitXor(k, ab, c), BitXor(k, a, bc));
    }
  }

  lemma {:induction false} BitXorCommutes(k: nat, a: nat, b: nat)
    ensures BitXor(k, a, b) == BitXor(k, b, a)
  {
    if k > 0 {
      BitXorCommutes(k - 1, a / 2, b / 2);
      BitXorBits(k, a, b);
      BitXorBits(k, b, a);
      SameBits(BitXor(k, a, b), BitXor(k, b, a));
    }
  }

  lemma {:induction false} BitXorRange(k: nat, a: nat, b: nat)
    requires a < Pow2(k) && b < Pow2(k)
    ensures BitXor(k, a, b) < Pow2(k)
    ensures BitXor(k, a, b) == 0 <==> a == b
    ensures BitXor(k, a, 0) == a
  {
    if k > 0 {
      BitXorRange(k - 1, a / 2, b / 2);
    }
  }

  function Xor(a: byte, b: byte): (r: byte)
    ensures r == 0 <==> a == b
    ensures b == 0 ==> r == a
  {
    BitXorRange(8, a, b);
    BitXor(8, a, b)
  }

  lemma XorLaws(a: byte, b: byte, c: byte)
    ensures Xor(Xor(a, b), c) == Xor(a, Xor(b, c))
    ensures Xor(a, b) == Xor(b, a)
  {
    BitXorAssociates(8, a, b, c);
    BitXorCommutes(8, a, b);
  }

  // (a ^ b) ^ (c ^ d) == (a ^ c) ^ (b ^ d)
  lemma XorMiddleSwap(a: byte, b: byte, c: byte, d: byte)
    ensures Xor(Xor(a, b), Xor(c, d)) == Xor(Xor(a, c), Xor(b, d))
  {
    XorLaws(a, b, Xor(c, d));
    XorLaws(b, c, d);
    XorLaws(c, b, d);
    XorLaws(a, c, Xor(b, d));
    XorLaws(b, c, 0);
  }

  // The running checksum of the packet loops: every byte folded in from the left.
  function XorAll(s: seq<byte>): byte
  {
    if s == [] then 0 else Xor(XorAll(s[..|s| - 1]), s[|s| - 1])
  }

  function XorEach(s: seq<byte>, t: seq<byte>): (r: seq<byte>)
    requires |s| == |t|
    ensures |r| == |s|
  {
    seq(|s|, i requires 0 <= i < |s| => Xor(s[i], t[i]))
  }

  lemma {:induction false} XorAllOfXorEach(s: seq<byte>, t: seq<byte>)
    requires |s| == |t|
    ensures XorAll(XorEach(s, t)) == Xor(XorAll(s), XorAll(t))
  {
    if s != [] {
      var n := |s| - 1;
      XorAllOfXorEach(s[..n], t[..n]);
      assert XorEach(s, t)[..n] == XorEach(s[..n], t[..n]);
      XorMiddleSwap(XorAll(s[..n]), XorAll(t[..n]), s[n], t[n]);
    }
  }

  // Replacing one byte of a sequence changes the checksum by the difference.
  lemma {:induction false} XorAllUpdate(s: seq<byte>, k: nat, x: byte)
    requires k < |s|
    ensures XorAll(s[k := x]) == Xor(XorAll(s), Xor(s[k], x))
  {
    var n := |s| - 1;
    if k == n {
      assert s[k := x][..n] == s[..n];
      XorReplace(XorAll(s[..n]), s[n], x);
    } else {
      XorAllUpdate(s[..n], k, x);
      assert s[k := x][..n] == s[..n][k := x];
      XorLaws(XorAll(s[..n]), Xor(s[k], x), s[n]);
      XorLaws(Xor(s[k], x), s[n], 0);
      XorLaws(XorAll(s[..n]), s[n], Xor(s[k], x));
    }
  }

  lemma XorReplace(rest: byte, was: byte, x: byte)
    ensures Xor(rest, x) == Xor(Xor(rest, was), Xor(was, x))
  {
    XorLaws(rest, was, Xor(was, x));
    XorLaws(was, was, x);
    XorLaws(x, 0, 0);
  }

  // Bitwise-or of the low k bits, and a left shift by eight joined with it, as C
  // computes `hi << 8 | lo` on 32-bit integers.

  function BitOr(k: nat, a: nat, b: nat): nat
  {
    if k == 0 then 0 else (if a % 2 == 0 && b % 2 == 0 then 0 else 1) + 2 * BitOr(k - 1, a / 2, b / 2)
  }

  function Int32(x: int): int
  {
    var m := x % 0x1_0000_0000;
    if m < 0x8000_0000 then m else m - 0x1_0000_0000
  }

  function SignedChar(x: int): int
  {
    var m := x % 0x100;
    if m < 0x80 then m else m - 0x100
  }

  function ShiftOr(hi: int, lo: int): int
  {
    Int32(BitOr(32, hi * 0x100 % 0x1_0000_0000, lo % 0x1_0000_0000))
  }

  lemma {:induction false} OrWithZero(k: nat, a: nat)
    requires a < Pow2(k)
    ensures BitOr(k, a, 0) == a
  {
    if k > 0 {
      OrWithZero(k - 1, a / 2);
    }
  }

  // Disjoint bits add up.
  lemma {:induction false} OrDisjoint(k: nat, j: nat, a: nat, b: nat)
    requires j <= k && a < Pow2(k - j) && b < Pow2(j)
    ensures BitOr(k, a * Pow2(j), b) == a * Pow2(j) + b
  {
    if j == 0 {
      OrWithZero(k, a);
    } else {
      var h := a * Pow2(j - 1);
      assert a * Pow2(j) == 2 * h;
      OrDisjoint(k - 1, j - 1, a, b / 2);
    }
  }

  lemma ShiftOrJoins(hi: byte, lo: byte)
    ensures ShiftOr(hi, lo) == Join(hi, lo)
  {
    hide BitOr;
    assert Pow2(8) == 0x100;
    assert Pow2(16) == 0x1_0000;
    assert Pow2(24) == 0x100_0000;
    OrDisjoint(32, 8, hi, lo);
    hide Pow2;
  }
}
