/** Bytes, their bits, and the little-endian integers of the wire formats. */
module Bytes {
  type byte = x: int | 0 <= x < 256

  function Pow2(k: nat): (r: nat)
    ensures r >= 1
  {
    if k == 0 then 1 else 2 * Pow2(k - 1)
  }

  /** Bit `k` of a number, counted from the least significant one: `(n & (1 << k)) != 0`. */
  predicate Bit(n: nat, k: nat) {
    if k == 0 then n % 2 == 1 else Bit(n / 2, k - 1)
  }

  /** `n | (1 << k)` when `v` holds and `n & ~(1 << k)` otherwise. */
  function WithBit(n: nat, k: nat, v: bool): nat {
    if k == 0 then n / 2 * 2 + (if v then 1 else 0) else WithBit(n / 2, k - 1, v) * 2 + n % 2
  }

  lemma {:induction false} BitOfWithBit(n: nat, k: nat, v: bool, j: nat)
    ensures Bit(WithBit(n, k, v), j) == if j == k then v else Bit(n, j)
  {
    if k > 0 && j > 0 {
      BitOfWithBit(n / 2, k - 1, v, j - 1);
    }
  }

  lemma {:induction false} WithBitBound(n: nat, k: nat, v: bool, width: nat)
    requires k < width && n < Pow2(width)
    ensures WithBit(n, k, v) < Pow2(width)
  {
    var half := Pow2(width - 1);
    assert Pow2(width) == 2 * half && n / 2 < half;
    if k > 0 {
      WithBitBound(n / 2, k - 1, v, width - 1);
      assert WithBit(n / 2, k - 1, v) < half;
    }
  }

  lemma {:induction false} SameBits(a: nat, b: nat, width: nat)
    requires a < Pow2(width) && b < Pow2(width)
    requires forall k :: 0 <= k < width ==> Bit(a, k) == Bit(b, k)
    ensures a == b
  {
    if width > 0 {
      assert Bit(a, 0) == Bit(b, 0);
      forall k | 0 <= k < width - 1 ensures Bit(a / 2, k) == Bit(b / 2, k) {
        assert Bit(a, k + 1) == Bit(b, k + 1);
      }
      SameBits(a / 2, b / 2, width - 1);
    }
  }

  lemma {:induction false} HighBitsClear(n: nat, width: nat, k: nat)
    requires n < Pow2(width) && k >= width
    ensures !Bit(n, k)
  {
    if width > 0 {
      HighBitsClear(n / 2, width - 1, k - 1);
    } else if k > 0 {
      HighBitsClear(n / 2, 0, k - 1);
    }
  }

  /** A number with no bit at or above `width` is below two to the width. */
  lemma {:induction false} BelowByBits(n: nat, width: nat, limit: nat)
    requires width <= limit && n < Pow2(limit)
    requires forall k :: width <= k < limit ==> !Bit(n, k)
    ensures n < Pow2(width)
  {
    if width == 0 {
      ZeroByBits(n, limit);
    } else {
      forall k | width - 1 <= k < limit - 1 ensures !Bit(n / 2, k) {
        assert !Bit(n, k + 1);
      }
      BelowByBits(n / 2, width - 1, limit - 1);
    }
  }

  lemma {:induction false} ZeroByBits(n: nat, limit: nat)
    requires n < Pow2(limit)
    requires forall k :: 0 <= k < limit ==> !Bit(n, k)
    ensures n == 0
  {
    if limit > 0 {
      assert !Bit(n, 0);
      forall k | 0 <= k < limit - 1 ensures !Bit(n / 2, k) {
        assert !Bit(n, k + 1);
      }
      ZeroByBits(n / 2, limit - 1);
    }
  }

  /** Bit `i` of a little-endian bit string: bit `i % 8` of byte `i / 8`. */
  predicate BitAt(s: seq<byte>, i: nat)
    requires i / 8 < |s|
  {
    Bit(s[i / 8], i % 8)
  }

  function PutBit(s: seq<byte>, i: nat, v: bool): (r: seq<byte>)
    requires i / 8 < |s|
    ensures |r| == |s|
  {
    WithBitBound(s[i / 8], i % 8, v, 8);
    s[i / 8 := WithBit(s[i / 8], i % 8, v)]
  }

  lemma BitAtPutBit(s: seq<byte>, i: nat, v: bool, j: nat)
    requires i / 8 < |s| && j / 8 < |s|
    ensures BitAt(PutBit(s, i, v), j) == if j == i then v else BitAt(s, j)
  {
    if i / 8 == j / 8 {
      BitOfWithBit(s[i / 8], i % 8, v, j % 8);
    }
  }

  /** Byte strings of one length with equal bits are equal. */
  lemma SameBitStrings(a: seq<byte>, b: seq<byte>)
    requires |a| == |b|
    requires forall i :: 0 <= i < 8 * |a| ==> BitAt(a, i) == BitAt(b, i)
    ensures a == b
  {
    forall n | 0 <= n < |a| ensures a[n] == b[n] {
      forall k | 0 <= k < 8 ensures Bit(a[n], k) == Bit(b[n], k) {
        assert BitAt(a, 8 * n + k) == BitAt(b, 8 * n + k);
      }
      SameBits(a[n], b[n], 8);
    }
  }
}
