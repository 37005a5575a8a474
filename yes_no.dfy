/**
 * Decimal and Yes/No encodings of states.
 *
 * The helpers dec2yn and yn2dec of the utilities module are not part of this model; they are
 * defined here under the assumption the rest of the program relies on: character i of a
 * state's Yes/No string is the bit of weight 2^i, the weight set_indexes gives the option at
 * master index i.
 */
module YesNo {

  /** 2^i, the weight of the option at master index i. */
  function Pow2(i: nat): (r: nat)
    ensures r >= 1
  {
    if i == 0 then 1 else 2 * Pow2(i - 1)
  }

  /** Bit k of x, as 0 or 1. */
  function Bit(x: nat, k: nat): (r: nat)
    ensures r <= 1
  {
    if k == 0 then x % 2 else Bit(x / 2, k - 1)
  }

  /** A string made only of 'Y' and 'N'. */
  predicate IsYN(s: string) {
    forall i :: 0 <= i < |s| ==> s[i] == 'Y' || s[i] == 'N'
  }

  /** dec2yn: the first n bits of d, least significant first, as 'Y' (set) or 'N' (clear). */
  function DecToYN(d: nat, n: nat): (r: string)
    ensures |r| == n
  {
    if n == 0 then [] else [if d % 2 == 1 then 'Y' else 'N'] + DecToYN(d / 2, n - 1)
  }

  /** yn2dec: the sum of 2^i over the positions i holding 'Y'. */
  function YNToDec(s: string): (r: nat)
  {
    if s == [] then 0 else (if s[0] == 'Y' then 1 else 0) + 2 * YNToDec(s[1..])
  }

  lemma {:induction false} Pow2Monotonic(i: nat, j: nat)
    requires i < j
    ensures Pow2(i) < Pow2(j)
  {
    if j == i + 1 {
    } else {
      Pow2Monotonic(i, j - 1);
    }
  }

  /** Distinct master indices get distinct weights. */
  lemma Pow2Injective(i: nat, j: nat)
    ensures Pow2(i) == Pow2(j) <==> i == j
  {
    if i < j { Pow2Monotonic(i, j); }
    if j < i { Pow2Monotonic(j, i); }
  }

  /** Character k of dec2yn(d, n) is 'Y' exactly when bit k of d is set. */
  lemma {:induction false} DecToYNAt(d: nat, n: nat, k: nat)
    requires k < n
    ensures DecToYN(d, n)[k] == (if Bit(d, k) == 1 then 'Y' else 'N')
  {
    if k > 0 {
      DecToYNAt(d / 2, n - 1, k - 1);
    }
  }

  lemma {:induction false} DecToYNIsYN(d: nat, n: nat)
    ensures IsYN(DecToYN(d, n))
  {
    if n > 0 {
      DecToYNIsYN(d / 2, n - 1);
    }
  }

  /** Bits at or above n are clear in any value below 2^n. */
  lemma {:induction false} BitAboveWidth(d: nat, n: nat, k: nat)
    requires d < Pow2(n) && n <= k
    ensures Bit(d, k) == 0
  {
    if k == 0 {
    } else if n == 0 {
      assert d == 0;
      BitOfZero(k);
    } else {
      BitAboveWidth(d / 2, n - 1, k - 1);
    }
  }

  lemma {:induction false} BitOfZero(k: nat)
    ensures Bit(0, k) == 0
  {
    if k > 0 { BitOfZero(k - 1); }
  }

  /** Round trip: decoding the Yes/No string of a value below 2^n gives the value back. */
  lemma {:induction false} DecodeEncode(d: nat, n: nat)
    requires d < Pow2(n)
    ensures YNToDec(DecToYN(d, n)) == d
  {
    if n > 0 {
      DecodeEncode(d / 2, n - 1);
      var s := DecToYN(d, n);
      assert s[1..] == DecToYN(d / 2, n - 1);
    }
  }

  /** Round trip: encoding the value of a Yes/No string gives the string back. */
  lemma {:induction false} EncodeDecode(s: string)
    requires IsYN(s)
    ensures YNToDec(s) < Pow2(|s|)
    ensures DecToYN(YNToDec(s), |s|) == s
  {
    if s != [] {
      var t := s[1..];
      assert IsYN(t) by {
        forall i | 0 <= i < |t| ensures t[i] == 'Y' || t[i] == 'N' {
          assert t[i] == s[i + 1];
        }
      }
      EncodeDecode(t);
      var d := YNToDec(s);
      assert d % 2 == (if s[0] == 'Y' then 1 else 0);
      assert d / 2 == YNToDec(t);
    }
  }

  /**
   * Adding the weight of a clear bit j sets bit j and leaves every other bit as it was:
   * the reason a sum of distinct option weights encodes exactly the options it includes.
   */
  lemma {:induction false} AddClearBit(x: nat, j: nat, k: nat)
    requires Bit(x, j) == 0
    ensures Bit(x + Pow2(j), k) == (if k == j then 1 else Bit(x, k))
  {
    if j == 0 {
      assert x % 2 == 0;
      if k > 0 {
        assert (x + 1) / 2 == x / 2;
      }
    } else {
      assert (x + Pow2(j)) % 2 == x % 2;
      assert (x + Pow2(j)) / 2 == x / 2 + Pow2(j - 1);
      if k > 0 {
        AddClearBit(x / 2, j - 1, k - 1);
      }
    }
  }
}
