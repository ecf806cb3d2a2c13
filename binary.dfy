/**
 * The string-to-integer conversions of the script: Python's `int(s, 2)`, the
 * syndrome key conversion `int(key[::-1], 2)` and `str.replace(" ", "")`.
 */
module Binary {
  import opened Seqs
  import opened Wrappers

  /** A non-empty string of binary digits, the strings `int(s, 2)` accepts here. */
  predicate IsBinaryDigits(s: string)
  {
    |s| > 0 && forall k :: 0 <= k < |s| ==> s[k] == '0' || s[k] == '1'
  }

  function Pow2(n: nat): (r: nat)
    ensures r >= 1
  {
    if n == 0 then 1 else 2 * Pow2(n - 1)
  }

  /** Bit `k` of `v`, bit 0 being the least significant. */
  function Bit(v: nat, k: nat): (b: nat)
    ensures b < 2
  {
    if k == 0 then v % 2 else Bit(v / 2, k - 1)
  }

  function DigitValue(c: char): nat
  {
    if c == '1' then 1 else 0
  }

  /** The value of a digit string read most significant digit first. */
  function DigitsValue(s: string): nat
  {
    if s == [] then 0 else 2 * DigitsValue(s[..|s| - 1]) + DigitValue(s[|s| - 1])
  }

  /** Python's `int(s, 2)`: the value of a binary numeral, or `None` where
      Python raises `ValueError`. */
  function ParseBinary(s: string): (r: Option<nat>)
    ensures r.Some? <==> IsBinaryDigits(s)
  {
    if IsBinaryDigits(s) then Some(DigitsValue(s)) else None
  }

  /** A numeral of `n` digits denotes a number below 2^n. */
  lemma {:induction false} DigitsValueBound(s: string)
    ensures DigitsValue(s) < Pow2(|s|)
  {
    if s != [] {
      DigitsValueBound(s[..|s| - 1]);
    }
  }

  /** Bit `k` of a numeral's value is its `k`-th digit from the right. */
  lemma {:induction false} DigitsValueBit(s: string, k: nat)
    requires k < |s|
    ensures Bit(DigitsValue(s), k) == DigitValue(s[|s| - 1 - k])
  {
    var init := s[..|s| - 1];
    var v := DigitsValue(s);
    assert v == 2 * DigitsValue(init) + DigitValue(s[|s| - 1]);
    if k > 0 {
      assert v / 2 == DigitsValue(init);
      DigitsValueBit(init, k - 1);
      assert init[|init| - 1 - (k - 1)] == s[|s| - 1 - k];
    }
  }

  /** The bits of a number below 2^n determine it. */
  lemma {:induction false} BitsDetermine(v: nat, w: nat, n: nat)
    requires v < Pow2(n) && w < Pow2(n)
    requires forall k :: 0 <= k < n ==> Bit(v, k) == Bit(w, k)
    ensures v == w
  {
    if n > 0 {
      assert Bit(v, 0) == Bit(w, 0);
      forall k | 0 <= k < n - 1 ensures Bit(v / 2, k) == Bit(w / 2, k) {
        assert Bit(v, k + 1) == Bit(w, k + 1);
      }
      BitsDetermine(v / 2, w / 2, n - 1);
    }
  }

  /** A numeral's value is 0 exactly when all its digits are '0'. */
  lemma {:induction false} DigitsValueZero(s: string)
    requires forall k :: 0 <= k < |s| ==> s[k] == '0' || s[k] == '1'
    ensures DigitsValue(s) == 0 <==> forall k :: 0 <= k < |s| ==> s[k] == '0'
  {
    if s != [] {
      var init := s[..|s| - 1];
      assert forall k :: 0 <= k < |init| ==> init[k] == s[k];
      DigitsValueZero(init);
    }
  }

  /** `int(s, 2) == 0` exactly when `s` is a non-empty run of '0'. */
  lemma ParsesToZero(s: string)
    ensures ParseBinary(s) == Some(0) <==> |s| > 0 && forall k :: 0 <= k < |s| ==> s[k] == '0'
  {
    if IsBinaryDigits(s) {
      DigitsValueZero(s);
    }
  }

  /** `int(s, 2) == 1` exactly when `s` is some '0's followed by one '1'. */
  lemma ParsesToOne(s: string)
    ensures ParseBinary(s) == Some(1) <==>
      |s| > 0 && s[|s| - 1] == '1' && forall k :: 0 <= k < |s| - 1 ==> s[k] == '0'
  {
    if |s| > 0 && forall k :: 0 <= k < |s| ==> s[k] == '0' || s[k] == '1' {
      var init := s[..|s| - 1];
      assert forall k :: 0 <= k < |init| ==> init[k] == s[k];
      DigitsValueZero(init);
    }
  }

  /** The key conversion of the correction loop, `int(key[::-1], 2)`: the
      key is written least significant bit first. */
  function SyndromeValue(key: string): Option<nat>
  {
    ParseBinary(Reverse(key))
  }

  /** The conversion succeeds exactly on the non-empty binary strings. */
  lemma SyndromeValueDefined(key: string)
    ensures SyndromeValue(key).Some? <==> IsBinaryDigits(key)
  {
    var r := Reverse(key);
    if IsBinaryDigits(key) {
      forall k | 0 <= k < |r| ensures r[k] == '0' || r[k] == '1' {
        assert r[k] == key[|key| - 1 - k];
      }
    }
    if IsBinaryDigits(r) {
      forall k | 0 <= k < |key| ensures key[k] == '0' || key[k] == '1' {
        assert r[|key| - 1 - k] == key[k];
      }
    }
  }

  /** Bit `k` of the converted key is the key's `k`-th character, and the
      value lies below 2^|key| (below 16 for the four-character keys). */
  lemma SyndromeValueBits(key: string)
    requires SyndromeValue(key).Some?
    ensures SyndromeValue(key).value < Pow2(|key|)
    ensures forall k :: 0 <= k < |key| ==> Bit(SyndromeValue(key).value, k) == DigitValue(key[k])
  {
    var r := Reverse(key);
    assert IsBinaryDigits(r);
    var v := DigitsValue(r);
    assert SyndromeValue(key) == Some(v);
    DigitsValueBound(r);
    forall k | 0 <= k < |key| ensures Bit(v, k) == DigitValue(key[k]) {
      ReversedDigitBit(key, k);
    }
  }

  /** Read back to front, character `k` of a string is digit `k` from the right. */
  lemma ReversedDigitBit(key: string, k: nat)
    requires k < |key|
    ensures Bit(DigitsValue(Reverse(key)), k) == DigitValue(key[k])
  {
    var r := Reverse(key);
    DigitsValueBit(r, k);
    assert r[|r| - 1 - k] == key[k];
  }

  /** Keys of one length that convert to the same integer are the same key. */
  lemma SyndromeValueInjective(k1: string, k2: string)
    requires |k1| == |k2|
    requires SyndromeValue(k1).Some? && SyndromeValue(k1) == SyndromeValue(k2)
    ensures k1 == k2
  {
    SyndromeValueBits(k1);
    SyndromeValueBits(k2);
    SyndromeValueDefined(k1);
    SyndromeValueDefined(k2);
    forall k | 0 <= k < |k1| ensures k1[k] == k2[k] {
      assert DigitValue(k1[k]) == DigitValue(k2[k]);
    }
  }

  /** A four-character key converts to its digits weighted 1, 2, 4, 8. */
  lemma SyndromeValueOfFour(key: string)
    requires IsBinaryDigits(key) && |key| == 4
    ensures SyndromeValue(key) ==
      Some(DigitValue(key[0]) + 2 * DigitValue(key[1]) + 4 * DigitValue(key[2]) + 8 * DigitValue(key[3]))
  {
    SyndromeValueDefined(key);
    SyndromeValueBits(key);
    var w := DigitValue(key[0]) + 2 * DigitValue(key[1]) + 4 * DigitValue(key[2]) + 8 * DigitValue(key[3]);
    var w1 := DigitValue(key[1]) + 2 * DigitValue(key[2]) + 4 * DigitValue(key[3]);
    var w2 := DigitValue(key[2]) + 2 * DigitValue(key[3]);
    assert w / 2 == w1 && w1 / 2 == w2 && w2 / 2 == DigitValue(key[3]);
    assert Bit(w, 0) == DigitValue(key[0]);
    assert Bit(w, 1) == Bit(w1, 0) == DigitValue(key[1]);
    assert Bit(w, 2) == Bit(w1, 1) == Bit(w2, 0) == DigitValue(key[2]);
    assert Bit(w, 3) == Bit(w1, 2) == Bit(w2, 1) == Bit(DigitValue(key[3]), 0) == DigitValue(key[3]);
    assert Pow2(4) == 16;
    BitsDetermine(SyndromeValue(key).value, w, 4);
  }

  /** The key for syndrome value `v` with `n` bits, least significant first. */
  function SyndromeKey(v: nat, n: nat): (key: string)
    ensures |key| == n
    ensures forall k :: 0 <= k < n ==> key[k] == if Bit(v, k) == 1 then '1' else '0'
  {
    if n == 0 then [] else [if v % 2 == 1 then '1' else '0'] + SyndromeKey(v / 2, n - 1)
  }

  /** Every value below 2^n is the conversion of exactly the key SyndromeKey gives. */
  lemma SyndromeKeyRoundTrip(v: nat, n: nat)
    requires 0 < n && v < Pow2(n)
    ensures SyndromeValue(SyndromeKey(v, n)) == Some(v)
  {
    var key := SyndromeKey(v, n);
    assert IsBinaryDigits(key);
    SyndromeValueDefined(key);
    SyndromeValueBits(key);
    BitsDetermine(SyndromeValue(key).value, v, n);
  }

  /** `s.replace(" ", "")`. */
  function RemoveSpaces(s: string): (r: string)
    ensures ' ' !in r
    ensures forall c :: c != ' ' ==> multiset(r)[c] == multiset(s)[c]
    ensures ' ' !in s ==> r == s
  {
    if s == [] then []
    else
      assert s == [s[0]] + s[1..];
      (if s[0] == ' ' then [] else [s[0]]) + RemoveSpaces(s[1..])
  }

  /** Removing spaces keeps the order of the other characters. */
  lemma {:induction false} RemoveSpacesAppend(a: string, b: string)
    ensures RemoveSpaces(a + b) == RemoveSpaces(a) + RemoveSpaces(b)
  {
    if a == [] {
      assert a + b == b;
    } else {
      assert (a + b)[0] == a[0];
      assert (a + b)[1..] == a[1..] + b;
      RemoveSpacesAppend(a[1..], b);
    }
  }
}
