/** Character-level helpers shared by the models: ASCII lower-casing and decimal digits. */
module Text {

  predicate IsUpper(c: char) { 'A' <= c <= 'Z' }

  /** `str.lower()` on one character, restricted to ASCII letters. */
  function LowerChar(c: char): (r: char)
    ensures !IsUpper(r)
  {
    if IsUpper(c) then (c as int + 32) as char else c
  }

  function Lower(s: string): (r: string)
    ensures |r| == |s|
  {
    seq(|s|, i requires 0 <= i < |s| => LowerChar(s[i]))
  }

  /** `[x.lower() for x in ss]` */
  function LowerAll(ss: seq<string>): (r: seq<string>)
    ensures |r| == |ss|
    ensures forall i :: 0 <= i < |ss| ==> r[i] == Lower(ss[i])
  {
    seq(|ss|, i requires 0 <= i < |ss| => Lower(ss[i]))
  }

  predicate IsDigit(c: char) { '0' <= c <= '9' }

  function DigitChar(d: nat): (c: char)
    requires d < 10
    ensures IsDigit(c)
  {
    ('0' as int + d) as char
  }

  function Pow10(k: nat): (r: nat)
    ensures r >= 1
  {
    if k == 0 then 1 else 10 * Pow10(k - 1)
  }

  /** Python's `str(n)` for a natural number. */
  function NatStr(n: nat): (r: string)
    ensures |r| >= 1
    ensures forall i :: 0 <= i < |r| ==> IsDigit(r[i])
    decreases n
  {
    if n < 10 then [DigitChar(n)] else NatStr(n / 10) + [DigitChar(n % 10)]
  }

  /** The number a string of decimal digits denotes (leading zeros allowed). */
  function DigitsValue(s: string): int
  {
    if s == [] then 0 else (s[0] as int - '0' as int) * Pow10(|s| - 1) + DigitsValue(s[1..])
  }

  function Zeros(k: nat): (r: string)
    ensures |r| == k
    ensures forall i :: 0 <= i < k ==> r[i] == '0'
  {
    seq(k, i => '0')
  }

  lemma {:induction false} DigitsValueSnoc(s: string, c: char)
    ensures DigitsValue(s + [c]) == DigitsValue(s) * 10 + (c as int - '0' as int)
  {
    if s == [] {
      assert s + [c] == [c];
    } else {
      assert (s + [c])[1..] == s[1..] + [c];
      DigitsValueSnoc(s[1..], c);
      var v := s[0] as int - '0' as int;
      calc {
        DigitsValue(s + [c]);
        v * Pow10(|s|) + DigitsValue(s[1..] + [c]);
        v * (10 * Pow10(|s| - 1)) + DigitsValue(s[1..]) * 10 + (c as int - '0' as int);
        { assert v * (10 * Pow10(|s| - 1)) == (v * Pow10(|s| - 1)) * 10; }
        (v * Pow10(|s| - 1) + DigitsValue(s[1..])) * 10 + (c as int - '0' as int);
      }
    }
  }

  /** Reading back `str(n)` gives `n`. */
  lemma {:induction false} NatStrValue(n: nat)
    ensures DigitsValue(NatStr(n)) == n
    decreases n
  {
    if n >= 10 {
      NatStrValue(n / 10);
      DigitsValueSnoc(NatStr(n / 10), DigitChar(n % 10));
    }
  }

  /** Leading zeros do not change the value. */
  lemma {:induction false} DigitsValueLeadingZeros(k: nat, s: string)
    ensures DigitsValue(Zeros(k) + s) == DigitsValue(s)
  {
    if k == 0 {
      assert Zeros(k) + s == s;
    } else {
      var z := Zeros(k) + s;
      assert z[0] == '0';
      assert z[1..] == Zeros(k - 1) + s;
      DigitsValueLeadingZeros(k - 1, s);
    }
  }

  /** A number at least `10^k` has more than `k` digits. */
  lemma {:induction false} NatStrLength(n: nat, k: nat)
    requires n >= Pow10(k)
    ensures |NatStr(n)| > k
    decreases k
  {
    if k > 0 {
      NatStrLength(n / 10, k - 1);
    }
  }

  /** Only 1 is written "1". */
  lemma NatStrOne(n: nat)
    requires NatStr(n) == "1"
    ensures n == 1
  {
  }
}
