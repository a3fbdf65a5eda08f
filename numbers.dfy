/**
 * Python's `int()` on a single token, restricted to ASCII decimal digits
 * with an optional leading `+` or `-` (a token has no surrounding
 * whitespace), and its inverse, decimal formatting.
 */
module Numbers {
  import opened Wrappers
  import opened Text

  predicate AllDigits(s: string) {
    forall k :: 0 <= k < |s| ==> IsDigit(s[k])
  }

  function DigitValue(c: char): (d: nat)
    requires IsDigit(c)
    ensures d < 10
  {
    (c as int) - ('0' as int)
  }

  function DigitChar(d: nat): (c: char)
    requires d < 10
    ensures IsDigit(c) && DigitValue(c) == d
  {
    "0123456789"[d]
  }

  /** Value of a string of decimal digits, most significant digit first. */
  function DigitsValue(s: string): nat
    requires AllDigits(s)
  {
    if s == [] then 0 else 10 * DigitsValue(s[..|s| - 1]) + DigitValue(s[|s| - 1])
  }

  /** `int(s)`; `None` is the ValueError Python raises. */
  function ParseInt(s: string): (r: Option<int>)
    ensures r.Some? <==> (|s| > 0 && AllDigits(s)) || (|s| > 1 && (s[0] == '-' || s[0] == '+') && AllDigits(s[1..]))
    ensures r.Some? ==> |s| > 0 && forall k :: 0 < k < |s| ==> IsDigit(s[k])
    ensures r.Some? && r.value < 0 ==> s[0] == '-'
    ensures r.Some? && IsDigit(s[0]) ==> AllDigits(s) && r.value == DigitsValue(s)
    ensures r.Some? && s[0] == '-' ==> AllDigits(s[1..]) && r.value == -(DigitsValue(s[1..]) as int)
    ensures r.Some? && s[0] == '+' ==> AllDigits(s[1..]) && r.value == DigitsValue(s[1..])
  {
    if |s| > 0 && (s[0] == '-' || s[0] == '+') then
      var digits := s[1..];
      if |digits| > 0 && AllDigits(digits) then
        var v: int := DigitsValue(digits);
        Some(if s[0] == '-' then -v else v)
      else None
    else if |s| > 0 && AllDigits(s) then Some(DigitsValue(s))
    else None
  }

  /** Decimal digits of `n`, without leading zeros. */
  function FormatNat(n: nat): (s: string)
    ensures |s| > 0 && AllDigits(s)
    ensures |s| > 1 ==> s[0] != '0'
  {
    if n < 10 then [DigitChar(n)] else FormatNat(n / 10) + [DigitChar(n % 10)]
  }

  /** `str(n)` */
  function FormatInt(n: int): (s: string)
    ensures IsWord(s)
  {
    if n < 0 then "-" + FormatNat(-n) else FormatNat(n)
  }

  lemma {:induction false} DigitsValueOfFormatNat(n: nat)
    ensures DigitsValue(FormatNat(n)) == n
  {
    if n >= 10 {
      var s := FormatNat(n);
      assert s[..|s| - 1] == FormatNat(n / 10);
      DigitsValueOfFormatNat(n / 10);
    }
  }

  /** `int(str(n)) == n` */
  lemma ParseIntOfFormatInt(n: int)
    ensures ParseInt(FormatInt(n)) == Some(n)
  {
    var s := FormatInt(n);
    if n < 0 {
      var digits := FormatNat(-n);
      DigitsValueOfFormatNat(-n);
      assert s == "-" + digits;
      assert s[0] == '-' && s[1..] == digits;
    } else {
      DigitsValueOfFormatNat(n);
      assert IsDigit(s[0]);
    }
  }

  /** `tuple(map(int, ts))`: every token converted, or the first ValueError. */
  function ParseInts(ts: seq<string>): (r: Option<seq<int>>)
    ensures r.Some? ==> |r.value| == |ts| && forall i :: 0 <= i < |ts| ==> ParseInt(ts[i]) == Some(r.value[i])
    ensures r.None? ==> exists i :: 0 <= i < |ts| && ParseInt(ts[i]).None?
  {
    if ts == [] then Some([])
    else match (ParseInt(ts[0]), ParseInts(ts[1..]))
      case (Some(v), Some(vs)) => Some([v] + vs)
      case (None, _) => None
      case (_, None) => None
  }

  /** Formats each integer, so that `ParseInts` reads them back. */
  function FormatInts(vs: seq<int>): (ts: seq<string>)
    ensures |ts| == |vs| && AllWords(ts)
    ensures forall i :: 0 <= i < |vs| ==> ts[i] == FormatInt(vs[i])
  {
    if vs == [] then [] else [FormatInt(vs[0])] + FormatInts(vs[1..])
  }

  lemma ParseIntsOfFormatInts(vs: seq<int>)
    ensures ParseInts(FormatInts(vs)) == Some(vs)
  {
    var ts := FormatInts(vs);
    forall i | 0 <= i < |vs| ensures ParseInt(ts[i]) == Some(vs[i]) {
      ParseIntOfFormatInt(vs[i]);
    }
    var r := ParseInts(ts);
    assert r.Some?;
    assert r.value == vs;
  }
}
