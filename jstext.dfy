/** The JavaScript string and number builtins the components rely on:
    String#trim, Array#join, parseFloat, Number#toString and toFixed(2),
    stated on integers (every amount in this model is an integer). */
module JsText {
  import opened Common

  /** ECMAScript WhiteSpace and LineTerminator code points: what String#trim
      removes and what parseFloat skips before the number. That is tab, line
      feed, vertical tab, form feed and carriage return (U+0009 to U+000D),
      the space separators, the two Unicode line terminators and the
      byte-order mark. */
  predicate IsWhitespace(c: char) {
    || '\t' <= c <= '\r'
    || c == ' ' || c == '\U{00A0}' || c == '\U{1680}'
    || '\U{2000}' <= c <= '\U{200A}'
    || c == '\U{2028}' || c == '\U{2029}' || c == '\U{202F}' || c == '\U{205F}'
    || c == '\U{3000}' || c == '\U{FEFF}'
  }

  /** The length of the whitespace run starting at index lo. */
  function LeadingBlanks(s: string, lo: nat): (n: nat)
    requires lo <= |s|
    ensures lo + n <= |s|
    ensures forall k :: lo <= k < lo + n ==> IsWhitespace(s[k])
    ensures lo + n == |s| || !IsWhitespace(s[lo + n])
    decreases |s| - lo
  {
    if lo < |s| && IsWhitespace(s[lo]) then 1 + LeadingBlanks(s, lo + 1) else 0
  }

  /** The length of the whitespace run ending just before index hi, not
      reaching below lo. */
  function TrailingBlanks(s: string, lo: nat, hi: nat): (n: nat)
    requires lo <= hi <= |s|
    ensures n <= hi - lo
    ensures forall k :: hi - n <= k < hi ==> IsWhitespace(s[k])
    ensures n == hi - lo || !IsWhitespace(s[hi - n - 1])
    decreases hi - lo
  {
    if lo < hi && IsWhitespace(s[hi - 1]) then 1 + TrailingBlanks(s, lo, hi - 1) else 0
  }

  /** String#trimStart: drops the leading whitespace run and keeps the rest. */
  function TrimStart(s: string): (r: string)
    ensures |r| <= |s| && r == s[|s| - |r|..]
    ensures r == [] || !IsWhitespace(r[0])
    ensures forall k :: 0 <= k < |s| - |r| ==> IsWhitespace(s[k])
  {
    s[LeadingBlanks(s, 0)..]
  }

  /** String#trim: the part of s between its leading and its trailing
      whitespace runs; empty exactly when s is all whitespace. */
  function Trim(s: string): (r: string)
    ensures r == [] || (!IsWhitespace(r[0]) && !IsWhitespace(r[|r| - 1]))
    ensures r == [] <==> forall k :: 0 <= k < |s| ==> IsWhitespace(s[k])
    ensures var i := LeadingBlanks(s, 0);
            i + |r| <= |s| && r == s[i..i + |r|]
            && (forall k :: 0 <= k < i ==> IsWhitespace(s[k]))
            && (forall k :: i + |r| <= k < |s| ==> IsWhitespace(s[k]))
  {
    var i := LeadingBlanks(s, 0);
    s[i..|s| - TrailingBlanks(s, i, |s|)]
  }

  /** Array#join with a separator. */
  function Join(parts: seq<string>, sep: string): (r: string)
    ensures |parts| == 1 ==> r == parts[0]
    ensures |parts| >= 1 ==> parts[0] <= r
  {
    if |parts| == 0 then ""
    else if |parts| == 1 then parts[0]
    else parts[0] + sep + Join(parts[1..], sep)
  }

  /** Index of the first c in s, or |s| when s holds none. */
  function IndexOf(s: string, c: char): (i: nat)
    ensures i <= |s|
    ensures i < |s| ==> s[i] == c
    ensures forall k :: 0 <= k < i ==> s[k] != c
  {
    if s == [] || s[0] == c then 0 else 1 + IndexOf(s[1..], c)
  }

  /** String#split on one character; used to state what the lines and the
      fields of a generated text are. */
  function Split(s: string, c: char): (parts: seq<string>)
    ensures |parts| >= 1
    decreases |s|
  {
    var i := IndexOf(s, c);
    if i == |s| then [s] else [s[..i]] + Split(s[i + 1..], c)
  }

  /** Splitting text joined on c gives the parts back, as long as no part
      contains c. */
  lemma {:induction false} SplitJoin(parts: seq<string>, c: char)
    requires |parts| >= 1
    requires forall k :: 0 <= k < |parts| ==> c !in parts[k]
    ensures Split(Join(parts, [c]), c) == parts
  {
    if |parts| == 1 {
      assert forall k :: 0 <= k < |parts[0]| ==> parts[0][k] != c;
    } else {
      var head, rest := parts[0], Join(parts[1..], [c]);
      var s := Join(parts, [c]);
      assert s == head + [c] + rest;
      assert s[|head|] == c;
      assert forall k :: 0 <= k < |head| ==> s[k] == head[k] && head[k] != c;
      assert IndexOf(s, c) == |head|;
      assert s[..|head|] == head;
      assert s[|head| + 1..] == rest;
      SplitJoin(parts[1..], c);
    }
  }

  predicate IsDigit(c: char) { '0' <= c <= '9' }

  function DigitChar(d: nat): (c: char)
    requires d < 10
    ensures IsDigit(c)
  {
    (('0' as int) + d) as char
  }

  function DigitValue(c: char): nat
    requires IsDigit(c)
  {
    (c as int) - ('0' as int)
  }

  /** The decimal numeral of n, most significant digit first, no leading zero. */
  function ShowNat(n: nat): (s: string)
    ensures |s| >= 1 && forall k :: 0 <= k < |s| ==> IsDigit(s[k])
  {
    if n < 10 then [DigitChar(n)] else ShowNat(n / 10) + [DigitChar(n % 10)]
  }

  /** Number#toString on an integer, for the exactly representable amounts
      below 1e21 (larger ones are written in exponent form by JavaScript). */
  function ShowNumber(n: int): (s: string)
    ensures |s| >= 1 && (s[0] == '-' <==> n < 0)
  {
    if n < 0 then "-" + ShowNat(-n) else ShowNat(n)
  }

  /** Number#toFixed(2) on an integer below 1e21: its numeral followed by ".00". */
  function Fixed2(n: int): (f: string)
    ensures |f| == |ShowNumber(n)| + 3 && f[..|f| - 3] == ShowNumber(n) && f[|f| - 3..] == ".00"
  {
    ShowNumber(n) + ".00"
  }

  /** The value of a numeral read most significant digit first. */
  function DigitsValue(ds: string): nat
    requires forall k :: 0 <= k < |ds| ==> IsDigit(ds[k])
  {
    if ds == [] then 0 else 10 * DigitsValue(ds[..|ds| - 1]) + DigitValue(ds[|ds| - 1])
  }

  /** The longest prefix of s made of digits. */
  function DigitPrefix(s: string): (ds: string)
    ensures |ds| <= |s| && ds == s[..|ds|]
    ensures forall k :: 0 <= k < |ds| ==> IsDigit(ds[k])
    ensures |ds| == |s| || !IsDigit(s[|ds|])
  {
    if s != [] && IsDigit(s[0]) then [s[0]] + DigitPrefix(s[1..]) else []
  }

  /** parseFloat on integer numerals: leading whitespace is skipped, one
      optional sign is read, then the longest run of digits; anything after
      it is ignored. No digit at all is NaN, here None. */
  function ParseNumber(s: string): (r: Option<int>)
    ensures var t := TrimStart(s);
            r.Some? <==> t != [] && (IsDigit(t[0]) || ((t[0] == '-' || t[0] == '+') && |t| > 1 && IsDigit(t[1])))
    ensures r.Some? && r.value < 0 ==> TrimStart(s)[0] == '-'
  {
    ParseSigned(TrimStart(s))
  }

  /** An optional sign, then the digits. */
  function ParseSigned(t: string): Option<int> {
    if t != [] && t[0] == '-' then
      match ParseUnsigned(t[1..])
      case None => None
      case Some(v) => Some(-v)
    else if t != [] && t[0] == '+' then ParseUnsigned(t[1..])
    else ParseUnsigned(t)
  }

  /** The value of the longest run of digits t starts with; None if t does
      not start with a digit. */
  function ParseUnsigned(t: string): Option<int> {
    var ds := DigitPrefix(t);
    if ds == [] then None else Some(DigitsValue(ds))
  }

  lemma {:induction false} ShowNatValue(n: nat)
    ensures DigitsValue(ShowNat(n)) == n
  {
    if n >= 10 {
      var s := ShowNat(n);
      assert s[..|s| - 1] == ShowNat(n / 10);
      ShowNatValue(n / 10);
    }
  }

  lemma {:induction false} DigitPrefixOfDigits(s: string)
    requires forall k :: 0 <= k < |s| ==> IsDigit(s[k])
    ensures DigitPrefix(s) == s
  {
    if s != [] {
      DigitPrefixOfDigits(s[1..]);
    }
  }

  /** Reading back the text Number#toString gives for a non-negative
      integer yields the same integer. */
  lemma ParseShowNumber(n: nat)
    ensures ParseNumber(ShowNumber(n)) == Some(n)
  {
    ShowNatValue(n);
    var ds := ShowNat(n);
    NumeralHasNoLeadingBlank(ds);
    assert ds[0] != '-' && ds[0] != '+';
    DigitPrefixOfDigits(ds);
  }

  /** The digit run of a numeral ends where a non-digit follows it. */
  lemma {:induction false} DigitPrefixStopsAtDot(ds: string, tail: string)
    requires forall k :: 0 <= k < |ds| ==> IsDigit(ds[k])
    requires tail != [] && !IsDigit(tail[0])
    ensures DigitPrefix(ds + tail) == ds
  {
    if ds != [] {
      assert (ds + tail)[1..] == ds[1..] + tail;
      DigitPrefixStopsAtDot(ds[1..], tail);
    } else {
      assert ds + tail == tail;
    }
  }

  /** Reading back a price written with toFixed(2) yields the price: the
      cell of a non-negative amount parses to that amount. */
  lemma ParseFixed2(n: nat)
    ensures ParseNumber(Fixed2(n)) == Some(n)
  {
    var ds := ShowNat(n);
    ShowNatValue(n);
    assert Fixed2(n) == ds + ".00";
    NumeralHasNoLeadingBlank(ds + ".00");
    DigitPrefixStopsAtDot(ds, ".00");
  }

  lemma NumeralHasNoLeadingBlank(s: string)
    requires s != [] && IsDigit(s[0])
    ensures TrimStart(s) == s
  {
    assert !IsWhitespace(s[0]);
  }

  /** Empty or all-whitespace text is NaN for parseFloat. */
  lemma BlankIsNaN(s: string)
    requires forall k :: 0 <= k < |s| ==> IsWhitespace(s[k])
    ensures ParseNumber(s) == None
  {
    assert TrimStart(s) == [];
  }
}
