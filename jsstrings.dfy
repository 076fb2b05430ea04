/** The JavaScript string built-ins the client relies on, stated over
    `seq<char>`: String(n) for integers, parseInt(s, 10), trim, includes,
    indexOf, and replace with a string pattern (first occurrence only). */
module JsStrings {
  import opened Wrappers

  predicate IsDigit(c: char) { '0' <= c <= '9' }

  predicate AllDigits(s: string) { forall i :: 0 <= i < |s| ==> IsDigit(s[i]) }

  function DigitValue(c: char): (d: nat)
    requires IsDigit(c)
    ensures d < 10
  { (c as int) - ('0' as int) }

  function DigitChar(d: nat): (c: char)
    requires d < 10
    ensures IsDigit(c) && DigitValue(c) == d
  { (('0' as int) + d) as char }

  /** The value of a string of decimal digits, most significant digit first. */
  function DigitsValue(s: string): nat
    requires AllDigits(s)
  {
    if s == [] then 0 else 10 * DigitsValue(s[..|s| - 1]) + DigitValue(s[|s| - 1])
  }

  /** String(n) for a natural number: its decimal digits without leading zeros. */
  function NatToDecimal(n: nat): (s: string)
    ensures |s| >= 1 && AllDigits(s)
    ensures DigitsValue(s) == n
    ensures s[0] == '0' <==> n == 0
  {
    if n < 10 then [DigitChar(n)]
    else
      var prefix := NatToDecimal(n / 10);
      var s := prefix + [DigitChar(n % 10)];
      assert s[..|s| - 1] == prefix;
      s
  }

  /** String(n) for an integer. */
  function IntToDecimal(n: int): string
  {
    if n < 0 then "-" + NatToDecimal(-n) else NatToDecimal(n)
  }

  /** JavaScript's WhiteSpace and LineTerminator characters (the Zs category
      written out), which trim and parseInt skip. */
  predicate IsJsSpace(c: char)
  {
    c == '\t' || c == '\n' || c == '\U{B}' || c == '\U{C}' || c == '\r' || c == ' '
    || c == '\U{A0}' || c == '\U{1680}' || ('\U{2000}' <= c <= '\U{200A}')
    || c == '\U{2028}' || c == '\U{2029}' || c == '\U{202F}' || c == '\U{205F}'
    || c == '\U{3000}' || c == '\U{FEFF}'
  }

  /** String.prototype.trimStart: the suffix left after the leading white space. */
  function TrimStart(s: string): (r: string)
    ensures |r| <= |s| && r == s[|s| - |r|..]
    ensures r == [] || !IsJsSpace(r[0])
    ensures forall i :: 0 <= i < |s| - |r| ==> IsJsSpace(s[i])
  {
    if s != [] && IsJsSpace(s[0]) then TrimStart(s[1..]) else s
  }

  /** String.prototype.trimEnd: the prefix left before the trailing white space. */
  function TrimEnd(s: string): (r: string)
    ensures |r| <= |s| && r == s[..|r|]
    ensures r == [] || !IsJsSpace(r[|r| - 1])
    ensures forall i :: |r| <= i < |s| ==> IsJsSpace(s[i])
  {
    if s != [] && IsJsSpace(s[|s| - 1]) then TrimEnd(s[..|s| - 1]) else s
  }

  /** String.prototype.trim: the piece of `s` between its leading and its
      trailing white space. */
  function Trim(s: string): (r: string)
    ensures r == [] || (!IsJsSpace(r[0]) && !IsJsSpace(r[|r| - 1]))
    ensures var k := |s| - |TrimStart(s)|; k + |r| <= |s| && r == s[k..k + |r|]
  {
    TrimEnd(TrimStart(s))
  }

  /** The longest prefix of `s` made of decimal digits. */
  function DigitPrefix(s: string): (d: string)
    ensures |d| <= |s| && d == s[..|d|] && AllDigits(d)
    ensures |d| == |s| || !IsDigit(s[|d|])
  {
    if s != [] && IsDigit(s[0]) then [s[0]] + DigitPrefix(s[1..]) else []
  }

  /** 2^53: every integer of at most this magnitude is a double exactly, and
      String() writes it in plain digits. Above it parseInt's double is rounded
      (and from 10^21 on written in exponent form), which ParseInt does not do. */
  const MaxExactInteger: nat := 9007199254740992

  /** parseInt(s, 10): skip leading white space, then read a number as
      ParseSigned does. None stands for NaN (no digits). The value is the
      exact integer the digits denote, which is parseInt's result whenever
      its magnitude is at most MaxExactInteger. */
  function ParseInt(s: string): Option<int>
  {
    ParseSigned(TrimStart(s))
  }

  /** What parseInt reads once the white space is skipped: an optional sign,
      then the longest run of decimal digits. */
  function ParseSigned(t: string): Option<int>
  {
    var negative := t != [] && t[0] == '-';
    var unsigned := if t != [] && (t[0] == '-' || t[0] == '+') then t[1..] else t;
    var digits := DigitPrefix(unsigned);
    if digits == [] then None
    else Some(if negative then -(DigitsValue(digits) as int) else DigitsValue(digits))
  }

  lemma {:induction false} DigitPrefixOfDigits(ds: string, rest: string)
    requires AllDigits(ds)
    requires rest == [] || !IsDigit(rest[0])
    ensures DigitPrefix(ds + rest) == ds
  {
    if ds != [] {
      assert (ds + rest)[1..] == ds[1..] + rest;
      DigitPrefixOfDigits(ds[1..], rest);
    } else {
      assert ds + rest == rest;
    }
  }

  /** An unsigned or `+`-signed run of digits followed by a non-digit is
      read as the value of the digits. */
  lemma ParseSignedOfDigits(sign: string, digits: string, rest: string)
    requires sign == "" || sign == "+"
    requires |digits| >= 1 && AllDigits(digits)
    requires rest == [] || !IsDigit(rest[0])
    ensures ParseSigned(sign + (digits + rest)) == Some(DigitsValue(digits))
  {
    var u := digits + rest;
    var t := sign + u;
    assert t != [] && t[0] != '-' && (if t[0] == '-' || t[0] == '+' then t[1..] else t) == u by {
      assert u[0] == digits[0] && IsDigit(u[0]);
      if sign == "" {
        assert t == u;
      } else {
        assert t[0] == '+' && t[1..] == u;
      }
    }
    assert DigitPrefix(u) == digits by {
      DigitPrefixOfDigits(digits, rest);
    }
  }

  /** parseInt reads back what String(n) writes, whatever non-digit text follows. */
  lemma ParseIntOfDecimal(n: nat, rest: string)
    requires rest == [] || !IsDigit(rest[0])
    ensures ParseInt(NatToDecimal(n) + rest) == Some(n)
  {
    var ds := NatToDecimal(n);
    var s := ds + rest;
    assert s[0] == ds[0] && !IsJsSpace(s[0]);
    assert TrimStart(s) == s;
    ParseSignedOfDigits("", ds, rest);
    assert "" + s == s;
  }

  /** trimStart removes exactly a run of white space before a non-space. */
  lemma {:induction false} TrimStartOfSpaces(ws: string, t: string)
    requires forall i :: 0 <= i < |ws| ==> IsJsSpace(ws[i])
    requires t == [] || !IsJsSpace(t[0])
    ensures TrimStart(ws + t) == t
  {
    if ws == [] {
      assert ws + t == t;
    } else {
      assert (ws + t)[0] == ws[0];
      assert (ws + t)[1..] == ws[1..] + t;
      TrimStartOfSpaces(ws[1..], t);
    }
  }

  /** Leading zeros do not change the value of a digit string. */
  lemma {:induction false} LeadingZerosValue(zeros: string, ds: string)
    requires forall i :: 0 <= i < |zeros| ==> zeros[i] == '0'
    requires AllDigits(ds)
    ensures AllDigits(zeros + ds) && DigitsValue(zeros + ds) == DigitsValue(ds)
  {
    var s := zeros + ds;
    if ds == [] {
      assert s == zeros;
      if zeros != [] {
        assert zeros[..|zeros| - 1] + [] == zeros[..|zeros| - 1];
        LeadingZerosValue(zeros[..|zeros| - 1], []);
      }
    } else {
      assert s[..|s| - 1] == zeros + ds[..|ds| - 1];
      assert s[|s| - 1] == ds[|ds| - 1];
      LeadingZerosValue(zeros, ds[..|ds| - 1]);
    }
  }

  /** parseInt reads String(n) back however it was padded: after white space,
      an optional `+` sign and leading zeros, with non-digit text after it. */
  lemma ParseIntOfWritten(ws: string, sign: string, zeros: string, n: nat, rest: string)
    requires forall i :: 0 <= i < |ws| ==> IsJsSpace(ws[i])
    requires sign == "" || sign == "+"
    requires forall i :: 0 <= i < |zeros| ==> zeros[i] == '0'
    requires rest == [] || !IsDigit(rest[0])
    ensures ParseInt(ws + sign + zeros + NatToDecimal(n) + rest) == Some(n)
  {
    var ds := NatToDecimal(n);
    var digits := zeros + ds;
    var t := sign + (digits + rest);
    assert ParseSigned(t) == Some(n) by {
      LeadingZerosValue(zeros, ds);
      ParseSignedOfDigits(sign, digits, rest);
    }
    assert TrimStart(ws + t) == t by {
      assert digits[0] == (zeros + ds)[0] && IsDigit(digits[0]);
      assert (digits + rest)[0] == digits[0];
      assert t[0] == '+' || t[0] == digits[0];
      TrimStartOfSpaces(ws, t);
    }
    calc {
      ws + sign + zeros + ds + rest;
      { AppendAssoc(ws + sign, zeros, ds); }
      ws + sign + digits + rest;
      { AppendAssoc(ws + sign, digits, rest); }
      ws + sign + (digits + rest);
      { AppendAssoc(ws, sign, digits + rest); }
      ws + t;
    }
  }

  lemma AppendAssoc(a: string, b: string, c: string)
    ensures a + b + c == a + (b + c)
  {
  }

  /** `pat` occurs in `s` starting at position `i`. */
  predicate OccursAt(s: string, pat: string, i: nat)
  {
    i + |pat| <= |s| && s[i..i + |pat|] == pat
  }

  /** String.prototype.includes. */
  predicate Includes(s: string, pat: string)
  {
    exists i: nat :: i <= |s| && OccursAt(s, pat, i)
  }

  /** The first position at or after `k` where `pat` occurs in `s`. */
  function IndexOfFrom(s: string, pat: string, k: nat): (r: Option<nat>)
    ensures r.Some? ==> k <= r.value && OccursAt(s, pat, r.value)
    ensures forall j: nat :: k <= j && (r.None? || j < r.value) ==> !OccursAt(s, pat, j)
    decreases |s| - k
  {
    if k + |pat| > |s| then None
    else if s[k..k + |pat|] == pat then Some(k)
    else IndexOfFrom(s, pat, k + 1)
  }

  /** String.prototype.indexOf: the first occurrence of `pat` in `s`. */
  function IndexOf(s: string, pat: string): (r: Option<nat>)
    ensures r.Some? <==> Includes(s, pat)
    ensures r.Some? ==> OccursAt(s, pat, r.value)
    ensures r.Some? ==> forall j: nat :: j < r.value ==> !OccursAt(s, pat, j)
  {
    IndexOfFrom(s, pat, 0)
  }

  /** String.prototype.replace with a string pattern: only the first
      occurrence is replaced; without one, `s` is returned unchanged. */
  function ReplaceFirst(s: string, pat: string, rep: string): string
  {
    match IndexOf(s, pat)
    case None => s
    case Some(i) => s[..i] + rep + s[i + |pat|..]
  }

  /** When the first occurrence of `pat` is at `i`, replace swaps exactly
      that occurrence for `rep`. */
  lemma ReplaceFirstAt(s: string, pat: string, rep: string, i: nat)
    requires OccursAt(s, pat, i)
    requires forall j: nat :: j < i ==> !OccursAt(s, pat, j)
    ensures ReplaceFirst(s, pat, rep) == s[..i] + rep + s[i + |pat|..]
  {
    assert Includes(s, pat);
    var r := IndexOf(s, pat);
    assert r.value == i;
  }
}
