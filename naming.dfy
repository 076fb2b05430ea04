/** The escaping of display names before they are spliced into inline
    handlers such as `navigateToFolder(7, '<name>')`. */
module Naming {
  import opened Wrappers

  /** `displayName.replace(/'/g, "\\'")`: a backslash in front of every
      single quote, everything else as it was. */
  function EscapeQuotes(s: string): (r: string)
    ensures |r| == |s| + QuoteCount(s)
    ensures r == [] || r[0] != '\''
  {
    if s == [] then []
    else (if s[0] == '\'' then "\\'" else [s[0]]) + EscapeQuotes(s[1..])
  }

  function QuoteCount(s: string): nat
  {
    if s == [] then 0 else (if s[0] == '\'' then 1 else 0) + QuoteCount(s[1..])
  }

  /** Drops the backslash of every `\'` pair and keeps all other characters. */
  function DropQuoteEscapes(r: string): string
  {
    if r == [] then []
    else if |r| >= 2 && r[0] == '\\' && r[1] == '\'' then "'" + DropQuoteEscapes(r[2..])
    else [r[0]] + DropQuoteEscapes(r[1..])
  }

  /** EscapeQuotes only inserts a backslash before each quote: removing those
      backslashes gives the name back. */
  lemma {:induction false} EscapeQuotesOnlyInserts(s: string)
    ensures DropQuoteEscapes(EscapeQuotes(s)) == s
  {
    if s != [] {
      EscapeQuotesOnlyInserts(s[1..]);
      var rest := EscapeQuotes(s[1..]);
      if s[0] == '\'' {
        assert EscapeQuotes(s) == "\\'" + rest;
        assert ("\\'" + rest)[2..] == rest;
      } else {
        assert EscapeQuotes(s) == [s[0]] + rest;
        assert ([s[0]] + rest)[1..] == rest;
      }
    }
  }

  /** Every quote in the escaped name has a backslash in front of it. */
  lemma {:induction false} EscapedQuotesArePreceded(s: string, i: nat)
    requires i < |EscapeQuotes(s)| && EscapeQuotes(s)[i] == '\''
    ensures i > 0 && EscapeQuotes(s)[i - 1] == '\\'
  {
    var head: string := if s[0] == '\'' then "\\'" else [s[0]];
    assert EscapeQuotes(s) == head + EscapeQuotes(s[1..]);
    if i >= |head| {
      EscapedQuotesArePreceded(s[1..], i - |head|);
    }
  }

  /** The value of the JavaScript string literal `'body'`
      (section 12.9.4 of ECMA-262): None when the literal would end early at
      an unescaped quote, when the closing quote is itself escaped, when a
      bare line feed or carriage return appears, or for the escapes not
      modelled here (`\x`, `\u`, digits other than a lone `\0`, line
      continuations). */
  function JsLiteralValue(body: string): Option<string>
  {
    if body == [] then Some([])
    else if body[0] == '\'' || body[0] == '\n' || body[0] == '\r' then None
    else if body[0] != '\\' then
      match JsLiteralValue(body[1..])
      case None => None
      case Some(v) => Some([body[0]] + v)
    else if |body| == 1 then None
    else
      match EscapeValue(body[1], body[2..])
      case None => None
      case Some(c) =>
        match JsLiteralValue(body[2..])
        case None => None
        case Some(v) => Some([c] + v)
  }

  /** The character `\e` stands for, given the text after it. */
  function EscapeValue(e: char, after: string): Option<char>
  {
    if e == 'n' then Some('\n')
    else if e == 'r' then Some('\r')
    else if e == 't' then Some('\t')
    else if e == 'b' then Some('\U{8}')
    else if e == 'f' then Some('\U{C}')
    else if e == 'v' then Some('\U{B}')
    else if e == '0' then (if after != [] && '0' <= after[0] <= '9' then None else Some('\U{0}'))
    else if e == 'x' || e == 'u' || ('1' <= e <= '9') then None
    else if e == '\n' || e == '\r' || e == '\U{2028}' || e == '\U{2029}' then None
    else Some(e)
  }

  /** As written, a name ending in a backslash escapes the closing quote of
      the handler's string literal. */
  lemma TrailingBackslashBreaksLiteral()
    ensures EscapeQuotes("a\\") == "a\\"
    ensures JsLiteralValue(EscapeQuotes("a\\")) == None
  {
    assert EscapeQuotes("\\") == "\\";
    assert EscapeQuotes("a\\") == "a" + EscapeQuotes("\\");
  }

  /** As written, the name `\n` (a backslash and the letter n) reaches the
      handler as a line feed. */
  lemma BackslashSequenceIsReinterpreted()
    ensures EscapeQuotes("\\n") == "\\n"
    ensures JsLiteralValue(EscapeQuotes("\\n")) == Some("\n")
    ensures JsLiteralValue(EscapeQuotes("\\n")) != Some("\\n")
  {
    assert EscapeQuotes("n") == "n";
    assert EscapeQuotes("\\n") == "\\" + EscapeQuotes("n");
    var body := "\\n";
    assert body[0] == '\\' && body[1] == 'n' && |body| == 2;
    assert body[2..] == "" && JsLiteralValue(body[2..]) == Some("");
    assert EscapeValue(body[1], body[2..]) == Some('\n');
    assert ['\n'] + "" == "\n";
  }

  /** Escaping for a single-quoted JavaScript string literal: backslashes
      and quotes get a backslash, line feeds and carriage returns become
      `\n` and `\r`. */
  function EscapeForJsString(s: string): (r: string)
    ensures |r| >= |s|
  {
    if s == [] then []
    else EscapedChar(s[0]) + EscapeForJsString(s[1..])
  }

  function EscapedChar(c: char): string
  {
    if c == '\\' then "\\\\"
    else if c == '\'' then "\\'"
    else if c == '\n' then "\\n"
    else if c == '\r' then "\\r"
    else [c]
  }

  /** One escaped character in front of a well-formed literal body
      contributes exactly that character to its value. */
  lemma EscapedCharDecodes(c: char, rest: string)
    requires JsLiteralValue(rest).Some?
    ensures JsLiteralValue(EscapedChar(c) + rest) == Some([c] + JsLiteralValue(rest).value)
  {
    var head := EscapedChar(c);
    var r := head + rest;
    if |head| == 2 {
      assert r[0] == '\\' && r[2..] == rest;
      assert EscapeValue(r[1], r[2..]) == Some(c);
    } else {
      assert r[0] == c && r[1..] == rest;
    }
  }

  /** With the corrected escaping, the handler's JavaScript string literal
      denotes exactly the display name, for every name. This is the literal
      as the JavaScript parser receives it, after the HTML attribute around
      it has been read; that attribute layer is not modelled. */
  lemma {:induction false} EscapeForJsStringRoundTrip(s: string)
    ensures JsLiteralValue(EscapeForJsString(s)) == Some(s)
  {
    if s != [] {
      EscapeForJsStringRoundTrip(s[1..]);
      EscapedCharDecodes(s[0], EscapeForJsString(s[1..]));
      assert [s[0]] + s[1..] == s;
    }
  }

  /** The corrected escaping agrees with the original on every name that
      has no backslash and no line break. */
  lemma {:induction false} EscapingsAgree(s: string)
    requires forall i :: 0 <= i < |s| ==> s[i] != '\\' && s[i] != '\n' && s[i] != '\r'
    ensures EscapeForJsString(s) == EscapeQuotes(s)
  {
    if s != [] {
      EscapingsAgree(s[1..]);
    }
  }

  /** As written, the JavaScript string literal denotes the name for every
      name without a backslash or a line break (attribute layer aside). */
  lemma EscapeQuotesSoundWithoutBackslash(s: string)
    requires forall i :: 0 <= i < |s| ==> s[i] != '\\' && s[i] != '\n' && s[i] != '\r'
    ensures JsLiteralValue(EscapeQuotes(s)) == Some(s)
  {
    EscapingsAgree(s);
    EscapeForJsStringRoundTrip(s);
  }
}
