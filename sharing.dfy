/** The pieces of the share dialog that are plain computations: the expiry
    field, the share link, the request body and what the dialog reports,
    and the note field's 500-character cap. */
module Sharing {
  import opened Wrappers
  import opened JsStrings
  import opened Json
  import Api

  /** The `expiry` value sent to share.php, or the rejection of a custom
      duration (no request is made then). */
  datatype Expiry = ExpiryOk(value: string) | InvalidDuration

  /** A `custom` choice is `parseInt(value, 10)` followed by the unit, and is
      rejected unless the number is at least 1 (NaN and 0 are falsy, and
      negatives are below 1); every other choice is sent as selected. */
  function ExpiryChoice(selected: string, customValue: string, unit: string): (e: Expiry)
    ensures selected != "custom" ==> e == ExpiryOk(selected)
    ensures selected == "custom" ==>
      (e.InvalidDuration? <==> ParseInt(customValue).None? || ParseInt(customValue).value < 1)
    ensures selected == "custom" && e.ExpiryOk? ==>
      e.value == IntToDecimal(ParseInt(customValue).value) + unit
  {
    if selected != "custom" then ExpiryOk(selected)
    else
      match ParseInt(customValue)
      case None => InvalidDuration
      case Some(v) => if v < 1 then InvalidDuration else ExpiryOk(IntToDecimal(v) + unit)
  }

  /** A typed positive number up to 2^53 (where parseInt's double is still
      exact) is sent as String() of that number followed by the unit, however
      it was typed: after white space, with a `+` sign, with leading zeros,
      and whatever non-digit text trails it. The number reads back from the
      sent value. */
  lemma ExpiryOfTypedNumber(ws: string, sign: string, zeros: string, n: nat, trailing: string, unit: string)
    requires forall i :: 0 <= i < |ws| ==> IsJsSpace(ws[i])
    requires sign == "" || sign == "+"
    requires forall i :: 0 <= i < |zeros| ==> zeros[i] == '0'
    requires 1 <= n <= MaxExactInteger
    requires trailing == [] || !IsDigit(trailing[0])
    requires unit == [] || !IsDigit(unit[0])
    ensures ExpiryChoice("custom", ws + sign + zeros + NatToDecimal(n) + trailing, unit)
         == ExpiryOk(NatToDecimal(n) + unit)
    ensures ParseInt(ExpiryChoice("custom", ws + sign + zeros + NatToDecimal(n) + trailing, unit).value) == Some(n)
  {
    var typed := ws + sign + zeros + NatToDecimal(n) + trailing;
    assert ParseInt(typed) == Some(n) by {
      ParseIntOfWritten(ws, sign, zeros, n, trailing);
    }
    assert IntToDecimal(n) == NatToDecimal(n);
    assert ParseInt(NatToDecimal(n) + unit) == Some(n) by {
      ParseIntOfDecimal(n, unit);
    }
  }

  /** Zero, negative numbers, an empty field and text without digits are
      all rejected. */
  lemma ExpiryRejections(unit: string)
    ensures ExpiryChoice("custom", "0", unit) == InvalidDuration
    ensures ExpiryChoice("custom", "-3", unit) == InvalidDuration
    ensures ExpiryChoice("custom", "", unit) == InvalidDuration
    ensures ExpiryChoice("custom", "abc", unit) == InvalidDuration
  {
    assert ExpiryChoice("custom", "0", unit) == InvalidDuration by {
      ParseIntOfDecimal(0, "");
      assert NatToDecimal(0) + "" == "0";
    }
    assert ExpiryChoice("custom", "-3", unit) == InvalidDuration by {
      NegativeParses(3);
      assert "-" + NatToDecimal(3) == "-3";
    }
    assert ExpiryChoice("custom", "abc", unit) == InvalidDuration by {
      assert !IsJsSpace('a') && !IsDigit('a');
      assert TrimStart("abc") == "abc";
      assert DigitPrefix("abc") == [];
    }
  }

  /** parseInt reads "-n" as the negative number, exactly up to 2^53. */
  lemma NegativeParses(n: nat)
    requires n <= MaxExactInteger
    ensures ParseInt("-" + NatToDecimal(n)) == Some(-(n as int))
  {
    var ds := NatToDecimal(n);
    var s := "-" + ds;
    assert TrimStart(s) == s by {
      assert s[0] == '-' && !IsJsSpace(s[0]);
    }
    assert s != [] && s[0] == '-' && s[1..] == ds;
    assert DigitPrefix(ds) == ds by {
      DigitPrefixOfDigits(ds, []);
      assert ds + [] == ds;
    }
  }

  /** parseInt skips leading white space and stops at the first non-digit,
      so " 12abc" is accepted as 12. */
  lemma ExpiryIgnoresTrailingText()
    ensures ExpiryChoice("custom", " 12abc", "hours") == ExpiryOk("12hours")
  {
    var s := " 12abc";
    assert IsJsSpace(s[0]);
    assert !IsJsSpace(s[1]);
    assert s[1..] == NatToDecimal(12) + "abc";
    assert TrimStart(s) == TrimStart(s[1..]);
    ParseIntOfDecimal(12, "abc");
    assert NatToDecimal(12) + "hours" == "12hours";
  }

  /** A sign and leading zeros are dropped: "+007" is sent as "7". */
  lemma ExpiryDropsPadding()
    ensures ExpiryChoice("custom", "+007", "days") == ExpiryOk("7days")
  {
    var seven := NatToDecimal(7);
    assert seven == "7";
    var typed := [] + "+" + "00" + seven + [];
    assert typed == "+007";
    assert seven + "days" == "7days";
    ExpiryOfTypedNumber([], "+", "00", 7, [], "days");
    assert ExpiryChoice("custom", typed, "days") == ExpiryOk(seven + "days");
  }

  /** `API_BASE.replace('/api/', '/s/')` */
  function ShareBase(): string
  {
    ReplaceFirst(Api.ApiBase, "/api/", "/s/")
  }

  /** The share endpoint sits beside the API directory. */
  lemma ShareBaseValue()
    ensures ShareBase() == "http://localhost/File Sharing/backend/s/"
  {
    assert OccursAt(Api.ApiBase, "/api/", 37);
    forall j: nat | j < 37
      ensures !OccursAt(Api.ApiBase, "/api/", j)
    {
      assert Api.ApiBase[j..j + 5][1] == Api.ApiBase[j + 1];
      assert Api.ApiBase[j + 1] != 'a' || Api.ApiBase[j] != '/';
    }
    ReplaceFirstAt(Api.ApiBase, "/api/", "/s/", 37);
  }

  const MissingTokenMessage: string := "No share token received from server."
  const ShareFailedMessage: string := "Failed to generate share link."

  /** The result the dialog shows: the link, or an error toast whose text is
      known (Some) or is the engine's TypeError text (None). */
  datatype ShareOutcome = Link(url: string) | ShareError(message: Option<string>)

  /** The link for a share token: the share base followed by String(token). */
  function ShareUrl(token: Json): (url: string)
    ensures |url| >= |ShareBase()| && url[..|ShareBase()|] == ShareBase()
    ensures url[|ShareBase()|..] == ToText(token)
  {
    ShareBase() + ToText(token)
  }

  /** `err.message || 'Failed to generate share link.'` */
  function ErrorText(message: Option<string>): Option<string>
  {
    match message
    case None => None
    case Some(m) => Some(if m == "" then ShareFailedMessage else m)
  }

  /** What the dialog makes of the answer to its POST: a link exactly when
      the answer is a value whose `share_token` is truthy; a missing or
      falsy token is an error; reading the token of undefined (after the
      sign-out redirect) or of null is a TypeError. */
  function ShareOutcomeFor(reply: Api.ApiResult): (o: ShareOutcome)
    ensures o.Link? <==> reply.Returned? && MemberTruthy(Get(reply.value, "share_token"))
    ensures o.Link? ==> o.url == ShareUrl(Get(reply.value, "share_token").value)
    ensures reply.Returned? && !Get(reply.value, "share_token").NullAccess?
            && !MemberTruthy(Get(reply.value, "share_token")) ==>
      o == ShareError(Some(MissingTokenMessage))
    ensures reply.Returned? && Get(reply.value, "share_token").NullAccess? ==> o == ShareError(None)
    ensures reply.Redirected? ==> o == ShareError(None)
    ensures reply.Failed? ==> o == ShareError(ErrorText(Api.Message(reply.error)))
  {
    match reply
    case Redirected => ShareError(None)
    case Failed(e) => ShareError(ErrorText(Api.Message(e)))
    case Returned(v) =>
      match Get(v, "share_token")
      case NullAccess => ShareError(None)
      case Missing => ShareError(Some(MissingTokenMessage))
      case Present(t) => if Truthy(t) then Link(ShareUrl(t)) else ShareError(Some(MissingTokenMessage))
  }

  /** Every error toast of the dialog has a non-empty text. */
  lemma ShareErrorsAreNonEmpty(reply: Api.ApiResult)
    requires ShareOutcomeFor(reply).ShareError?
    ensures ShareOutcomeFor(reply).message.Some? ==> ShareOutcomeFor(reply).message.value != ""
  {
  }

  /** The body of the share request: the item, the expiry, the password and
      the trimmed note, which is null when it trims to nothing. */
  function ShareRequest(id: int, kind: string, expiry: string, password: string, note: string): (body: Json)
    ensures body.JObj? && body.fields.Keys == {"id", "type", "expiry", "password", "note"}
    ensures body.fields["id"] == JNum(id) && body.fields["type"] == JStr(kind)
    ensures body.fields["expiry"] == JStr(expiry) && body.fields["password"] == JStr(password)
    ensures body.fields["note"] == JNull <==> Trim(note) == ""
    ensures body.fields["note"] != JNull ==> body.fields["note"] == JStr(Trim(note))
  {
    var trimmed := Trim(note);
    JObj(map[
      "id" := JNum(id),
      "type" := JStr(kind),
      "expiry" := JStr(expiry),
      "password" := JStr(password),
      "note" := if trimmed == "" then JNull else JStr(trimmed)])
  }

  const NoteLimit: nat := 500
  const NoteWarning: nat := 450

  /** The note field after one input event: the counter shows the length
      typed, it turns red above 450 characters, and the text is cut to its
      first 500 characters. */
  datatype NoteField = NoteField(value: string, counter: nat, warning: bool)

  function NoteInput(typed: string): (f: NoteField)
    ensures f.counter == |typed|
    ensures f.warning <==> |typed| > NoteWarning
    ensures |f.value| <= NoteLimit && |f.value| <= |typed| && f.value == typed[..|f.value|]
    ensures f.value == typed <==> |typed| <= NoteLimit
    ensures |f.value| == if |typed| > NoteLimit then NoteLimit else |typed|
  {
    NoteField(if |typed| > NoteLimit then typed[..NoteLimit] else typed, |typed|, |typed| > NoteWarning)
  }

  /** Capping is idempotent: the next input event leaves a capped note as it
      is, and its counter never shows more than 500. */
  lemma NoteCapIdempotent(typed: string)
    ensures NoteInput(NoteInput(typed).value).value == NoteInput(typed).value
    ensures NoteInput(NoteInput(typed).value).counter <= NoteLimit
  {
  }
}
