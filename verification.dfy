/** The e-mail verification step of the supply tab in app6.py. Three session
    fields: whether the user is verified, the code last sent (None before
    any), and the e-mail address the code was sent to. Until verified, the
    user can ask for a code and can enter one; once verified, the supply
    form replaces both buttons. */
module Verification {
  import opened Values
  import opened Text
  import opened Submissions

  datatype Session = Session(isVerified: bool, verifyCode: Option<string>, emailInput: string)

  /** The fields as a new session sets them up. */
  const Fresh: Session := Session(false, None, "")

  predicate SixDigitCode(s: Session)
  {
    s.verifyCode.Some? ==> |s.verifyCode.value| == 6 && AllDigits(s.verifyCode.value)
  }

  /** The send button: refused with an empty e-mail, which changes nothing;
      otherwise the stored code becomes the text of the drawn code (it reads
      back as that code and, for a code drawn in range, is six digits),
      replacing any earlier one, and the e-mail is locked. The verified flag
      is untouched. Whether the mail goes out does not change the session. */
  function Send(s: Session, email: string, code: int): (t: Session)
    ensures email == "" ==> t == s
    ensures t.isVerified == s.isVerified
    ensures email != "" ==> t.emailInput == email && t.verifyCode.Some?
    ensures email != "" && 0 <= code ==>
      |t.verifyCode.value| >= 1 && AllDigits(t.verifyCode.value) && ParseNat(t.verifyCode.value) == code
    ensures email != "" && 100000 <= code <= 999999 ==> SixDigitCode(t)
  {
    if email == "" then s
    else if 100000 <= code <= 999999 then
      SixDigitText(code);
      s.(verifyCode := Some(IntText(code)), emailInput := email)
    else s.(verifyCode := Some(IntText(code)), emailInput := email)
  }

  /** The confirm button: the session becomes verified exactly when the
      entered code equals the stored one; the stored code and e-mail never
      change, and a mismatch changes nothing at all. */
  function Confirm(s: Session, userCode: string): (t: Session)
    ensures t.isVerified <==> s.isVerified || s.verifyCode == Some(userCode)
    ensures t.verifyCode == s.verifyCode && t.emailInput == s.emailInput
    ensures s.verifyCode != Some(userCode) ==> t == s
  {
    if s.verifyCode == Some(userCode) then s.(isVerified := true) else s
  }

  datatype Action = SendCode(email: string, code: int) | ConfirmCode(userCode: string)

  /** One click on the verification step; neither button is shown once the
      session is verified. A session becomes verified only by confirming the
      code it holds, and a stored code drawn in range stays six digits. */
  function Step(s: Session, a: Action): (t: Session)
    ensures s.isVerified ==> t == s
    ensures t.isVerified && !s.isVerified ==> a.ConfirmCode? && s.verifyCode == Some(a.userCode)
    ensures SixDigitCode(s) && (a.SendCode? ==> 100000 <= a.code <= 999999) ==> SixDigitCode(t)
  {
    if s.isVerified then s
    else match a
      case SendCode(email, code) => Send(s, email, code)
      case ConfirmCode(userCode) => Confirm(s, userCode)
  }

  /** The session after a sequence of clicks: a verified session stays as
      it is, and an unverified one becomes verified only through a confirm
      click. */
  function Run(s: Session, acts: seq<Action>): (t: Session)
    ensures s.isVerified ==> t == s
    ensures t.isVerified && !s.isVerified ==> exists k :: 0 <= k < |acts| && acts[k].ConfirmCode?
    decreases |acts|
  {
    if acts == [] then s
    else
      var rest := acts[1..];
      assert forall k :: 0 <= k < |rest| ==> rest[k] == acts[k + 1];
      Run(Step(s, acts[0]), rest)
  }

  /** Every code drawn lies in the range of `random.randint(100000, 999999)`. */
  predicate CodesDrawn(acts: seq<Action>)
  {
    forall k :: 0 <= k < |acts| && acts[k].SendCode? ==> 100000 <= acts[k].code <= 999999
  }

  /** A new code silently replaces the previous one: sending twice is the
      same as sending only the second time. */
  lemma SendReplaces(s: Session, e1: string, c1: int, e2: string, c2: int)
    requires e2 != ""
    ensures Send(Send(s, e1, c1), e2, c2) == Send(s, e2, c2)
  {
  }

  /** After a second code has been sent, the first one no longer verifies. */
  lemma EarlierCodeRejected(s: Session, e1: string, c1: int, e2: string, c2: int)
    requires !s.isVerified && e2 != ""
    requires 0 <= c1 && 0 <= c2 && c1 != c2
    ensures !Confirm(Send(Send(s, e1, c1), e2, c2), IntText(c1)).isVerified
  {
  }

  /** A wrong entry does not use the code up: the right one still verifies
      afterwards. */
  lemma CodeOutlivesMismatch(s: Session, wrong: string, right: string)
    requires !s.isVerified && s.verifyCode == Some(right)
    ensures Confirm(Confirm(s, wrong), right).isVerified
  {
  }

  /** Without a send that had an e-mail, no sequence of clicks ever verifies
      a new session: there is no code to match. */
  lemma {:induction false} NoCodeNoVerification(acts: seq<Action>)
    requires forall k :: 0 <= k < |acts| && acts[k].SendCode? ==> acts[k].email == ""
    ensures Run(Fresh, acts) == Fresh
    ensures !Run(Fresh, acts).isVerified && Run(Fresh, acts).verifyCode.None?
    decreases |acts|
  {
    if acts != [] {
      assert Step(Fresh, acts[0]) == Fresh;
      NoCodeNoVerification(acts[1..]);
    }
  }

  /** Whatever is clicked, a stored code is always six decimal digits. */
  lemma {:induction false} CodeStaysSixDigits(s: Session, acts: seq<Action>)
    requires SixDigitCode(s) && CodesDrawn(acts)
    ensures SixDigitCode(Run(s, acts))
    decreases |acts|
  {
    if acts != [] {
      var a := acts[0];
      assert CodesDrawn(acts[1..]) by {
        forall k | 0 <= k < |acts[1..]| && acts[1..][k].SendCode?
          ensures 100000 <= acts[1..][k].code <= 999999
        {
          assert acts[1..][k] == acts[k + 1];
        }
      }
      CodeStaysSixDigits(Step(s, a), acts[1..]);
    }
  }

  lemma SampleCodeText()
    ensures IntText(123456) == "123456"
  {
    assert NatText(1) == "1";
    assert NatText(12) == "12";
    assert NatText(123) == "123";
    assert NatText(1234) == "1234";
    assert NatText(12345) == "12345";
  }

  /** Two clicks: a send, then a confirm. */
  lemma RunSendConfirm(s: Session, email: string, code: int, u: string)
    requires !s.isVerified
    ensures Run(s, [SendCode(email, code), ConfirmCode(u)]) == Confirm(Send(s, email, code), u)
  {
    var acts := [SendCode(email, code), ConfirmCode(u)];
    var sent := Send(s, email, code);
    assert acts[1..] == [ConfirmCode(u)];
    assert Run(s, acts) == Run(sent, [ConfirmCode(u)]);
    assert [ConfirmCode(u)][1..] == [];
    assert Run(sent, [ConfirmCode(u)]) == Run(Confirm(sent, u), []);
  }

  /** Sending 123456 and entering "123456" verifies; entering anything else
      instead leaves the session as the send left it. */
  lemma SendThenConfirm(email: string, other: string)
    requires email != "" && other != "123456"
    ensures Run(Fresh, [SendCode(email, 123456), ConfirmCode("123456")]).isVerified
    ensures Run(Fresh, [SendCode(email, 123456), ConfirmCode(other)]) == Send(Fresh, email, 123456)
  {
    SampleCodeText();
    RunSendConfirm(Fresh, email, 123456, "123456");
    RunSendConfirm(Fresh, email, 123456, other);
  }

  /** The session fields of one browser tab. */
  class Gate {
    var isVerified: bool
    var verifyCode: Option<string>
    var emailInput: string

    function State(): Session
      reads this
    {
      Session(isVerified, verifyCode, emailInput)
    }

    /** The first run of the tab: not verified, no code, no e-mail. */
    constructor ()
      ensures State() == Fresh
    {
      isVerified := false;
      verifyCode := None;
      emailInput := "";
    }

    /** The send button, with the drawn code as a parameter. */
    method SendCode(email: string, code: int)
      requires !isVerified
      requires 100000 <= code <= 999999
      modifies this
      ensures State() == Send(old(State()), email, code)
      ensures SixDigitCode(old(State())) ==> SixDigitCode(State())
    {
      if email != "" {
        var text := IntText(code);
        SixDigitText(code);
        verifyCode := Some(text);
        emailInput := email;
      }
    }

    /** The confirm button, with what was typed into the six-character code
        box; `ok` says whether the session is now verified. */
    method ConfirmCode(userCode: string) returns (ok: bool)
      requires !isVerified
      requires |userCode| <= 6
      modifies this
      ensures ok <==> old(verifyCode) == Some(userCode)
      ensures State() == Confirm(old(State()), userCode)
    {
      ok := verifyCode == Some(userCode);
      if ok {
        isVerified := true;
      }
    }

    /** The submit button of the supply form, shown only once verified: no
        request without an institution code and a clinic name; otherwise the
        supply row with every field as entered and the verified e-mail. */
    method SubmitSupply(code: string, name: string, region: Value, drug: Value,
                        conditions: seq<string>) returns (req: Option<seq<Cell>>)
      requires isVerified
      ensures req.None? <==> code == "" || name == ""
      ensures req.Some? ==>
        Columns(req.value) == SupplyColumns &&
        Lookup(req.value, "機構代碼") == Some(Str(code)) &&
        Lookup(req.value, "診所名稱") == Some(Str(name)) &&
        Lookup(req.value, "所在縣市") == Some(region) &&
        Lookup(req.value, "提供藥品") == Some(drug) &&
        Lookup(req.value, "給付條件") == Some(ConditionList(conditions)) &&
        Lookup(req.value, "聯絡Email") == Some(Str(emailInput))
    ensures req.Some? ==> req.value == SupplyRow(code, name, region, drug, conditions, emailInput)
    {
      req := SupplyRequest(code, name, region, drug, conditions, emailInput);
      SupplyRowReadsBack(code, name, region, drug, conditions, emailInput);
    }
  }
}
