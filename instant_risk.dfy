/**
 * The instant-risk alert: a pending transaction the analyst approves
 * (after a one-time code is verified) or declines (with a reason). The
 * two 1500 ms timers of the code exchange are a queue of pending
 * callbacks, fired in the order they were scheduled.
 */
module InstantRisk {
  import opened Seqs

  datatype FraudStatus = Pending | Approved | Declined

  datatype OtpStatus = Idle | Sending | Sent | Verifying | Verified | Failed

  /** A scheduled callback; the verify callback holds the code as it was when Verify was clicked. */
  datatype Timer = SendDone | VerifyDone(code: string)

  const CodeLength: nat := 4
  const OtherReason: string := "Other"
  const ReasonCodes: seq<string> := ["Confirmed Fraud", "Suspected Fraud", "Customer Request", "Policy Violation", OtherReason]

  /** The reason line of a declined transaction. */
  function DisplayedReason(reason: string, other: string): string {
    if reason == OtherReason then other else reason
  }

  /** "Confirm Decline": a reason is chosen, and a free-text one is filled in when the choice is "Other". */
  predicate ConfirmDeclineEnabled(reason: string, other: string) {
    reason != "" && (reason != OtherReason || other != "")
  }

  /** A decline that could be confirmed always shows a non-empty reason: the chosen code, or the text. */
  lemma ConfirmedReasonShown(reason: string, other: string)
    requires ConfirmDeclineEnabled(reason, other)
    ensures DisplayedReason(reason, other) != ""
    ensures reason != OtherReason ==> DisplayedReason(reason, other) == reason
    ensures reason == OtherReason ==> DisplayedReason(reason, other) == other
  {
  }

  /** The code input and the Verify button are on screen while a code is out. */
  predicate CodeEntryShown(otp: OtpStatus) {
    otp == Sent || otp == Verifying || otp == Failed
  }

  predicate VerifyEnabled(otp: OtpStatus, code: string) {
    CodeEntryShown(otp) && |code| == CodeLength && otp != Verifying
  }

  predicate ApproveEnabled(status: FraudStatus, otp: OtpStatus) {
    status == Pending && otp == Verified
  }

  /** What the verify callback decides. */
  function VerifyOutcome(code: string): (r: OtpStatus)
    ensures r == Verified <==> |code| == CodeLength
    ensures r == Verified || r == Failed
  {
    if |code| == CodeLength then Verified else Failed
  }

  /** The callbacks that must be pending in each code state: one while sending or verifying, none otherwise. */
  function ExpectedTimers(otp: OtpStatus, code: string): (r: seq<Timer>)
    ensures |r| <= 1
    ensures r == [] <==> otp != Sending && otp != Verifying
  {
    match otp
    case Sending => [SendDone]
    case Verifying => [VerifyDone(code)]
    case _ => []
  }

  class AlertView {
    var status: FraudStatus
    var declineReason: string
    var otherReason: string
    var declineOpen: bool
    var otpStatus: OtpStatus
    var otpCode: string
    var pending: seq<Timer>

    /**
     * The timers match the code state; a declined transaction shows a
     * reason; and, because Verify needs a full code and the input is
     * frozen while verifying, no verification can fail.
     */
    ghost predicate Valid()
      reads this
    {
      && pending == ExpectedTimers(otpStatus, otpCode)
      && (otpStatus == Verifying ==> |otpCode| == CodeLength)
      && otpStatus != Failed
      && (status == Declined ==> DisplayedReason(declineReason, otherReason) != "")
    }

    constructor ()
      ensures Valid()
      ensures status == Pending && otpStatus == Idle && pending == []
      ensures declineReason == "" && otherReason == "" && otpCode == "" && !declineOpen
    {
      status := Pending;
      declineReason := "";
      otherReason := "";
      declineOpen := false;
      otpStatus := Idle;
      otpCode := "";
      pending := [];
    }

    method HandleApprove()
      modifies this`status
      ensures status == Approved
    {
      status := Approved;
    }

    /** The decline handler: without a reason it does nothing; otherwise it declines and closes the dialog. */
    method HandleDecline()
      modifies this`status, this`declineOpen
      ensures declineReason == "" ==> status == old(status) && declineOpen == old(declineOpen)
      ensures declineReason != "" ==> status == Declined && !declineOpen
    {
      if declineReason == "" {
        return;
      }
      status := Declined;
      declineOpen := false;
    }

    method SendOtp()
      modifies this`otpStatus, this`pending
      ensures otpStatus == Sending && pending == old(pending) + [SendDone]
    {
      otpStatus := Sending;
      pending := pending + [SendDone];
    }

    method VerifyOtp()
      modifies this`otpStatus, this`pending
      ensures otpStatus == Verifying && pending == old(pending) + [VerifyDone(otpCode)]
    {
      otpStatus := Verifying;
      pending := pending + [VerifyDone(otpCode)];
    }

    /** The oldest pending callback runs: both delays are equal, so callbacks fire in scheduling order. */
    method FireTimer()
      requires pending != []
      modifies this`otpStatus, this`pending
      ensures pending == old(pending)[1..]
      ensures otpStatus == match old(pending)[0] case SendDone => Sent case VerifyDone(c) => VerifyOutcome(c)
    {
      var t := pending[0];
      pending := pending[1..];
      match t
      case SendDone =>
        otpStatus := Sent;
      case VerifyDone(c) =>
        otpStatus := VerifyOutcome(c);
    }

    // ---- The controls: each acts only when it is on screen and enabled ----

    method ClickSendOtp()
      requires Valid()
      modifies this`otpStatus, this`pending
      ensures Valid()
      ensures old(otpStatus) == Idle ==> otpStatus == Sending && pending == [SendDone]
      ensures old(otpStatus) != Idle ==> otpStatus == old(otpStatus) && pending == old(pending)
    {
      if otpStatus == Idle {
        SendOtp();
      }
    }

    /** Typing a code: the input holds at most four characters and is read-only while verifying. */
    method EditCode(typed: string)
      requires Valid()
      modifies this`otpCode
      ensures Valid()
      ensures CodeEntryShown(otpStatus) && otpStatus != Verifying ==> otpCode == Take(typed, CodeLength)
      ensures !(CodeEntryShown(otpStatus) && otpStatus != Verifying) ==> otpCode == old(otpCode)
    {
      if CodeEntryShown(otpStatus) && otpStatus != Verifying {
        otpCode := Take(typed, CodeLength);
      }
    }

    method ClickVerify()
      requires Valid()
      modifies this`otpStatus, this`pending
      ensures Valid()
      ensures VerifyEnabled(old(otpStatus), otpCode) ==> otpStatus == Verifying && pending == [VerifyDone(otpCode)]
      ensures !VerifyEnabled(old(otpStatus), otpCode) ==> otpStatus == old(otpStatus) && pending == old(pending)
    {
      if VerifyEnabled(otpStatus, otpCode) {
        VerifyOtp();
      }
    }

    /** Time passes until the pending callback runs. */
    method Tick()
      requires Valid() && pending != []
      modifies this`otpStatus, this`pending
      ensures Valid()
      ensures old(otpStatus) == Sending ==> otpStatus == Sent
      ensures old(otpStatus) == Verifying ==> otpStatus == Verified
      ensures pending == []
    {
      FireTimer();
    }

    method ClickApprove()
      requires Valid()
      modifies this`status
      ensures Valid()
      ensures status == if ApproveEnabled(old(status), otpStatus) then Approved else old(status)
    {
      if ApproveEnabled(status, otpStatus) {
        HandleApprove();
      }
    }

    /** The Decline button opens the reason dialog; it is part of the action bar, shown only while pending. */
    method ClickDecline()
      requires Valid()
      modifies this`declineOpen
      ensures Valid()
      ensures declineOpen == (if status == Pending then true else old(declineOpen))
    {
      if status == Pending {
        declineOpen := true;
      }
    }

    /** Cancel, or dismissing the dialog. */
    method CloseDialog()
      requires Valid()
      modifies this`declineOpen
      ensures Valid()
      ensures declineOpen == (if status == Pending then false else old(declineOpen))
    {
      if status == Pending {
        declineOpen := false;
      }
    }

    method SelectReason(reason: string)
      requires Valid() && reason in ReasonCodes
      modifies this`declineReason
      ensures Valid()
      ensures declineReason == if status == Pending && declineOpen then reason else old(declineReason)
    {
      if status == Pending && declineOpen {
        declineReason := reason;
      }
    }

    /** The free-text field exists only while "Other" is the chosen reason. */
    method EditOtherReason(text: string)
      requires Valid()
      modifies this`otherReason
      ensures Valid()
      ensures otherReason == if status == Pending && declineOpen && declineReason == OtherReason then text else old(otherReason)
    {
      if status == Pending && declineOpen && declineReason == OtherReason {
        otherReason := text;
      }
    }

    method ClickConfirmDecline()
      requires Valid()
      modifies this`status, this`declineOpen
      ensures Valid()
      ensures status == Declined ==> DisplayedReason(declineReason, otherReason) != ""
      ensures status == if old(status) == Pending && old(declineOpen) && ConfirmDeclineEnabled(declineReason, otherReason)
                        then Declined else old(status)
      ensures declineOpen == if old(status) == Pending && old(declineOpen) && ConfirmDeclineEnabled(declineReason, otherReason)
                             then false else old(declineOpen)
    {
      if status == Pending && declineOpen && ConfirmDeclineEnabled(declineReason, otherReason) {
        ConfirmedReasonShown(declineReason, otherReason);
        HandleDecline();
      }
    }
  }

  /** Once decided, the alert stays decided: no control returns it to pending or changes the decision. */
  method DecisionIsFinal(v: AlertView, typed: string, reason: string)
    requires v.Valid() && v.status != Pending && reason in ReasonCodes
    modifies v
    ensures v.Valid() && v.status == old(v.status)
  {
    var s := v.status;
    v.ClickApprove();
    v.ClickDecline();
    v.SelectReason(reason);
    v.EditOtherReason(typed);
    v.ClickConfirmDecline();
    v.CloseDialog();
    assert v.status == s;
  }

  /** The approval path: send a code, wait, type four characters, verify, wait, approve. */
  method ApproveWithCode(typed: string) returns (v: AlertView)
    requires |typed| >= CodeLength
    ensures fresh(v) && v.Valid()
    ensures v.status == Approved && v.otpStatus == Verified && v.otpCode == typed[..CodeLength]
  {
    v := new AlertView();
    v.ClickSendOtp();
    v.Tick();
    v.EditCode(typed);
    v.ClickVerify();
    v.Tick();
    v.ClickApprove();
  }
}
