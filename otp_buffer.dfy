/**
 * The one-time-code entry shared by app/auth/verify-otp/page.tsx (4 slots) and
 * app/auth/verify-email/page.tsx (6 slots): a row of one-character slots filled by typing or
 * by pasting, the completeness check and the resend countdown.
 */
module OtpBuffer {
  import opened Strings

  /** `otp.join("")`: with one character in every slot, the code is those characters in slot order. */
  function Code(otp: seq<string>): (s: string)
    ensures (forall j :: 0 <= j < |otp| ==> |otp[j]| == 1) ==>
      |s| == |otp| && forall j :: 0 <= j < |otp| ==> s[j] == otp[j][0]
  {
    if otp == [] then ""
    else
      var rest := Code(otp[1..]);
      assert forall j :: 1 <= j < |otp| ==> otp[j] == otp[1..][j - 1];
      otp[0] + rest
  }

  /** Each slot is empty or holds one digit: what typing and pasting keep true. */
  predicate WellFormed(otp: seq<string>)
    ensures WellFormed(otp) ==> forall j :: 0 <= j < |otp| ==> |otp[j]| <= 1
  {
    forall j :: 0 <= j < |otp| ==> otp[j] == "" || (|otp[j]| == 1 && IsDigit(otp[j][0]))
  }

  /** `otp.every(digit => digit !== "")`: on a well-formed buffer, every slot holds one digit. */
  predicate Complete(otp: seq<string>)
    ensures WellFormed(otp) ==>
      (Complete(otp) <==> forall j :: 0 <= j < |otp| ==> |otp[j]| == 1 && IsDigit(otp[j][0]))
  {
    forall j :: 0 <= j < |otp| ==> otp[j] != ""
  }

  /** `Array(n).fill("")`: the buffer the page starts with and returns to on resend. */
  function Empty(n: nat): (otp: seq<string>)
    ensures |otp| == n && WellFormed(otp)
    ensures n > 0 ==> !Complete(otp)
  {
    var e := seq(n, _ => "");
    assert n > 0 ==> e[0] == "";
    e
  }

  /** With at most one character per slot, the code is as long as the buffer exactly when no slot is empty. */
  lemma {:induction false} CompleteIffFullLength(otp: seq<string>)
    requires forall j :: 0 <= j < |otp| ==> |otp[j]| <= 1
    ensures |Code(otp)| <= |otp|
    ensures Complete(otp) <==> |Code(otp)| == |otp|
  {
    if otp != [] {
      CompleteIffFullLength(otp[1..]);
      assert Complete(otp) <==> otp[0] != "" && Complete(otp[1..]);
    }
  }

  /**
   * The Verify button of both pages, `disabled={busy || !otp.every(...)}`: enabled exactly when
   * no request is in flight and every slot is filled, which on a well-formed buffer is when the
   * joined code is as long as the buffer.
   */
  function VerifyDisabled(busy: bool, otp: seq<string>): (d: bool)
    ensures !d <==> !busy && Complete(otp)
    ensures WellFormed(otp) ==> (!d <==> !busy && |Code(otp)| == |otp|)
  {
    if WellFormed(otp) then
      CompleteIffFullLength(otp);
      busy || !Complete(otp)
    else
      busy || !Complete(otp)
  }

  /**
   * `handleOtpChange(index, value)`: a non-empty value that is not all digits is ignored;
   * otherwise the slot takes the value's last character ("" when the value is empty).
   */
  function Change(otp: seq<string>, index: nat, value: string): (r: seq<string>)
    requires index < |otp|
    ensures |r| == |otp|
    ensures value != "" && !AllDigits(value) ==> r == otp
    ensures value == "" || AllDigits(value) ==>
      r[index] == LastChar(value) && forall j :: 0 <= j < |otp| && j != index ==> r[j] == otp[j]
  {
    if value != "" && !AllDigits(value) then otp else otp[index := LastChar(value)]
  }

  /** Typing keeps every slot empty or a single digit. */
  lemma ChangeWellFormed(otp: seq<string>, index: nat, value: string)
    requires index < |otp| && WellFormed(otp)
    ensures WellFormed(Change(otp, index, value))
  {
    if value != "" && AllDigits(value) {
      assert IsDigit(value[|value| - 1]);
    }
  }

  /** `text.slice(0, n)`. */
  function Prefix(text: string, n: nat): (p: string)
    ensures |p| == if |text| < n then |text| else n
    ensures p == text[..|p|]
  {
    if |text| < n then text else text[..n]
  }

  /**
   * `handlePaste` on a buffer of `n` slots: the first `n` pasted characters, if they are all
   * digits, overwrite slots 0, 1, ... one character each, and the later slots are kept; the
   * focus moves to slot `min(k, n - 1)` for `k` pasted digits. Anything else is ignored
   * (`focus` is -1 then).
   */
  method Paste(otp: seq<string>, text: string) returns (r: seq<string>, focus: int)
    requires |otp| > 0
    ensures var data := Prefix(text, |otp|);
      if !AllDigits(data) then r == otp && focus == -1
      else
        |r| == |otp| &&
        (forall j :: 0 <= j < |data| ==> r[j] == [data[j]]) &&
        (forall j :: |data| <= j < |otp| ==> r[j] == otp[j]) &&
        focus == (if |data| < |otp| - 1 then |data| else |otp| - 1)
    ensures WellFormed(otp) ==> WellFormed(r)
  {
    var n := |otp|;
    var data := Prefix(text, n);
    if !AllDigits(data) {
      return otp, -1;
    }
    r := otp;
    var i := 0;
    while i < |data|
      invariant 0 <= i <= |data| <= n && |r| == n
      invariant forall j :: 0 <= j < i ==> r[j] == [data[j]]
      invariant forall j :: i <= j < n ==> r[j] == otp[j]
    {
      if i < n {
        r := r[i := [data[i]]];
      }
      i := i + 1;
    }
    focus := if |data| < n - 1 then |data| else n - 1;
  }

  /** The resend countdown: seconds left, and whether the resend link is enabled. */
  datatype Countdown = Countdown(resendTimer: int, canResend: bool)

  /** `useState(60)` and `useState(false)`. */
  const Start := Countdown(60, false)

  /**
   * The countdown effect: while seconds remain it only schedules the next tick; at 0 (the
   * `else` branch) the resend link is enabled at once. The count itself never changes here.
   */
  function Settle(c: Countdown): (d: Countdown)
    ensures d.resendTimer == c.resendTimer
    ensures d.canResend <==> c.canResend || c.resendTimer <= 0
  {
    if c.resendTimer > 0 then c else c.(canResend := true)
  }

  /**
   * One second passes: a pending timeout lowers the count by one, then the effect runs again.
   * The link is enabled after the tick exactly when it was, or when the count has run out.
   */
  function Tick(c: Countdown): (d: Countdown)
    ensures d.resendTimer == if c.resendTimer > 0 then c.resendTimer - 1 else c.resendTimer
    ensures d.canResend <==> c.canResend || d.resendTimer <= 0
  {
    if c.resendTimer > 0 then Settle(c.(resendTimer := c.resendTimer - 1)) else Settle(c)
  }

  /** Above 1 a tick only lowers the count; from 1 it reaches 0 and enables the link. */
  lemma TickStep(c: Countdown)
    requires c.resendTimer > 0
    ensures c.resendTimer > 1 ==> Tick(c) == c.(resendTimer := c.resendTimer - 1)
    ensures c.resendTimer == 1 ==> Tick(c) == Countdown(0, true)
  {
  }

  /** `k` seconds passing. */
  function Ticks(c: Countdown, k: nat): (d: Countdown)
    decreases k
  {
    if k == 0 then c else Ticks(Tick(c), k - 1)
  }

  /** A countdown the effect has seen: either still counting down, or with the link enabled. */
  predicate Settled(c: Countdown)
  {
    c.resendTimer >= 0 && (c.resendTimer > 0 || c.canResend)
  }

  /** After `k` seconds the count is `max(t - k, 0)`, and resending is possible exactly from second `t` on. */
  lemma {:induction false} TicksCount(c: Countdown, k: nat)
    requires Settled(c)
    ensures Ticks(c, k).resendTimer == if c.resendTimer > k then c.resendTimer - k else 0
    ensures Ticks(c, k).canResend == (c.canResend || k >= c.resendTimer)
    decreases k
  {
    if k > 0 {
      TicksCount(Tick(c), k - 1);
    }
  }

  /** From the start, resending becomes possible after exactly 60 seconds. */
  lemma ResendAfterSixtySeconds(k: nat)
    ensures Ticks(Start, k).canResend <==> k >= 60
  {
    TicksCount(Start, k);
  }
}
