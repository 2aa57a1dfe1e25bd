/**
 * app/auth/verify-otp/page.tsx: the second step of the password reset, where the 4-digit code
 * sent to the stored e-mail address is entered. Navigation and toasts are returned as values.
 */
module VerifyOtpPage {
  import opened Wrappers
  import opened Strings
  import opened OtpBuffer

  const Slots := 4

  /** `useState(["", "", "", ""])`. */
  const InitialOtp := Empty(Slots)

  /** What `handleSubmit` does: nothing, or ask the server to check this code for this address. */
  datatype Submission = Ignored | VerifyRequest(email: string, otp: string)

  /** `handleSubmit`: proceeds only when the joined code has 4 characters and an e-mail is stored. */
  function Submit(otp: seq<string>, forgotPasswordEmail: Option<string>): (s: Submission)
    ensures s.VerifyRequest? <==> |Code(otp)| == Slots && Truthy(forgotPasswordEmail)
    ensures s.VerifyRequest? ==> s.email == forgotPasswordEmail.value && s.otp == Code(otp)
  {
    if |Code(otp)| != Slots || !Truthy(forgotPasswordEmail) then Ignored
    else VerifyRequest(forgotPasswordEmail.value, Code(otp))
  }

  /** On a buffer kept well formed by typing and pasting, submitting proceeds exactly when every slot is filled. */
  lemma SubmitNeedsCompleteCode(otp: seq<string>, email: Option<string>)
    requires |otp| == Slots && WellFormed(otp)
    ensures Submit(otp, email).VerifyRequest? <==> Complete(otp) && Truthy(email)
  {
    CompleteIffFullLength(otp);
  }

  /**
   * Without a stored e-mail the page renders nothing and sends the user back to
   * /auth/forgot-password; with no address, no code is ever sent for checking and a resend
   * changes nothing.
   */
  predicate RedirectsToForgotPassword(forgotPasswordEmail: Option<string>)
    ensures RedirectsToForgotPassword(forgotPasswordEmail) ==>
      forall otp :: !Submit(otp, forgotPasswordEmail).VerifyRequest?
    ensures RedirectsToForgotPassword(forgotPasswordEmail) ==>
      forall c, otp, sent :: Resend(c, otp, forgotPasswordEmail, sent) == (c, otp)
  {
    !Truthy(forgotPasswordEmail)
  }

  /**
   * `handleResend`: without `canResend` or a stored e-mail nothing happens; after the server
   * has sent a new code (`sent`) the countdown restarts at 60 and the buffer is cleared; a
   * failed send only shows a toast.
   */
  function Resend(c: Countdown, otp: seq<string>, forgotPasswordEmail: Option<string>, sent: bool): (r: (Countdown, seq<string>))
    ensures c.canResend && Truthy(forgotPasswordEmail) && sent ==> r == (Start, InitialOtp)
    ensures !(c.canResend && Truthy(forgotPasswordEmail) && sent) ==> r == (c, otp)
  {
    if !c.canResend || !Truthy(forgotPasswordEmail) then (c, otp)
    else if sent then (Start, InitialOtp)
    else (c, otp)
  }

  /** After a resend the link stays disabled for exactly 60 more seconds. */
  lemma ResendRestartsCountdown(c: Countdown, otp: seq<string>, email: Option<string>, k: nat)
    requires c.canResend && Truthy(email)
    ensures var (d, o) := Resend(c, otp, email, true);
      o == InitialOtp && (Ticks(d, k).canResend <==> k >= 60)
  {
    ResendAfterSixtySeconds(k);
  }
}
