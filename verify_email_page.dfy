/**
 * app/auth/verify-email/page.tsx: confirming a new account's e-mail address with a 6-digit
 * code. The page has no server call yet: a complete code leads to /auth/login.
 */
module VerifyEmailPage {
  import opened OtpBuffer

  const Slots := 6

  /** `useState(["", "", "", "", "", ""])`. */
  const InitialOtp := Empty(Slots)

  datatype Submission = Ignored | GoToLogin(otp: string)

  /** `handleSubmit`: a no-op unless the joined code has 6 characters; then the page goes to /auth/login. */
  function Submit(otp: seq<string>): (s: Submission)
    ensures s.GoToLogin? <==> |Code(otp)| == Slots
    ensures s.GoToLogin? ==> s.otp == Code(otp)
  {
    if |Code(otp)| != Slots then Ignored else GoToLogin(Code(otp))
  }

  /** On a well-formed 6-slot buffer, submitting proceeds exactly when every slot is filled. */
  lemma SubmitNeedsCompleteCode(otp: seq<string>)
    requires |otp| == Slots && WellFormed(otp)
    ensures Submit(otp).GoToLogin? <==> Complete(otp)
  {
    CompleteIffFullLength(otp);
  }

  /** `handleResend`: needs only `canResend` (there is no e-mail check); it restarts the countdown and clears the buffer. */
  function Resend(c: Countdown, otp: seq<string>): (r: (Countdown, seq<string>))
    ensures c.canResend ==> r == (Start, InitialOtp)
    ensures !c.canResend ==> r == (c, otp)
  {
    if !c.canResend then (c, otp) else (Start, InitialOtp)
  }
}
