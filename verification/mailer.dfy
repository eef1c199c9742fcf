/** `send_email_alert`: the email send, reduced to its decision structure.

    The SMTP session itself is outside the model; `smtpOk` says whether
    STARTTLS, login and delivery would all succeed. */
module Mailer {
  import opened Options

  /** The environment the send reads. `portParses` says whether `int()`
      accepts `SMTP_PORT`; it does when the variable is unset, since the
      default is "587". */
  datatype MailEnv = MailEnv(sender: Option<string>, receiver: Option<string>,
                             password: Option<string>, portParses: bool)

  /** Python truthiness of an environment lookup: set and non-empty. */
  predicate Configured(v: Option<string>) {
    v.Some? && v.value != ""
  }

  predicate CredentialsComplete(env: MailEnv) {
    Configured(env.sender) && Configured(env.receiver) && Configured(env.password)
  }

  /** `Raised` is the `ValueError` from parsing the port, which happens before
      the function's `try` and so reaches the caller. Both entry points call
      the send inside the `try` of `main` and change state only after a `True`
      result, so for a tick `Raised` and `NotSent` both mean "not delivered":
      the tick's `sendOk` is `outcome == Sent`. */
  datatype SendOutcome = Sent | NotSent | Raised

  /** The outcome, and whether an SMTP connection was attempted (whether or
      not it then succeeded). */
  datatype SendReport = SendReport(outcome: SendOutcome, attempted: bool)

  function SendEmailAlert(env: MailEnv, smtpOk: bool): (r: SendReport)
    // a delivery needs all three credentials, a parsable port and a connection
    ensures r.outcome == Sent <==> CredentialsComplete(env) && env.portParses && smtpOk
    // missing credentials fail without trying to connect
    ensures !CredentialsComplete(env) ==> !r.attempted && r.outcome != Sent
    ensures r.outcome == Raised <==> !env.portParses
  {
    if !env.portParses then SendReport(Raised, false)
    else if !CredentialsComplete(env) then SendReport(NotSent, false)
    else SendReport(if smtpOk then Sent else NotSent, true)
  }
}
