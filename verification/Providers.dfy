/** The provider registry and how the SMTP adapter classifies what the mail client throws. */
module Providers {
  import opened Contracts

  function ProviderName(provider: Provider): string {
    match provider
    case Smtp => "smtp"
    case Gmail => "gmail"
    case Outlook => "outlook"
  }

  /** Providers have names of their own. */
  lemma ProviderNames(p: Provider, q: Provider)
    ensures ProviderName(p) == ProviderName(q) ==> p == q
    ensures ProviderName(Smtp) == "smtp"
  {
    assert |ProviderName(Smtp)| == 4 && |ProviderName(Gmail)| == 5 && |ProviderName(Outlook)| == 7;
  }

  /** Only the SMTP adapter is registered. */
  predicate Registered(provider: Provider) { provider == Smtp }

  const TRANSIENT_SMTP_CODES: set<string> := {"ETIMEDOUT", "ESOCKET", "ECONNECTION", "ECONNRESET", "EPIPE", "ESTREAM"}

  function ClassifySmtpError(code: Option<string>): SendError {
    if code == Some("EAUTH") then Permanent(ProviderAuthFailed)
    else if code == Some("EENVELOPE") then Permanent(InvalidRecipient)
    else if code == Some("EMESSAGE") then Permanent(ProviderRejected)
    else if code.Some? && code.value in TRANSIENT_SMTP_CODES then Transient(ProviderUnavailable)
    else Transient(Unknown)
  }

  /** Every error is a provider error, so a failed send is always retried or dead-lettered and never
      just requeued. Each permanent error comes of exactly one code, so it is dead-lettered at once for
      exactly three; every other code, known or not, is transient. */
  lemma SmtpErrorsAreProviderErrors(code: Option<string>)
    ensures ClassifySmtpError(code) == Permanent(ProviderAuthFailed) <==> code == Some("EAUTH")
    ensures ClassifySmtpError(code) == Permanent(InvalidRecipient) <==> code == Some("EENVELOPE")
    ensures ClassifySmtpError(code) == Permanent(ProviderRejected) <==> code == Some("EMESSAGE")
    ensures ClassifySmtpError(code) == Transient(ProviderUnavailable) <==>
            code in {Some("ETIMEDOUT"), Some("ESOCKET"), Some("ECONNECTION"),
                     Some("ECONNRESET"), Some("EPIPE"), Some("ESTREAM")}
    ensures ClassifySmtpError(code).Transient? <==> code !in {Some("EAUTH"), Some("EENVELOPE"), Some("EMESSAGE")}
    ensures !ClassifySmtpError(code).Unexpected?
  {}
}
