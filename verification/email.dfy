/** EmailLogger: checks its three settings, then builds one mail message
    carrying the report and hands it to the configured SMTP relay. The SMTP
    conversation itself is not part of this model. */
module Email {
  import opened Wrappers
  import opened Text
  import opened Exceptions

  /** The logger's settable properties; a property never set is None (null). */
  datatype EmailLogger = EmailLogger(
    emailServer: Option<string>,
    emailFrom: Option<string>,
    emailTo: Option<string>)

  datatype MailMessage = MailMessage(from: string, to: string, subject: string, body: string)

  /** The message and the relay host the SmtpClient is created for. */
  datatype MailSubmission = MailSubmission(message: MailMessage, host: string)

  const Subject: string := "Unhandled exception report"

  /** The three guards of LogError, in source order: the exception names the
      first setting that is null or empty, and there is none exactly when no
      setting is missing. */
  function CheckSettings(l: EmailLogger): (c: Option<ArgumentException>)
    ensures c.None? <==> MissingSettings(l) == []
    ensures c.Some? ==> c.value.message == MissingSettings(l)[0] + " has not been set"
  {
    NotSetMessages();
    if IsNullOrEmpty(l.emailFrom) then Some(ArgumentException("EmailFrom has not been set"))
    else if IsNullOrEmpty(l.emailTo) then Some(ArgumentException("EmailTo has not been set"))
    else if IsNullOrEmpty(l.emailServer) then Some(ArgumentException("EmailServer has not been set"))
    else None
  }

  /** The names of the settings that are null or empty, in the order
      From, To, Server. */
  function MissingSettings(l: EmailLogger): seq<string>
  {
    (if IsNullOrEmpty(l.emailFrom) then ["EmailFrom"] else []) +
    (if IsNullOrEmpty(l.emailTo) then ["EmailTo"] else []) +
    (if IsNullOrEmpty(l.emailServer) then ["EmailServer"] else [])
  }

  /** LogError up to the point where the message is sent. */
  function LogError(l: EmailLogger, error: string): (r: Result<MailSubmission, ArgumentException>)
    ensures IsNullOrEmpty(l.emailFrom) ==>
      r == Failure(ArgumentException("EmailFrom has not been set"))
    ensures !IsNullOrEmpty(l.emailFrom) && IsNullOrEmpty(l.emailTo) ==>
      r == Failure(ArgumentException("EmailTo has not been set"))
    ensures !IsNullOrEmpty(l.emailFrom) && !IsNullOrEmpty(l.emailTo) && IsNullOrEmpty(l.emailServer) ==>
      r == Failure(ArgumentException("EmailServer has not been set"))
    ensures r.Success? ==>
      && l.emailFrom.Some? && l.emailTo.Some? && l.emailServer.Some?
      && r.value.message == MailMessage(l.emailFrom.value, l.emailTo.value, Subject, error)
      && r.value.host == l.emailServer.value
  {
    match CheckSettings(l)
    case Some(x) => Failure(x)
    case None =>
      var message := MailMessage(l.emailFrom.value, l.emailTo.value, Subject, error);
      Success(MailSubmission(message, l.emailServer.value))
  }

  /** Only the first missing setting, in the order From, To, Server, is
      reported, and a message is built only when none is missing. */
  lemma FirstMissingSettingReported(l: EmailLogger, error: string)
    ensures LogError(l, error).Success? <==> MissingSettings(l) == []
    ensures LogError(l, error).Failure? ==>
      LogError(l, error).error.message == MissingSettings(l)[0] + " has not been set"
  {
    NotSetMessages();
  }

  lemma NotSetMessages()
    ensures "EmailFrom" + " has not been set" == "EmailFrom has not been set"
    ensures "EmailTo" + " has not been set" == "EmailTo has not been set"
    ensures "EmailServer" + " has not been set" == "EmailServer has not been set"
  {
  }

  /** Whether the settings are complete does not depend on the report: a
      misconfigured logger rejects every report with the same exception. */
  lemma SettingsCheckIgnoresReport(l: EmailLogger, error1: string, error2: string)
    ensures LogError(l, error1).Failure? <==> LogError(l, error2).Failure?
    ensures LogError(l, error1).Failure? ==> LogError(l, error1).error == LogError(l, error2).error
    ensures LogError(l, error1).Failure? <==> CheckSettings(l).Some?
  {
  }
}
