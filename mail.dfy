/** The notification mail the handler sends before any SMS. */
module Mail {
  import opened Wrappers
  import opened Js
  import opened Validation

  /** The options passed to `transporter.sendMail`. */
  datatype MailMessage = MailMessage(from: string, to: Option<string>, subject: string, text: string)

  const SubjectPrefix: string := "중고차 빠른 판매 등록 - "

  /** The four labelled lines of the mail body. */
  function MailLines(sub: Submission): seq<string> {
    [ "차량번호: " + sub.carNumber,
      "연락처: " + sub.phone,
      "지역: " + sub.region,
      "운행거리: " + sub.mileage + " km" ]
  }

  /** The mail for a submission: sender display name over `SMTP_USER`, to
      `ADMIN_EMAIL`, subject naming the car, body the four lines joined by "\n". */
  function MailFor(sub: Submission, smtpUser: Option<string>, adminEmail: Option<string>): MailMessage {
    MailMessage(
      "\"중고차 빠른 판매\" <" + EnvText(smtpUser) + ">",
      adminEmail,
      SubjectPrefix + sub.carNumber,
      Join(MailLines(sub), "\n"))
  }

  /** The mail goes to the administrator address and its subject ends with
      the car number. */
  lemma MailAddressAndSubject(sub: Submission, smtpUser: Option<string>, adminEmail: Option<string>)
    ensures var m := MailFor(sub, smtpUser, adminEmail);
      && m.to == adminEmail
      && |m.subject| >= |sub.carNumber|
      && m.subject[|m.subject| - |sub.carNumber|..] == sub.carNumber
  {
  }

  /** When no field holds a line break, the body is exactly the four labelled
      lines: cutting it at "\n" gives them back. */
  lemma MailBodyLines(sub: Submission, smtpUser: Option<string>, adminEmail: Option<string>)
    requires '\n' !in sub.carNumber && '\n' !in sub.phone && '\n' !in sub.region && '\n' !in sub.mileage
    ensures var lines := Split(MailFor(sub, smtpUser, adminEmail).text, '\n');
      |lines| == 4 && lines == MailLines(sub)
  {
    var ls := MailLines(sub);
    forall i | 0 <= i < |ls|
      ensures '\n' !in ls[i]
    {
    }
    SplitJoin(ls, '\n');
  }
}
