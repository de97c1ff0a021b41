/**
 * The `POST /api/send` handler: a sequence of gates with early exits
 * (payload check, mail, sender number, recipients, text budget, signing,
 * SMS call), each mapped to a status code and an error tag.
 */
module Handler {
  import opened Wrappers
  import opened Js
  import opened Validation
  import opened PhoneNumbers
  import opened Sms
  import opened Mail
  import opened Signer

  /** The environment variables the handler reads; `None` is an unset variable. */
  datatype Config = Config(
    smtpUser: Option<string>,
    adminEmail: Option<string>,
    smsSender: Option<string>,
    dealerPhone: Option<string>,
    managerPhone: Option<string>,
    apiKey: Option<string>,
    apiSecret: Option<string>)

  /** How `transporter.sendMail` settles. */
  datatype MailOutcome = MailDelivered | MailRejected(err: ErrorObject)

  datatype HttpResponse = HttpResponse(status: int, data: JsValue)

  /** How `axios.post` settles: the provider's response on success; on failure
      the provider's response when there was one (a non-2xx status) and the
      error's message. */
  datatype SmsOutcome =
    | SmsDelivered(response: HttpResponse)
    | SmsRejected(failed: Option<HttpResponse>, message: string)

  /** The world outside the handler: the mail transport, the SMS provider, the
      HMAC computation, the clock reading and the random salt. */
  datatype Env = Env(
    sendMail: MailMessage -> MailOutcome,
    postSms: SmsRequest -> SmsOutcome,
    hmac: Hmac,
    now: string,
    salt: string)

  datatype ErrorTag = InvalidPayload | SendFailed | NoSmsRecipients | SmsTooLong | SmsFailed

  /** The `error` string each tag is sent as. */
  function WireName(t: ErrorTag): string {
    match t
    case InvalidPayload => "invalid_payload"
    case SendFailed => "send_failed"
    case NoSmsRecipients => "no_sms_recipients"
    case SmsTooLong => "sms_too_long"
    case SmsFailed => "sms_failed"
  }

  /** Each tag goes out under its own string, so a client can tell every
      failure apart by `error` alone. */
  lemma WireNamesDistinct(t: ErrorTag, u: ErrorTag)
    ensures WireName(t) == WireName(u) <==> t == u
  {
  }

  /** A `detail` value: a string as it is, or `JSON.stringify` of a value that
      is not a string (the serialisation itself is not computed). */
  datatype Detail = Text(s: string) | Json(v: JsValue)

  /** The JSON body: `{ ok: true, sms }` or `{ ok: false, error, detail? }`,
      where `error` is the tag's `WireName`. */
  datatype Envelope = Sent(sms: JsValue) | Failed(error: ErrorTag, detail: Option<Detail>)

  datatype Response = Response(status: int, body: Envelope)

  /** An outbound call, recorded in the order the handler makes them. */
  datatype Call = MailCall(mail: MailMessage) | SmsCall(request: SmsRequest)

  const MissingSenderMessage: string := "missing SMS_SENDER (발신번호 미설정)"

  /** `new Error('missing SMS_SENDER ...')`: it has neither `response` nor `data`. */
  const MissingSenderError: ErrorObject := ErrorObject(Undefined, Undefined, Str(MissingSenderMessage), 0)

  /** The missing-sender error surfaces its own message as the detail. */
  lemma MissingSenderDetail()
    ensures CatchAllDetail(MissingSenderError) == Text(MissingSenderMessage)
  {
  }

  /** `typeof v === 'string' ? v : JSON.stringify(v)` */
  function AsDetail(v: JsValue): Detail {
    if v.Str? then Text(v.s) else Json(v)
  }

  /** The outer catch: the detail is `err.response.data || err.data ||
      err.message || err`, kept when a string and serialised otherwise. */
  function CatchAllDetail(e: ErrorObject): (d: Detail)
    ensures Truthy(e.responseData) ==> d == AsDetail(e.responseData)
    ensures !Truthy(e.responseData) && Truthy(e.data) ==> d == AsDetail(e.data)
    ensures !Truthy(e.responseData) && !Truthy(e.data) && Truthy(e.message) ==> d == AsDetail(e.message)
    ensures !Truthy(e.responseData) && !Truthy(e.data) && !Truthy(e.message) ==> d == Json(Composite(e.identity))
  {
    var vs := [e.responseData, e.data, e.message, Composite(e.identity)];
    var k := OrIndex(vs);
    assert vs[0] == e.responseData && vs[1] == e.data && vs[2] == e.message;
    assert k == 0 <==> Truthy(e.responseData);
    assert k == 1 <==> !Truthy(e.responseData) && Truthy(e.data);
    AsDetail(Or(vs))
  }

  /** 500 `send_failed`: every error that reaches the outer catch. */
  function SendFailedResponse(e: ErrorObject): Response {
    Response(500, Failed(SendFailed, Some(CatchAllDetail(e))))
  }

  /** The inner catch: the provider's data when truthy (kept when a string,
      serialised otherwise), the error's message otherwise. */
  function SmsFailureDetail(failed: Option<HttpResponse>, message: string): Detail {
    if failed.Some? && Truthy(failed.value.data) then AsDetail(failed.value.data) else Text(message)
  }

  /** The answer to a settled SMS call: 200 with the provider's data, or 502 `sms_failed`. */
  function SmsResponse(outcome: SmsOutcome): Response {
    match outcome
    case SmsDelivered(r) => Response(200, Sent(r.data))
    case SmsRejected(failed, message) => Response(502, Failed(SmsFailed, Some(SmsFailureDetail(failed, message))))
  }

  /** `SMS_SENDER` with its non-digits removed. */
  function SenderNumber(cfg: Config): string {
    StripNonDigits(OrEmpty(cfg.smsSender))
  }

  /** The stripped manager and dealer numbers that are not empty, manager first. */
  function RecipientNumbers(cfg: Config): seq<string> {
    Recipients(StripNonDigits(OrEmpty(cfg.managerPhone)), StripNonDigits(OrEmpty(cfg.dealerPhone)))
  }

  /** What one request leads to: the response and the outbound calls, in order. */
  datatype Outcome = Outcome(response: Response, calls: seq<Call>)

  /** The handler's gates as one decision on the validated payload
      (`None` for a rejected body), stated on the primary text alone:
      payload check; mail (a failure is 500); sender number (missing is 500);
      recipients (none is 400); text length (over 45 is 400); signing (a failure
      is 500); then the one SMS call, whose outcome gives 200 or 502. */
  function Expected(submission: Option<Submission>, cfg: Config, env: Env): Outcome {
    match submission
    case None => Outcome(Response(400, Failed(InvalidPayload, None)), [])
    case Some(sub) =>
      var mail := MailFor(sub, cfg.smtpUser, cfg.adminEmail);
      match env.sendMail(mail)
      case MailRejected(e) => Outcome(SendFailedResponse(e), [MailCall(mail)])
      case MailDelivered =>
        var from := SenderNumber(cfg);
        var recipients := RecipientNumbers(cfg);
        var text := PrimaryText(sub);
        if from == "" then
          Outcome(Response(500, Failed(SendFailed, Some(Text(MissingSenderMessage)))), [MailCall(mail)])
        else if recipients == [] then
          Outcome(Response(400, Failed(NoSmsRecipients, None)), [MailCall(mail)])
        else if Utf16Length(text) > MaxSmsLength then
          Outcome(Response(400, Failed(SmsTooLong, Some(Text(TooLongMessage(Utf16Length(text)))))), [MailCall(mail)])
        else
          match CreateAuthHeader(cfg.apiKey, cfg.apiSecret, env.now, env.salt, env.hmac)
          case Err(e) => Outcome(SendFailedResponse(e), [MailCall(mail)])
          case Ok(header) =>
            var request := SmsRequestFor(header, recipients, from, text);
            Outcome(SmsResponse(env.postSms(request)), [MailCall(mail), SmsCall(request)])
  }

  /** The handler. `resp` is the status and JSON body it answers with, `trace`
      the outbound calls it makes, in order. */
  method HandleSend(body: Body, cfg: Config, env: Env) returns (resp: Response, ghost trace: seq<Call>)
    ensures resp == Expected(Validate(body), cfg, env).response
    ensures trace == Expected(Validate(body), cfg, env).calls
  {
    trace := [];
    var submission := Validate(body);
    if submission.None? {
      resp := Response(400, Failed(InvalidPayload, None));
      return;
    }
    var sub := submission.value;

    // 1) mail
    var mail := MailFor(sub, cfg.smtpUser, cfg.adminEmail);
    trace := [MailCall(mail)];
    var mailOutcome := env.sendMail(mail);
    if mailOutcome.MailRejected? {
      resp := SendFailedResponse(mailOutcome.err);
      return;
    }

    // 2) SMS to manager and dealer, 45-unit budget
    var from := StripNonDigits(OrEmpty(cfg.smsSender));
    var toDealer := StripNonDigits(OrEmpty(cfg.dealerPhone));
    var toManager := StripNonDigits(OrEmpty(cfg.managerPhone));
    if from == "" {
      MissingSenderDetail();
      resp := SendFailedResponse(MissingSenderError);
      return;
    }
    var recipients := Recipients(toManager, toDealer);
    if |recipients| == 0 {
      resp := Response(400, Failed(NoSmsRecipients, None));
      return;
    }

    var smsText := PrimaryText(sub);
    if Utf16Length(smsText) > MaxSmsLength {
      smsText := FallbackText(sub);
    }
    FallbackSameLength(sub);
    if Utf16Length(smsText) > MaxSmsLength {
      resp := Response(400, Failed(SmsTooLong, Some(Text(TooLongMessage(Utf16Length(smsText))))));
      return;
    }

    var auth := CreateAuthHeader(cfg.apiKey, cfg.apiSecret, env.now, env.salt, env.hmac);
    if auth.Err? {
      resp := SendFailedResponse(auth.error);
      return;
    }
    var request := SmsRequestFor(auth.value, recipients, from, smsText);
    trace := [MailCall(mail), SmsCall(request)];
    match env.postSms(request)
    case SmsDelivered(r) =>
      resp := Response(200, Sent(r.data));
    case SmsRejected(failed, message) =>
      resp := Response(502, Failed(SmsFailed, Some(SmsFailureDetail(failed, message))));
  }
}

/** Properties of the handler's decision, one group of gates at a time.
    `submission` is what the payload gate made of the body: `Validate(body)`. */
module HandlerProperties {
  import opened Wrappers
  import opened Js
  import opened Validation
  import opened PhoneNumbers
  import opened Sms
  import opened Mail
  import opened Signer
  import opened Handler

  /** Rejected bodies, and only they, get 400 `invalid_payload`, and they get
      it before any outbound call. */
  lemma PayloadGate(submission: Option<Submission>, cfg: Config, env: Env)
    ensures submission.None? <==>
      Expected(submission, cfg, env).response == Response(400, Failed(InvalidPayload, None))
    ensures submission.None? ==> Expected(submission, cfg, env).calls == []
  {
  }

  /** Any field that is missing, not a string, or only white space (a numeric
      `mileage`, say) makes the handler answer 400 `invalid_payload` with no
      mail and no SMS. */
  lemma InvalidFieldMakesNoCalls(body: Body, cfg: Config, env: Env, name: string)
    requires name in ["carNumber", "phone", "region", "mileage"]
    requires !Field(body, name).Str? ||
      forall i :: 0 <= i < |Field(body, name).s| ==> IsWhiteSpace(Field(body, name).s[i])
    ensures Expected(Validate(body), cfg, env).response == Response(400, Failed(InvalidPayload, None))
    ensures Expected(Validate(body), cfg, env).calls == []
  {
  }

  /** For an admitted payload the mail is the first call; a mail that fails
      ends the request with 500 `send_failed` and no SMS. */
  lemma MailComesFirst(sub: Submission, cfg: Config, env: Env)
    ensures var o := Expected(Some(sub), cfg, env);
      var mail := MailFor(sub, cfg.smtpUser, cfg.adminEmail);
      && 1 <= |o.calls| && o.calls[0] == MailCall(mail)
      && (env.sendMail(mail).MailRejected? ==>
            o == Outcome(SendFailedResponse(env.sendMail(mail).err), [MailCall(mail)]))
  {
  }

  /** After a delivered mail: a sender number that strips to nothing is 500
      `send_failed` with the missing-sender message; a sender with no recipient
      is 400 `no_sms_recipients`. Either way the mail has already gone out and
      no SMS is attempted. */
  lemma SmsConfigurationGates(sub: Submission, cfg: Config, env: Env)
    requires env.sendMail(MailFor(sub, cfg.smtpUser, cfg.adminEmail)).MailDelivered?
    ensures var mail := MailFor(sub, cfg.smtpUser, cfg.adminEmail);
      SenderNumber(cfg) == "" ==>
        Expected(Some(sub), cfg, env) ==
          Outcome(Response(500, Failed(SendFailed, Some(Text(MissingSenderMessage)))), [MailCall(mail)])
    ensures var mail := MailFor(sub, cfg.smtpUser, cfg.adminEmail);
      SenderNumber(cfg) != "" && RecipientNumbers(cfg) == [] ==>
        Expected(Some(sub), cfg, env) == Outcome(Response(400, Failed(NoSmsRecipients, None)), [MailCall(mail)])
  {
  }

  /** With the mail delivered and sender and recipients configured, the answer
      is `sms_too_long` exactly when the primary text is longer than 45 units;
      its detail then reports that length, and no SMS is attempted. */
  lemma TooLongGate(sub: Submission, cfg: Config, env: Env)
    requires env.sendMail(MailFor(sub, cfg.smtpUser, cfg.adminEmail)).MailDelivered?
    requires SenderNumber(cfg) != "" && RecipientNumbers(cfg) != []
    ensures var r := Expected(Some(sub), cfg, env).response;
      r.body.Failed? && r.body.error == SmsTooLong <==> Utf16Length(PrimaryText(sub)) > MaxSmsLength
    ensures var n := Utf16Length(PrimaryText(sub));
      n > MaxSmsLength ==>
        && Expected(Some(sub), cfg, env).response == Response(400, Failed(SmsTooLong, Some(Text(TooLongMessage(n)))))
        && |Expected(Some(sub), cfg, env).calls| == 1
  {
  }

  /** Within the budget, signing comes next (a throwing HMAC is 500
      `send_failed` without an SMS); otherwise exactly one SMS call follows the
      mail, carrying the primary text to every recipient, and its outcome
      decides between 200 with the provider's data and 502 `sms_failed`. */
  lemma SmsCallGate(sub: Submission, cfg: Config, env: Env)
    requires env.sendMail(MailFor(sub, cfg.smtpUser, cfg.adminEmail)).MailDelivered?
    requires SenderNumber(cfg) != "" && RecipientNumbers(cfg) != []
    requires Utf16Length(PrimaryText(sub)) <= MaxSmsLength
    ensures var auth := CreateAuthHeader(cfg.apiKey, cfg.apiSecret, env.now, env.salt, env.hmac);
      auth.Err? ==>
        Expected(Some(sub), cfg, env) ==
          Outcome(SendFailedResponse(auth.error), [MailCall(MailFor(sub, cfg.smtpUser, cfg.adminEmail))])
    ensures var auth := CreateAuthHeader(cfg.apiKey, cfg.apiSecret, env.now, env.salt, env.hmac);
      auth.Ok? ==>
        var request := SmsRequestFor(auth.value, RecipientNumbers(cfg), SenderNumber(cfg), PrimaryText(sub));
        var o := Expected(Some(sub), cfg, env);
        && o.calls == [MailCall(MailFor(sub, cfg.smtpUser, cfg.adminEmail)), SmsCall(request)]
        && (env.postSms(request).SmsDelivered? ==>
              o.response == Response(200, Sent(env.postSms(request).response.data)))
        && (env.postSms(request).SmsRejected? ==>
              var failure := env.postSms(request);
              o.response == Response(502, Failed(SmsFailed, Some(SmsFailureDetail(failure.failed, failure.message)))))
  {
  }

  /** The provider's failure detail: its response data when truthy, kept when a
      string and serialised otherwise; the error's message when there is no
      such data. */
  lemma SmsFailureDetailCases(failed: Option<HttpResponse>, message: string)
    ensures failed.Some? && failed.value.data.Str? && failed.value.data.s != "" ==>
      SmsFailureDetail(failed, message) == Text(failed.value.data.s)
    ensures failed.Some? && Truthy(failed.value.data) && !failed.value.data.Str? ==>
      SmsFailureDetail(failed, message) == Json(failed.value.data)
    ensures failed.None? || !Truthy(failed.value.data) ==> SmsFailureDetail(failed, message) == Text(message)
  {
  }

  /** At most one SMS call, always the second call, after the mail; status
      codes come from {200, 400, 500, 502}, 200 exactly for success, which
      only an SMS call can produce. */
  lemma CallOrderAndStatus(submission: Option<Submission>, cfg: Config, env: Env)
    ensures var o := Expected(submission, cfg, env);
      && |o.calls| <= 2
      && (forall i :: 0 <= i < |o.calls| ==> (o.calls[i].SmsCall? <==> i == 1))
      && o.response.status in {200, 400, 500, 502}
      && (o.response.status == 200 <==> o.response.body.Sent?)
      && (o.response.body.Sent? ==> |o.calls| == 2)
      && (|o.calls| == 2 ==> o.response.status == 200 || o.response.status == 502)
  {
  }

  /** The SMS request that goes out has one message per recipient, in
      recipient order (manager first), each from the sender number with the
      same primary text, of type "SMS"; no text longer than 45 units is sent. */
  lemma SentMessagesFit(submission: Option<Submission>, cfg: Config, env: Env)
    requires |Expected(submission, cfg, env).calls| == 2
    ensures submission.Some?
    ensures var ms := Expected(submission, cfg, env).calls[1].request.messages;
      && 1 <= |ms| <= 2 && |ms| == |RecipientNumbers(cfg)|
      && forall i :: 0 <= i < |ms| ==>
           && ms[i].to == RecipientNumbers(cfg)[i] && ms[i].from == SenderNumber(cfg) && ms[i].kind == "SMS"
           && ms[i].text == PrimaryText(submission.value) && Utf16Length(ms[i].text) <= MaxSmsLength
  {
  }

  /** The sample submission: its primary text is 30 units long, so with the
      mail delivered, a sender and recipients configured, the header signed and
      the provider accepting, the answer is 200 with the provider's data after
      one mail and one SMS carrying a message per recipient. */
  lemma SampleSubmissionIsSent(cfg: Config, env: Env)
    requires var sub := Submission("12가3456", "01011112222", "서울", "50000");
      env.sendMail(MailFor(sub, cfg.smtpUser, cfg.adminEmail)).MailDelivered?
    requires SenderNumber(cfg) != "" && RecipientNumbers(cfg) != []
    requires CreateAuthHeader(cfg.apiKey, cfg.apiSecret, env.now, env.salt, env.hmac).Ok?
    requires forall r :: env.postSms(r).SmsDelivered?
    ensures var sub := Submission("12가3456", "01011112222", "서울", "50000");
      var o := Expected(Some(sub), cfg, env);
      && Utf16Length(PrimaryText(sub)) == 30
      && o.response.status == 200 && o.response.body.Sent?
      && |o.calls| == 2 && |o.calls[1].request.messages| == |RecipientNumbers(cfg)|
  {
    var sub := Submission("12가3456", "01011112222", "서울", "50000");
    SamplePrimaryLength();
    SmsCallGate(sub, cfg, env);
  }
}
