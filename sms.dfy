/** The SMS side of the handler: the two text templates and their 45-unit
    budget, the `sms_too_long` message, and the batch payload for the
    provider's send-many endpoint. */
module Sms {
  import opened Js
  import opened Validation

  /** Longest SMS text the handler lets through, in JavaScript `length` units. */
  const MaxSmsLength: nat := 45

  const SendManyUrl: string := "https://api.solapi.com/messages/v4/send-many/detail"
  const ContentType: string := "application/json"
  const TimeoutMs: nat := 10000
  /** The `family` of the HTTPS agent: IPv4 only. */
  const IpFamily: nat := 4

  /** The shape both SMS templates share: the four fields separated by `sep`,
      followed by "km". */
  function Template(sub: Submission, sep: char): string {
    sub.carNumber + [sep] + sub.phone + [sep] + sub.region + [sep] + sub.mileage + "km"
  }

  /** `${carNumber} ${phone} ${region} ${mileage}km` */
  function PrimaryText(sub: Submission): string {
    Template(sub, ' ')
  }

  /** `${carNumber}/${phone}/${region}/${mileage}km` */
  function FallbackText(sub: Submission): string {
    Template(sub, '/')
  }

  /** The JavaScript length of a template is the fields' lengths plus three
      separators and "km", whatever one-unit separator is used. */
  lemma TemplateLength(sub: Submission, sep: char)
    requires CodeUnits(sep) == 1
    ensures Utf16Length(Template(sub, sep)) ==
      Utf16Length(sub.carNumber) + Utf16Length(sub.phone) + Utf16Length(sub.region) + Utf16Length(sub.mileage) + 5
  {
    var s := [sep];
    assert Utf16Length(s) == 1 by { assert s[1..] == []; }
    assert Utf16Length("km") == 2 by { assert "km"[1..] == "m" && "m"[1..] == []; }
    var a := sub.carNumber + s;
    var b := a + sub.phone;
    var c := b + s;
    var d := c + sub.region;
    var e := d + s;
    var f := e + sub.mileage;
    Utf16LengthAppend(sub.carNumber, s);
    Utf16LengthAppend(a, sub.phone);
    Utf16LengthAppend(b, s);
    Utf16LengthAppend(c, sub.region);
    Utf16LengthAppend(d, s);
    Utf16LengthAppend(e, sub.mileage);
    Utf16LengthAppend(f, "km");
  }

  /** The fallback text always has the primary text's length, so it never
      brings an over-long text back under the budget. */
  lemma FallbackSameLength(sub: Submission)
    ensures Utf16Length(FallbackText(sub)) == Utf16Length(PrimaryText(sub))
  {
    TemplateLength(sub, ' ');
    TemplateLength(sub, '/');
  }

  /** The sample submission's primary text, "12가3456 01011112222 서울 50000km",
      is 30 units long: well within the budget. */
  lemma SamplePrimaryLength()
    ensures Utf16Length(PrimaryText(Submission("12가3456", "01011112222", "서울", "50000"))) == 30
  {
    var sub := Submission("12가3456", "01011112222", "서울", "50000");
    Utf16LengthBmp(PrimaryText(sub));
  }

  const TooLongPrefix: string := "문자 길이 "
  const TooLongSuffix: string := "자(최대 45자). 입력값을 줄여주세요."

  /** The `detail` of an `sms_too_long` answer for a text of length `n`. */
  function TooLongMessage(n: nat): string {
    TooLongPrefix + DecimalString(n) + TooLongSuffix
  }

  /** The `sms_too_long` detail reports the count: between its fixed prefix and
      suffix stand only digits, without a leading zero, and they denote `n`. */
  lemma TooLongMessageReportsCount(n: nat)
    ensures var m := TooLongMessage(n);
      && |m| >= |TooLongPrefix| + |TooLongSuffix|
      && m[..|TooLongPrefix|] == TooLongPrefix
      && m[|m| - |TooLongSuffix|..] == TooLongSuffix
      && (forall i :: |TooLongPrefix| <= i < |m| - |TooLongSuffix| ==> IsDigit(m[i]))
      && (|m| - |TooLongSuffix| - |TooLongPrefix| > 1 ==> m[|TooLongPrefix|] != '0')
      && DecimalValue(m[|TooLongPrefix|..|m| - |TooLongSuffix|]) == n
  {
    var m := TooLongMessage(n);
    assert m[|TooLongPrefix|..|m| - |TooLongSuffix|] == DecimalString(n);
    DecimalRoundTrip(n);
  }

  /** One element of the `messages` array; `kind` is the JSON field `type`. */
  datatype Message = Message(to: string, from: string, text: string, kind: string)

  /** `recipients.map((to) => ({ to, from, text, type: 'SMS' }))`. */
  function Messages(recipients: seq<string>, from: string, text: string): (ms: seq<Message>)
    ensures |ms| == |recipients|
    ensures forall i :: 0 <= i < |ms| ==> ms[i] == Message(recipients[i], from, text, "SMS")
  {
    if recipients == [] then []
    else [Message(recipients[0], from, text, "SMS")] + Messages(recipients[1..], from, text)
  }

  /** The single outbound SMS request: endpoint, `Authorization` header, body
      `{ messages }`, and the transport options (timeout, IPv4 agent). */
  datatype SmsRequest = SmsRequest(
    url: string,
    authorization: string,
    contentType: string,
    messages: seq<Message>,
    timeoutMs: nat,
    ipFamily: nat)

  function SmsRequestFor(authorization: string, recipients: seq<string>, from: string, text: string): (r: SmsRequest)
    ensures r.url == SendManyUrl && r.authorization == authorization
    ensures r.contentType == ContentType && r.timeoutMs == TimeoutMs && r.ipFamily == IpFamily
    ensures |r.messages| == |recipients|
    ensures forall i :: 0 <= i < |recipients| ==>
      r.messages[i].to == recipients[i] && r.messages[i].from == from &&
      r.messages[i].text == text && r.messages[i].kind == "SMS"
  {
    SmsRequest(SendManyUrl, authorization, ContentType, Messages(recipients, from, text), TimeoutMs, IpFamily)
  }
}
