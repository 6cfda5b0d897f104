/**
 The `send-registration-email` function: a CORS preflight answer, an ordered chain
 of guards over the parsed registration, one notification e-mail to the school,
 and the mapping of every failure to a 500 answer carrying its message.

 Parsing the body and sending the e-mail are done by code outside this model: the
 request arrives already parsed (or with the parser's error), and the mail service
 is a parameter that either returns or throws. What it returns is never looked at.
 */
module RegistrationEmail {
  import opened Wrappers
  import opened EmailRule

  /** The fields read from the JSON body; `None` is a field that is absent or
      `null`. A JSON number is a `real`. */
  datatype RegistrationRequest = RegistrationRequest(
    fullName: Option<string>,
    age: Option<real>,
    email: Option<string>,
    lessonTitle: Option<string>,
    lessonLanguage: Option<string>,
    lessonLevel: Option<string>)

  /** What `req.json()` gives: the record, or the error it throws. */
  datatype Body = ParsedJson(record: RegistrationRequest) | MalformedJson(message: string)

  /** The HTTP method (`verb`) and the body. */
  datatype Request = Request(verb: string, body: Body)

  /** What the call to the mail service does: returns (whatever its reply, which
      the handler ignores), or throws. */
  datatype SendOutcome = Returned | Threw(message: string)

  /** The notification handed to the mail service (its HTML body is not modelled). */
  datatype Email = Email(from: string, to: seq<string>, subject: string)

  datatype ResponseBody =
    | PlainText(text: string)
    /** `{"success": true}` */
    | SuccessJson
    /** `{"error": message}` */
    | ErrorJson(error: string)

  datatype Response = Response(status: int, body: ResponseBody, headers: seq<(string, string)>)

  /** The answer, and the e-mail handed to the mail service, if the handler got
      that far. */
  datatype Outcome = Outcome(response: Response, sent: Option<Email>)

  const AllowedHeaders :=
    "authorization, x-client-info, apikey, content-type, x-supabase-client-platform, "
    + "x-supabase-client-platform-version, x-supabase-client-runtime, x-supabase-client-runtime-version"

  const CorsHeaders: seq<(string, string)> :=
    [("Access-Control-Allow-Origin", "*"), ("Access-Control-Allow-Headers", AllowedHeaders)]

  const JsonHeaders: seq<(string, string)> := [("Content-Type", "application/json")] + CorsHeaders

  const Sender := "Uncode Society <onboarding@resend.dev>"
  const Recipient := "w_draijer08@outlook.com"

  const MissingFields := "Missing required fields"
  const InputTooLong := "Input too long"
  const InvalidAge := "Invalid age"
  const InvalidEmailFormat := "Invalid email format"

  const MaxNameLength := 100
  const MaxEmailLength := 255

  /** JavaScript falsiness of a string field: absent, `null` or `""`. */
  predicate IsFalsyText(v: Option<string>) {
    v.None? || v.value == ""
  }

  /** JavaScript falsiness of a number field: absent, `null` or zero. */
  predicate IsFalsyNumber(v: Option<real>) {
    v.None? || v.value == 0.0
  }

  /** The guards in the order the handler runs them; the message of the first that
      fails, or `None` when all pass. */
  function FirstFailure(r: RegistrationRequest): Option<string> {
    if IsFalsyText(r.fullName) || IsFalsyNumber(r.age) || IsFalsyText(r.email) || IsFalsyText(r.lessonTitle) then
      Some(MissingFields)
    else if |r.fullName.value| > MaxNameLength || |r.email.value| > MaxEmailLength then
      Some(InputTooLong)
    else if r.age.value < 14.0 || r.age.value > 100.0 then
      Some(InvalidAge)
    else if !IsValidEmail(r.email.value) then
      Some(InvalidEmailFormat)
    else
      None
  }

  /** What the server accepts, stated field by field: a non-empty name of at most
      100 characters, an age from 14 to 100, an address of at most 255 characters
      matching the pattern, and a non-empty lesson title. */
  ghost predicate Accepted(r: RegistrationRequest) {
    && r.fullName.Some? && r.fullName.value != "" && |r.fullName.value| <= MaxNameLength
    && r.age.Some? && 14.0 <= r.age.value <= 100.0
    && r.email.Some? && |r.email.value| <= MaxEmailLength && MatchesPattern(r.email.value)
    && r.lessonTitle.Some? && r.lessonTitle.value != ""
  }

  /** The guards all pass exactly on the accepted records. */
  lemma FirstFailureNoneIff(r: RegistrationRequest)
    ensures FirstFailure(r).None? <==> Accepted(r)
  {
    if r.email.Some? {
      IsValidEmailIffPattern(r.email.value);
      PatternIsNotBlank(r.email.value);
    }
  }

  /** The notification for an accepted record: to the fixed recipient, with the
      name and the lesson title in the subject. */
  function Notification(name: string, lessonTitle: string): (m: Email)
    ensures m.from == Sender && m.to == [Recipient]
    ensures |m.subject| == 22 + |name| + |lessonTitle|
    ensures m.subject[..19] == "Nieuwe Aanmelding: "
    ensures m.subject[19..] == name + " - " + lessonTitle
  {
    Email(Sender, [Recipient], "Nieuwe Aanmelding: " + name + " - " + lessonTitle)
  }

  function ErrorResponse(message: string): Response {
    Response(500, ErrorJson(message), JsonHeaders)
  }

  /** `handler`. A preflight is answered before the body is looked at; anything
      thrown later (the parser's error, a failed guard, the mail service's error)
      becomes a 500 with its message; only a send that returns gives a 200. */
  function Handle(req: Request, send: Email -> SendOutcome): (o: Outcome)
    ensures req.verb == "OPTIONS" ==> o == Outcome(Response(200, PlainText("ok"), CorsHeaders), None)
    ensures req.verb != "OPTIONS" ==> o.response.headers == JsonHeaders
    ensures req.verb != "OPTIONS" && req.body.MalformedJson? ==> o == Outcome(ErrorResponse(req.body.message), None)
    ensures o.response.status == 200 || o.response.status == 500
    ensures o.response.status == 500 <==> o.response.body.ErrorJson?
    ensures o.sent.Some? <==>
      req.verb != "OPTIONS" && req.body.ParsedJson? && FirstFailure(req.body.record).None?
    ensures o.sent.Some? ==>
      o.sent.value == Notification(req.body.record.fullName.value, req.body.record.lessonTitle.value)
  {
    if req.verb == "OPTIONS" then
      Outcome(Response(200, PlainText("ok"), CorsHeaders), None)
    else
      match req.body
      case MalformedJson(message) => Outcome(ErrorResponse(message), None)
      case ParsedJson(r) =>
        match FirstFailure(r)
        case Some(message) => Outcome(ErrorResponse(message), None)
        case None =>
          var mail := Notification(r.fullName.value, r.lessonTitle.value);
          match send(mail)
          case Threw(message) => Outcome(ErrorResponse(message), Some(mail))
          case Returned => Outcome(Response(200, SuccessJson, JsonHeaders), Some(mail))
  }

  /** Outside a preflight, the answer is a 200 `{success: true}` exactly when the
      record is accepted and the call to the mail service returns. */
  lemma SuccessIff(req: Request, send: Email -> SendOutcome)
    requires req.verb != "OPTIONS"
    ensures Handle(req, send).response.status == 200
        <==> && req.body.ParsedJson?
             && Accepted(req.body.record)
             && send(Notification(req.body.record.fullName.value, req.body.record.lessonTitle.value)) == Returned
    ensures Handle(req, send).response.status == 200 ==> Handle(req, send).response.body == SuccessJson
  {
    if req.body.ParsedJson? {
      FirstFailureNoneIff(req.body.record);
    }
  }

  /** A failed guard is reported with its own message and nothing is sent. */
  lemma RejectedRecord(r: RegistrationRequest, verb: string, send: Email -> SendOutcome)
    requires verb != "OPTIONS" && !Accepted(r)
    ensures FirstFailure(r).Some?
    ensures Handle(Request(verb, ParsedJson(r)), send)
         == Outcome(Response(500, ErrorJson(FirstFailure(r).value), JsonHeaders), None)
  {
    FirstFailureNoneIff(r);
  }

  /** Age 0 and empty strings count as missing; the language and the level are
      not required. */
  lemma FalsyFieldsAreMissing(r: RegistrationRequest)
    ensures r.age == Some(0.0) ==> FirstFailure(r) == Some(MissingFields)
    ensures r.fullName == Some("") || r.email == Some("") || r.lessonTitle == Some("")
        ==> FirstFailure(r) == Some(MissingFields)
    ensures FirstFailure(r) == FirstFailure(r.(lessonLanguage := None, lessonLevel := None))
  {
  }

  /** The guards run in order: with every field present, a too-long name or address
      is reported as such whatever the age and the address look like. */
  lemma LengthGuardComesFirst(r: RegistrationRequest)
    requires !IsFalsyText(r.fullName) && !IsFalsyNumber(r.age)
    requires !IsFalsyText(r.email) && !IsFalsyText(r.lessonTitle)
    requires |r.fullName.value| > MaxNameLength || |r.email.value| > MaxEmailLength
    ensures FirstFailure(r) == Some(InputTooLong)
  {
  }

  /** The age guard comes before the address guard. */
  lemma AgeGuardBeforeEmail(r: RegistrationRequest)
    requires !IsFalsyText(r.fullName) && !IsFalsyNumber(r.age)
    requires !IsFalsyText(r.email) && !IsFalsyText(r.lessonTitle)
    requires |r.fullName.value| <= MaxNameLength && |r.email.value| <= MaxEmailLength
    requires r.age.value < 14.0 || r.age.value > 100.0
    ensures FirstFailure(r) == Some(InvalidAge)
  {
  }

  /** The limits are inclusive: a 100-character name, a 255-character address and
      the ages 14 and 100 pass their guards, so such a record is judged on its
      address shape alone. */
  lemma BoundariesAccepted(r: RegistrationRequest)
    requires r.fullName.Some? && |r.fullName.value| == MaxNameLength
    requires r.email.Some? && |r.email.value| == MaxEmailLength
    requires r.age == Some(14.0) || r.age == Some(100.0)
    requires !IsFalsyText(r.lessonTitle)
    ensures FirstFailure(r).None? <==> MatchesPattern(r.email.value)
  {
    FirstFailureNoneIff(r);
  }

  /** The language and the level never change the answer, nor the sender, the
      recipient or the subject of the e-mail (they appear only in its HTML body,
      which is not modelled). */
  lemma LanguageAndLevelIgnored(verb: string, r: RegistrationRequest, language: Option<string>,
                                level: Option<string>, send: Email -> SendOutcome)
    ensures Handle(Request(verb, ParsedJson(r)), send)
         == Handle(Request(verb, ParsedJson(r.(lessonLanguage := language, lessonLevel := level))), send)
  {
  }

  /** A mail service that throws turns an accepted registration into a 500 with the
      service's message, after the notification was handed over. */
  lemma SendFailureIsReported(verb: string, r: RegistrationRequest, send: Email -> SendOutcome)
    requires verb != "OPTIONS" && Accepted(r)
    requires send(Notification(r.fullName.value, r.lessonTitle.value)).Threw?
    ensures Handle(Request(verb, ParsedJson(r)), send)
         == Outcome(ErrorResponse(send(Notification(r.fullName.value, r.lessonTitle.value)).message),
                    Some(Notification(r.fullName.value, r.lessonTitle.value)))
  {
    FirstFailureNoneIff(r);
  }
}
