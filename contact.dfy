/**
 * The contact form's submission handler (the `action` of app/routes/contact.tsx):
 * read and trim the four form fields, validate them collecting every error,
 * build the outbound email request, and turn what the email service did into
 * the uniform `ContactActionData` result and an HTTP status.
 *
 * The form submission is a map from field name to value; the one outbound call
 * is an `Outcome` parameter, and `Action` reports the request it sent, if any.
 */
module Contact {
  import opened Wrappers
  import opened Text

  /** A parsed JSON value, as `response.json()` produces it. */
  datatype Json =
    | JNull
    | JBool(b: bool)
    | JNumber(n: int)
    | JString(s: string)
    | JArray(items: seq<Json>)
    | JObject(fields: map<string, Json>)

  // ----- Form values -----

  /** The keys of `ContactFormValues`, which are also the form's input names ("senderName", "senderEmail", "subject", "message"). */
  datatype Field = SenderName | SenderEmail | Subject | Message

  datatype ContactFormValues = ContactFormValues(
    senderName: string,
    senderEmail: string,
    subject: string,
    message: string)

  function ValueOf(v: ContactFormValues, f: Field): string
  {
    match f
    case SenderName => v.senderName
    case SenderEmail => v.senderEmail
    case Subject => v.subject
    case Message => v.message
  }

  /**
   * A form submission, as far as the handler reads it: for each field that was
   * submitted, the text submitted under that field's input name.
   */
  type FormData = map<Field, string>

  /** `String(formData.get(name) || "").trim()`: a missing field reads as "", and the value is trimmed. */
  function FormValue(form: FormData, f: Field): (r: string)
    ensures IsTrimmed(r)
    ensures f !in form ==> r == ""
    ensures f in form ==> r == Trim(form[f])
  {
    Trim(if f in form then form[f] else "")
  }

  /** The `values` object: every field is the trimmed form value (see `ReadValuesField`). */
  function ReadValues(form: FormData): (v: ContactFormValues)
    ensures IsTrimmed(v.senderName) && IsTrimmed(v.senderEmail) && IsTrimmed(v.subject) && IsTrimmed(v.message)
  {
    ContactFormValues(
      senderName := FormValue(form, SenderName),
      senderEmail := FormValue(form, SenderEmail),
      subject := FormValue(form, Subject),
      message := FormValue(form, Message))
  }

  /** Each field of `values` is what the form holds under that field's name, trimmed, or "" when missing. */
  lemma ReadValuesField(form: FormData, f: Field)
    ensures ValueOf(ReadValues(form), f) == FormValue(form, f)
    ensures f !in form ==> ValueOf(ReadValues(form), f) == ""
    ensures f in form ==> ValueOf(ReadValues(form), f) == Trim(form[f])
  {
  }

  /** The form a browser re-submits after re-populating its inputs with echoed values. */
  function EchoForm(v: ContactFormValues): FormData
  {
    map[SenderName := v.senderName, SenderEmail := v.senderEmail, Subject := v.subject, Message := v.message]
  }

  /** Re-submitting echoed values reads back exactly those values: trimming is idempotent. */
  lemma ResubmitEchoedValues(form: FormData)
    ensures ReadValues(EchoForm(ReadValues(form))) == ReadValues(form)
  {
    var v := ReadValues(form);
    TrimFixesTrimmed(v.senderName);
    TrimFixesTrimmed(v.senderEmail);
    TrimFixesTrimmed(v.subject);
    TrimFixesTrimmed(v.message);
  }

  /** Whitespace around a submitted value does not change what the handler reads. */
  lemma PaddingIgnored(form: FormData, f: Field, before: string, after: string)
    requires f in form && AllWhitespace(before) && AllWhitespace(after)
    ensures ReadValues(form[f := before + form[f] + after]) == ReadValues(form)
  {
    var padded := form[f := before + form[f] + after];
    forall g: Field
      ensures FormValue(padded, g) == FormValue(form, g)
    {
      if g == f {
        TrimIgnoresPadding(before, form[f], after);
      }
    }
  }

  // ----- The email shape -----

  /** A character the pattern's class `[^\s@]` admits. */
  predicate EmailChar(c: char)
  {
    c != '@' && !IsWhitespace(c)
  }

  predicate AllEmailChars(s: string)
  {
    forall i :: 0 <= i < |s| ==> EmailChar(s[i])
  }

  /**
   * `s` is `L + "@" + D` with the `@` at index `at`: `L` non-empty, neither `L` nor
   * `D` holding an `@` or whitespace, and `D` holding a `.` that is neither its
   * first nor its last character.
   */
  ghost predicate EmailShapeAt(s: string, at: int)
  {
    && 0 < at < |s| && s[at] == '@'
    && AllEmailChars(s[..at]) && AllEmailChars(s[at + 1..])
    && exists i :: at + 1 < i < |s| - 1 && s[i] == '.'
  }

  /** The strings `^[^\s@]+@[^\s@]+\.[^\s@]+$` matches. */
  ghost predicate EmailShape(s: string)
  {
    exists at :: EmailShapeAt(s, at)
  }

  /** The index of the first `@` in `s`, if any. */
  function IndexOfAt(s: string): (r: Option<nat>)
    ensures r.None? ==> forall i :: 0 <= i < |s| ==> s[i] != '@'
    ensures r.Some? ==> r.value < |s| && s[r.value] == '@' && forall i :: 0 <= i < r.value ==> s[i] != '@'
  {
    if s == [] then None
    else if s[0] == '@' then Some(0)
    else match IndexOfAt(s[1..])
      case None => None
      case Some(k) => Some(k + 1)
  }

  /** `emailRegex.test(s)`, decided by locating the single `@`. */
  function EmailRegexTest(s: string): bool
  {
    match IndexOfAt(s)
    case None => false
    case Some(at) =>
      var domain := s[at + 1..];
      && at > 0
      && AllEmailChars(s[..at]) && AllEmailChars(domain)
      && |domain| >= 3 && '.' in domain[1..|domain| - 1]
  }

  /** The test accepts exactly the strings of the email shape. */
  lemma EmailRegexTestIsShape(s: string)
    ensures EmailRegexTest(s) <==> EmailShape(s)
  {
    if EmailRegexTest(s) {
      var at := IndexOfAt(s).value;
      var domain := s[at + 1..];
      var j :| 0 <= j < |domain[1..|domain| - 1]| && domain[1..|domain| - 1][j] == '.';
      assert domain[j + 1] == '.';
      assert EmailShapeAt(s, at);
    }
    if EmailShape(s) {
      var at :| EmailShapeAt(s, at);
      var domain := s[at + 1..];
      assert IndexOfAt(s) == Some(at) by {
        forall i | 0 <= i < at ensures s[i] != '@' {
          assert s[..at][i] == s[i];
        }
      }
      var i :| 0 < i < |domain| - 1 && domain[i] == '.';
      assert domain[1..|domain| - 1][i - 1] == '.';
    }
  }

  /** A minimal address, `a@b.co`, has the shape. */
  lemma ShortAddressIsEmail()
    ensures EmailShape("a@b.co")
  {
    assert EmailShapeAt("a@b.co", 1) by {
      assert "a@b.co"[3] == '.';
    }
  }

  /** A value without any `@` does not have the shape. */
  lemma NoAtIsNotEmail()
    ensures !EmailShape("not-an-email")
  {
    var s := "not-an-email";
    assert forall i :: 0 <= i < |s| ==> s[i] != '@';
  }

  /** A space in the local part rules the shape out. */
  lemma SpaceIsNotEmail()
    ensures !EmailShape("a b@c.de")
  {
    EmailRegexTestIsShape("a b@c.de");
    assert IndexOfAt("a b@c.de") == Some(3);
    assert !EmailChar("a b@c.de"[..3][1]);
  }

  // ----- Validation -----

  const EmailRequired := "Email is required."
  const EmailInvalid := "Please enter a valid email address."
  const SubjectRequired := "Subject is required."
  const MessageRequired := "Message is required."

  /** The rule for one field, which sees only that field's own trimmed value. */
  function FieldError(f: Field, value: string): Option<string>
  {
    match f
    case SenderName => None
    case SenderEmail =>
      if value == "" then Some(EmailRequired)
      else if !EmailRegexTest(value) then Some(EmailInvalid)
      else None
    case Subject => if value == "" then Some(SubjectRequired) else None
    case Message => if value == "" then Some(MessageRequired) else None
  }

  /** Every field's error, all reported together rather than only the first. */
  function FieldErrors(v: ContactFormValues): map<Field, string>
  {
    map f | f in {SenderName, SenderEmail, Subject, Message} && FieldError(f, ValueOf(v, f)).Some?
      :: FieldError(f, ValueOf(v, f)).value
  }

  /** The validation steps as the handler runs them, filling `fieldErrors` one check at a time. */
  method CollectFieldErrors(v: ContactFormValues) returns (fieldErrors: map<Field, string>)
    ensures fieldErrors == FieldErrors(v)
  {
    fieldErrors := map[];

    if v.senderEmail == "" {
      fieldErrors := fieldErrors[SenderEmail := EmailRequired];
    } else if !EmailRegexTest(v.senderEmail) {
      fieldErrors := fieldErrors[SenderEmail := EmailInvalid];
    }

    if v.subject == "" {
      fieldErrors := fieldErrors[Subject := SubjectRequired];
    }

    if v.message == "" {
      fieldErrors := fieldErrors[Message := MessageRequired];
    }

    assert forall f :: f in fieldErrors <==> f in FieldErrors(v);
  }

  /**
   * The email error is "Email is required." exactly when the email is empty,
   * "Please enter a valid email address." exactly when it is non-empty and not of
   * the email shape, and absent otherwise; the subject and message errors are
   * present exactly when those fields are empty; the name is never flagged.
   */
  lemma FieldErrorsCases(v: ContactFormValues)
    ensures var errors := FieldErrors(v);
            && SenderName !in errors
            && (SenderEmail in errors && errors[SenderEmail] == EmailRequired <==> v.senderEmail == "")
            && (SenderEmail in errors && errors[SenderEmail] == EmailInvalid <==>
                  v.senderEmail != "" && !EmailShape(v.senderEmail))
            && (SenderEmail !in errors <==> EmailShape(v.senderEmail))
            && (Subject in errors <==> v.subject == "")
            && (Subject in errors ==> errors[Subject] == SubjectRequired)
            && (Message in errors <==> v.message == "")
            && (Message in errors ==> errors[Message] == MessageRequired)
  {
    EmailRegexTestIsShape(v.senderEmail);
    assert EmailShape(v.senderEmail) ==> v.senderEmail != "" by {
      if EmailShape(v.senderEmail) {
        var at :| EmailShapeAt(v.senderEmail, at);
      }
    }
  }

  /** Validation passes exactly when the email has the email shape and subject and message are non-empty. */
  lemma NoFieldErrorsIff(v: ContactFormValues)
    ensures |FieldErrors(v)| == 0 <==> EmailShape(v.senderEmail) && v.subject != "" && v.message != ""
  {
    FieldErrorsCases(v);
    var errors := FieldErrors(v);
    if |errors| == 0 {
      assert SenderEmail !in errors && Subject !in errors && Message !in errors;
    } else {
      var f :| f in errors;
    }
  }

  /** Each field's error depends on that field's value alone. */
  lemma FieldErrorIsLocal(v: ContactFormValues, w: ContactFormValues, f: Field)
    requires ValueOf(v, f) == ValueOf(w, f)
    ensures f in FieldErrors(v) <==> f in FieldErrors(w)
    ensures f in FieldErrors(v) ==> FieldErrors(v)[f] == FieldErrors(w)[f]
  {
  }

  /** An empty or whitespace-only required field is reported as missing; a missing one too. */
  lemma BlankFieldIsMissing(form: FormData)
    ensures var errors := FieldErrors(ReadValues(form));
            && (Subject in errors <==> Subject !in form || AllWhitespace(form[Subject]))
            && (Message in errors <==> Message !in form || AllWhitespace(form[Message]))
            && (SenderEmail in errors && errors[SenderEmail] == EmailRequired <==>
                  SenderEmail !in form || AllWhitespace(form[SenderEmail]))
  {
    var v := ReadValues(form);
    FieldErrorsCases(v);
    if Subject in form { TrimEmptyIff(form[Subject]); }
    if Message in form { TrimEmptyIff(form[Message]); }
    if SenderEmail in form { TrimEmptyIff(form[SenderEmail]); }
  }

  // ----- The outbound request -----

  /** `requestBody`: `senderName` is `undefined` when the trimmed name is empty. */
  datatype RequestBody = RequestBody(
    senderEmail: string,
    senderName: Option<string>,
    subject: string,
    message: string)

  function RequestBodyOf(v: ContactFormValues): RequestBody
  {
    RequestBody(
      senderEmail := v.senderEmail,
      senderName := if v.senderName != "" then Some(v.senderName) else None,
      subject := v.subject,
      message := v.message)
  }

  /** `JSON.stringify(requestBody)` as a JSON object: an `undefined` member is dropped. */
  function Serialize(body: RequestBody): Json
  {
    var required := map["senderEmail" := JString(body.senderEmail), "subject" := JString(body.subject),
                        "message" := JString(body.message)];
    match body.senderName
    case None => JObject(required)
    case Some(name) => JObject(required["senderName" := JString(name)])
  }

  /** The `fetch` request: a JSON POST; the endpoint URL is configuration and is not modelled. */
  datatype OutboundRequest = OutboundRequest(httpMethod: string, headers: map<string, string>, body: Json)

  function BuildRequest(v: ContactFormValues): OutboundRequest
  {
    OutboundRequest("POST", map["Content-Type" := "application/json"], Serialize(RequestBodyOf(v)))
  }

  /**
   * The request is a JSON POST whose body holds the trimmed email, subject and
   * message, and the trimmed name only when it is non-empty.
   */
  lemma RequestCarriesTrimmedValues(form: FormData)
    ensures var request := BuildRequest(ReadValues(form));
            var name := FormValue(form, SenderName);
            && request.httpMethod == "POST"
            && request.headers == map["Content-Type" := "application/json"]
            && request.body.JObject?
            && request.body.fields.Keys
               == {"senderEmail", "subject", "message"} + (if name != "" then {"senderName"} else {})
            && request.body.fields["senderEmail"] == JString(FormValue(form, SenderEmail))
            && request.body.fields["subject"] == JString(FormValue(form, Subject))
            && request.body.fields["message"] == JString(FormValue(form, Message))
            && (name != "" ==> request.body.fields["senderName"] == JString(name))
  {
  }

  // ----- Interpreting the outbound call -----

  /** What the one outbound call did: it threw, or it responded with a status and a body that parsed or (`None`) did not. */
  datatype Outcome = Threw | Responded(status: int, payload: Option<Json>)

  /** `ContactActionData`. */
  datatype ContactActionData = ContactActionData(
    success: bool,
    message: string,
    fieldErrors: Option<map<Field, string>>,
    values: Option<ContactFormValues>)

  /** The JSON response the action returns: its HTTP status and its data. */
  datatype ActionResponse = ActionResponse(status: int, data: ContactActionData)

  const FixFieldsMessage := "Please fix the highlighted fields and try again."
  const UnableToSendMessage := "Unable to send your message right now. Please try again."
  const SentMessage := "Message sent successfully."
  const TransportFailureMessage := "Something went wrong while sending your message. Please try again."

  /** `response.ok`. */
  predicate IsOk(status: int)
  {
    200 <= status <= 299
  }

  /**
   * `typeof apiPayload?.[key] === "string" && apiPayload[key]`, kept only when
   * truthy: the field as a non-empty string, if the payload is an object that has one.
   */
  function PayloadString(payload: Option<Json>, key: string): (r: Option<string>)
    ensures r.Some? ==> && payload.Some? && payload.value.JObject? && key in payload.value.fields
                        && payload.value.fields[key] == JString(r.value) && r.value != ""
    ensures (&& payload.Some? && payload.value.JObject? && key in payload.value.fields
             && payload.value.fields[key].JString? && payload.value.fields[key].s != "") ==>
              r == Some(payload.value.fields[key].s)
  {
    if payload.Some? && payload.value.JObject? && key in payload.value.fields
       && payload.value.fields[key].JString? && payload.value.fields[key].s != ""
    then Some(payload.value.fields[key].s)
    else None
  }

  /** The failure message: the payload's `message`, else its `error`, else the fallback. */
  function RejectionMessage(payload: Option<Json>): string
  {
    match PayloadString(payload, "message")
    case Some(m) => m
    case None =>
      match PayloadString(payload, "error")
      case Some(e) => e
      case None => UnableToSendMessage
  }

  /** The success message: the payload's `message`, else the fallback. */
  function AcceptedMessage(payload: Option<Json>): string
  {
    match PayloadString(payload, "message")
    case Some(m) => m
    case None => SentMessage
  }

  /** The result once validation has passed and the request went out. */
  function Interpret(values: ContactFormValues, outcome: Outcome): ActionResponse
  {
    match outcome
    case Threw =>
      ActionResponse(500, ContactActionData(false, TransportFailureMessage, None, Some(values)))
    case Responded(status, payload) =>
      if !IsOk(status) then
        ActionResponse(if status >= 400 then status else 500,
                       ContactActionData(false, RejectionMessage(payload), None, Some(values)))
      else
        ActionResponse(200, ContactActionData(true, AcceptedMessage(payload), None, None))
  }

  /**
   * After the call, the result never has field errors; it succeeds exactly when
   * the service answered with an ok status, and then has status 200 and no values;
   * otherwise it echoes the values and has an error status of at least 400, the
   * upstream one when that is at least 400.
   */
  lemma InterpretInvariants(values: ContactFormValues, outcome: Outcome)
    ensures var r := Interpret(values, outcome);
            && r.data.fieldErrors.None?
            && (r.data.success <==> outcome.Responded? && IsOk(outcome.status))
            && (r.data.success ==> r.status == 200 && r.data.values.None?)
            && (!r.data.success ==> r.data.values == Some(values) && r.status >= 400)
            && (outcome.Responded? && !IsOk(outcome.status) && outcome.status >= 400 ==> r.status == outcome.status)
            && (outcome.Responded? && !IsOk(outcome.status) && outcome.status < 400 ==> r.status == 500)
            && r.data.message != ""
            && (outcome.Threw? ==>
                  r == ActionResponse(500, ContactActionData(false, TransportFailureMessage, None, Some(values))))
  {
  }

  /** On an ok status the service's non-empty `message` is shown, and otherwise the fixed success message. */
  lemma AcceptedMessagePrecedence(values: ContactFormValues, status: int, payload: Option<Json>)
    requires IsOk(status)
    ensures var m := Interpret(values, Responded(status, payload)).data.message;
            && (PayloadString(payload, "message").Some? ==> m == PayloadString(payload, "message").value)
            && (PayloadString(payload, "message").None? ==> m == SentMessage)
  {
  }

  /**
   * The message shown is one of the handler's own fixed messages, or a non-empty
   * string the service itself supplied as `message` or `error`; nothing else from
   * the payload reaches the user. A success shows the service's `message` or the
   * fixed success message; a failure never shows the fixed success message.
   */
  lemma MessageSources(values: ContactFormValues, outcome: Outcome)
    ensures var r := Interpret(values, outcome);
            var payload := if outcome.Responded? then outcome.payload else None;
            && (r.data.success ==>
                  r.data.message == SentMessage || Some(r.data.message) == PayloadString(payload, "message"))
            && (!r.data.success ==>
                  || r.data.message == UnableToSendMessage || r.data.message == TransportFailureMessage
                  || Some(r.data.message) == PayloadString(payload, "message")
                  || Some(r.data.message) == PayloadString(payload, "error"))
  {
  }

  /** On a failure status the service's `message` wins over its `error`, which wins over the fallback. */
  lemma RejectionMessagePrecedence(values: ContactFormValues, status: int, payload: Option<Json>)
    requires !IsOk(status)
    ensures var m := Interpret(values, Responded(status, payload)).data.message;
            && (PayloadString(payload, "message").Some? ==> m == PayloadString(payload, "message").value)
            && (PayloadString(payload, "message").None? && PayloadString(payload, "error").Some? ==>
                  m == PayloadString(payload, "error").value)
            && (PayloadString(payload, "message").None? && PayloadString(payload, "error").None? ==>
                  m == UnableToSendMessage)
  {
  }

  /** A body that does not parse is treated like `null`, and so is any parsed body that is not an object. */
  lemma UnparsedBodyIsNull(values: ContactFormValues, status: int, body: Json)
    requires !body.JObject?
    ensures Interpret(values, Responded(status, None)) == Interpret(values, Responded(status, Some(JNull)))
    ensures Interpret(values, Responded(status, Some(body))) == Interpret(values, Responded(status, None))
  {
  }

  // ----- The handler -----

  /**
   * `action`: read and validate the form; on any field error return 400 with
   * the errors and the echoed values and send nothing; otherwise send the one
   * request and interpret what came of it. `sent` is the request made, if any.
   */
  method Action(form: FormData, outcome: Outcome) returns (response: ActionResponse, sent: Option<OutboundRequest>)
    ensures var values := ReadValues(form);
            var errors := FieldErrors(values);
            && (sent.None? <==> |errors| > 0)
            && (|errors| > 0 ==>
                  response == ActionResponse(400, ContactActionData(false, FixFieldsMessage, Some(errors), Some(values))))
            && (|errors| == 0 ==> sent == Some(BuildRequest(values)) && response == Interpret(values, outcome))
    ensures response.data.fieldErrors.Some? <==> sent.None?
    ensures response.data.values.Some? <==> !response.data.success
    ensures response.data.success ==> response.status == 200
    ensures !response.data.success ==> response.status >= 400
  {
    var values := ReadValues(form);
    var fieldErrors := CollectFieldErrors(values);

    if |fieldErrors| > 0 {
      response := ActionResponse(400, ContactActionData(false, FixFieldsMessage, Some(fieldErrors), Some(values)));
      sent := None;
      return;
    }

    var request := BuildRequest(values);
    sent := Some(request);
    response := Interpret(values, outcome);
    InterpretInvariants(values, outcome);
  }

  // ----- End-to-end scenarios -----

  /**
   * Invalid email, empty subject and empty message are all reported at once
   * (`Action` then sends nothing, by its postcondition).
   */
  lemma ScenarioAllErrorsReported()
    ensures var form := map[SenderEmail := "not-an-email", Subject := "", Message := ""];
            FieldErrors(ReadValues(form))
            == map[SenderEmail := EmailInvalid, Subject := SubjectRequired, Message := MessageRequired]
  {
    ScenarioValues();
    NoAtIsNotEmail();
    ThreeErrorsAtOnce(ContactFormValues("", "not-an-email", "", ""));
  }

  lemma ScenarioValues()
    ensures ReadValues(map[SenderEmail := "not-an-email", Subject := "", Message := ""])
         == ContactFormValues("", "not-an-email", "", "")
  {
    var form := map[SenderEmail := "not-an-email", Subject := "", Message := ""];
    assert FormValue(form, SenderName) == "";
    assert FormValue(form, SenderEmail) == Trim("not-an-email");
    TrimFixesTrimmed("not-an-email");
    assert FormValue(form, Subject) == Trim("");
    assert FormValue(form, Message) == Trim("");
  }

  /** A malformed email with a blank subject and message yields exactly those three errors. */
  lemma ThreeErrorsAtOnce(v: ContactFormValues)
    requires v.senderEmail != "" && !EmailShape(v.senderEmail) && v.subject == "" && v.message == ""
    ensures FieldErrors(v) == map[SenderEmail := EmailInvalid, Subject := SubjectRequired, Message := MessageRequired]
  {
    var errors := FieldErrors(v);
    var expected := map[SenderEmail := EmailInvalid, Subject := SubjectRequired, Message := MessageRequired];
    FieldErrorsCases(v);
    forall f: Field
      ensures f in errors <==> f in expected
      ensures f in errors ==> errors[f] == expected[f]
    {
    }
  }

  /** An upstream 502 with `{error: "upstream down"}` yields that message, the echoed values and status 502. */
  lemma ScenarioUpstreamDown(values: ContactFormValues)
    ensures Interpret(values, Responded(502, Some(JObject(map["error" := JString("upstream down")]))))
         == ActionResponse(502, ContactActionData(false, "upstream down", None, Some(values)))
  {
  }

  /** A 200 with a body that does not parse still succeeds, with the fallback message. */
  lemma ScenarioUnparsableSuccess(values: ContactFormValues)
    ensures Interpret(values, Responded(200, None))
         == ActionResponse(200, ContactActionData(true, SentMessage, None, None))
  {
  }
}
