/** The password-recovery orchestration of the login server's EmailResetPasswordService:
    forgotPassword turns the identity backend's answer into at most one password-reset
    message, resetPassword turns it into the returned body or a UaaException. */
module PasswordReset {
  import opened Wrappers
  import opened Messaging

  // ---------------------------------------------------------------------------
  // Data model
  // ---------------------------------------------------------------------------

  /** A JSON object of strings as the backend returns it. A key that Java maps to null
      reads as absent, which is how `Map.get` treats it too. */
  type Body = map<string, string>

  /** The variables of a template context; a variable set to Java null is `None`. */
  type Variables = map<string, Option<string>>

  /** The template engine: template name and variables to rendered HTML. */
  type TemplateEngine = (string, Variables) -> string

  /** Reading a JSON text into a map of strings: `None` when the reader raises an IOException. */
  type JsonParser = string -> Option<Body>

  const CONFLICT := 409
  const NOT_FOUND := 404
  const BAD_REQUEST := 400

  const PIVOTAL_SUBJECT := "Pivotal account password reset request"
  const DEFAULT_SUBJECT := "Account password reset request"
  const INVALID_RESET_REQUEST := "Invalid password reset request."

  /** `Map.get`: the value under `key`, or null. */
  function Get(body: Body, key: string): Option<string>
  {
    if key in body then Some(body[key]) else None
  }

  /** What the single backend call `resetPassword(email)` produced. */
  datatype ResetAnswer =
    | Returned(status: int, body: Option<Body>)            // a ResponseEntity; None is a null body
    | ClientErrorThrown(status: int, responseBody: string) // an HttpClientErrorException
    | IOExceptionThrown                                     // an IOException
    | UncheckedThrown                                       // any other runtime exception

  /** The password change request sent to the backend. */
  datatype PasswordChange = PasswordChange(code: string, newPassword: string)

  /** What the single backend call `changePassword(change)` produced. */
  datatype ChangeAnswer =
    | ChangeReturned(status: int, body: Option<Body>)       // a ResponseEntity; None is a null body
    | RestClientExceptionThrown(message: string)            // a RestClientException (or subclass)
    | UncheckedChangeThrown(exception: string)              // any other runtime exception

  /** The exceptions resetPassword raises. */
  datatype ResetError =
    | UaaException(message: string)
    | Uncaught(exception: string)   // a backend exception that is not caught and propagates as it is

  /** What the current servlet request contributes: the reset link and the host name
      (`getHost` may give null). */
  datatype RequestContext = RequestContext(resetUrl: string, hostname: Option<string>)

  /** One forgotPassword call: its argument, the backend's answer and the request it ran in. */
  datatype ForgotRequest = ForgotRequest(email: string, answer: ResetAnswer, context: RequestContext)

  /** How forgotPassword ends: normally, or with an exception that it does not catch. */
  datatype Completion = ReturnedNormally | ExceptionEscaped

  /** The backend's answer to forgotPassword, with both channels brought to one classification. */
  datatype ResetOutcome =
    | CodeIssued(userId: Option<string>, code: Option<string>)
    | Unavailable(userId: Option<string>)
    | NotFound
    | Absorbed   // caught and logged
    | Escapes    // an exception leaves forgotPassword

  // ---------------------------------------------------------------------------
  // Brand, subject and templates
  // ---------------------------------------------------------------------------

  /** The `serviceName` template variable. */
  function ServiceName(brand: string): (name: string)
    ensures name == "Pivotal " <==> brand == "pivotal"
    ensures name == "" <==> brand != "pivotal"
  {
    if brand == "pivotal" then "Pivotal " else ""
  }

  /** The subject of the password-reset message. */
  function SubjectText(brand: string): (subject: string)
    ensures subject == PIVOTAL_SUBJECT <==> brand == "pivotal"
    ensures subject == DEFAULT_SUBJECT <==> brand != "pivotal"
  {
    if brand == "pivotal" then PIVOTAL_SUBJECT else DEFAULT_SUBJECT
  }

  /** The context of the `reset_password` template. */
  function CodeSentVariables(brand: string, code: Option<string>, email: string, resetUrl: string): (vars: Variables)
    ensures vars.Keys == {"serviceName", "code", "email", "resetUrl"}
    ensures vars["serviceName"] == Some(ServiceName(brand)) && vars["code"] == code
    ensures vars["email"] == Some(email) && vars["resetUrl"] == Some(resetUrl)
  {
    map["serviceName" := Some(ServiceName(brand)), "code" := code, "email" := Some(email), "resetUrl" := Some(resetUrl)]
  }

  function CodeSentEmailHtml(engine: TemplateEngine, brand: string, code: Option<string>, email: string, resetUrl: string): string
  {
    engine("reset_password", CodeSentVariables(brand, code, email, resetUrl))
  }

  /** The context of the `reset_password_unavailable` template. */
  function ResetUnavailableVariables(brand: string, email: string, hostname: Option<string>): (vars: Variables)
    ensures vars.Keys == {"serviceName", "email", "hostname"}
    ensures vars["serviceName"] == Some(ServiceName(brand))
    ensures vars["email"] == Some(email) && vars["hostname"] == hostname
  {
    map["serviceName" := Some(ServiceName(brand)), "email" := Some(email), "hostname" := hostname]
  }

  function ResetUnavailableEmailHtml(engine: TemplateEngine, brand: string, email: string, hostname: Option<string>): string
  {
    engine("reset_password_unavailable", ResetUnavailableVariables(brand, email, hostname))
  }

  /** One brand rule decides both the subject and the service name: the subject is branded
      exactly when the service name is, and then it is the service name followed by
      "account password reset request". */
  lemma BrandRule(brand: string)
    ensures SubjectText(brand) == PIVOTAL_SUBJECT <==> ServiceName(brand) == "Pivotal "
    ensures SubjectText(brand) == DEFAULT_SUBJECT <==> ServiceName(brand) == ""
    ensures ServiceName(brand) != "" ==>
              SubjectText(brand) == ServiceName(brand) + "account password reset request"
  {
    assert PIVOTAL_SUBJECT != DEFAULT_SUBJECT by { assert PIVOTAL_SUBJECT[0] != DEFAULT_SUBJECT[0]; }
  }

  // ---------------------------------------------------------------------------
  // forgotPassword, as a specification
  // ---------------------------------------------------------------------------

  /** The classification of the backend's answer, whichever channel carried it. */
  function Classify(answer: ResetAnswer, parseJson: JsonParser): (o: ResetOutcome)
    ensures o.NotFound? <==> answer.Returned? && answer.status == NOT_FOUND
    ensures o.Absorbed? <==> answer.IOExceptionThrown? || (answer.ClientErrorThrown? && answer.status != CONFLICT)
    ensures o.Unavailable? <==>
      (answer.Returned? && answer.status == CONFLICT && answer.body.Some?) ||
      (answer.ClientErrorThrown? && answer.status == CONFLICT)
    ensures o.CodeIssued? <==>
      answer.Returned? && answer.status != CONFLICT && answer.status != NOT_FOUND && answer.body.Some?
    ensures o.CodeIssued? ==>
      o.userId == Get(answer.body.value, "user_id") && o.code == Get(answer.body.value, "code")
    ensures o.Unavailable? && answer.Returned? ==> o.userId == Get(answer.body.value, "user_id")
    ensures o.Unavailable? && answer.ClientErrorThrown? ==>
      o.userId == (match parseJson(answer.responseBody) case Some(b) => Get(b, "user_id") case None => None)
  {
    match answer
    case Returned(status, body) =>
      if status == CONFLICT then
        (if body.Some? then Unavailable(Get(body.value, "user_id")) else Escapes)
      else if status == NOT_FOUND then NotFound
      else if body.None? then Escapes
      else CodeIssued(Get(body.value, "user_id"), Get(body.value, "code"))
    case ClientErrorThrown(status, responseBody) =>
      if status != CONFLICT then Absorbed
      else
        var userId := match parseJson(responseBody) case Some(b) => Get(b, "user_id") case None => None;
        Unavailable(userId)
    case IOExceptionThrown => Absorbed
    case UncheckedThrown => Escapes
  }

  /** The rendered HTML an outcome has once forgotPassword reaches its send decision. */
  function HtmlContent(engine: TemplateEngine, brand: string, request: ForgotRequest, outcome: ResetOutcome): Option<string>
  {
    match outcome
    case CodeIssued(_, code) =>
      Some(CodeSentEmailHtml(engine, brand, code, request.email, request.context.resetUrl))
    case Unavailable(_) =>
      Some(ResetUnavailableEmailHtml(engine, brand, request.email, request.context.hostname))
    case _ => None
  }

  /** The user id an outcome carries to the send decision. */
  function UserId(outcome: ResetOutcome): Option<string>
  {
    match outcome
    case CodeIssued(userId, _) => userId
    case Unavailable(userId) => userId
    case _ => None
  }

  /** The message one forgotPassword call sends, if any. */
  function Notification(engine: TemplateEngine, brand: string, parseJson: JsonParser, request: ForgotRequest): (m: Option<Message>)
    ensures var outcome := Classify(request.answer, parseJson);
      m.Some? <==> HtmlContent(engine, brand, request, outcome).Some? && UserId(outcome).Some?
    ensures var outcome := Classify(request.answer, parseJson);
      m.Some? ==>
        && m.value.userId == UserId(outcome).value
        && m.value.email == request.email
        && m.value.messageType == PasswordReset
        && m.value.subject == SubjectText(brand)
        && m.value.htmlContent == HtmlContent(engine, brand, request, outcome).value
  {
    var outcome := Classify(request.answer, parseJson);
    var content := HtmlContent(engine, brand, request, outcome);
    var userId := UserId(outcome);
    if content.Some? && userId.Some? then
      Some(Message(userId.value, request.email, PasswordReset, SubjectText(brand), content.value))
    else
      None
  }

  /** The messages one forgotPassword call sends: none or one. */
  function Sent(engine: TemplateEngine, brand: string, parseJson: JsonParser, request: ForgotRequest): (s: seq<Message>)
    ensures |s| <= 1
    ensures s == [] <==> Notification(engine, brand, parseJson, request).None?
  {
    match Notification(engine, brand, parseJson, request)
    case Some(m) => [m]
    case None => []
  }

  /** How a forgotPassword call ends. */
  function ForgotCompletion(answer: ResetAnswer, parseJson: JsonParser): (c: Completion)
    ensures c == ExceptionEscaped <==>
      answer.UncheckedThrown? ||
      (answer.Returned? && answer.status != NOT_FOUND && answer.body.None?)
  {
    if Classify(answer, parseJson).Escapes? then ExceptionEscaped else ReturnedNormally
  }

  /** A NOT_FOUND response renders nothing and sends nothing, whatever its body. */
  lemma NotFoundSendsNothing(engine: TemplateEngine, brand: string, parseJson: JsonParser,
                             email: string, body: Option<Body>, context: RequestContext)
    ensures var request := ForgotRequest(email, Returned(NOT_FOUND, body), context);
      && HtmlContent(engine, brand, request, Classify(request.answer, parseJson)).None?
      && Notification(engine, brand, parseJson, request).None?
      && ForgotCompletion(request.answer, parseJson) == ReturnedNormally
  {
  }

  /** A CONFLICT response renders the unavailable template with serviceName, email and
      hostname, and sends it to the body's user_id; without a user_id nothing is sent. */
  lemma ConflictResponseSendsUnavailable(engine: TemplateEngine, brand: string, parseJson: JsonParser,
                                         email: string, body: Body, context: RequestContext)
    ensures var request := ForgotRequest(email, Returned(CONFLICT, Some(body)), context);
      var html := engine("reset_password_unavailable",
        map["serviceName" := Some(if brand == "pivotal" then "Pivotal " else ""),
            "email" := Some(email),
            "hostname" := context.hostname]);
      && HtmlContent(engine, brand, request, Classify(request.answer, parseJson)) == Some(html)
      && (Notification(engine, brand, parseJson, request).Some? <==> "user_id" in body)
      && ("user_id" in body ==>
            Notification(engine, brand, parseJson, request) ==
            Some(Message(body["user_id"], email, PasswordReset, SubjectText(brand), html)))
      && ForgotCompletion(request.answer, parseJson) == ReturnedNormally
  {
  }

  /** A CONFLICT that arrives as an HttpClientErrorException whose body parses to `body` has
      the same effect as a CONFLICT response carrying `body`. */
  lemma ConflictChannelsAgree(engine: TemplateEngine, brand: string, parseJson: JsonParser,
                              email: string, responseBody: string, body: Body, context: RequestContext)
    requires parseJson(responseBody) == Some(body)
    ensures var thrown := ForgotRequest(email, ClientErrorThrown(CONFLICT, responseBody), context);
      var returned := ForgotRequest(email, Returned(CONFLICT, Some(body)), context);
      && HtmlContent(engine, brand, thrown, Classify(thrown.answer, parseJson)) ==
         HtmlContent(engine, brand, returned, Classify(returned.answer, parseJson))
      && Notification(engine, brand, parseJson, thrown) == Notification(engine, brand, parseJson, returned)
      && ForgotCompletion(thrown.answer, parseJson) == ForgotCompletion(returned.answer, parseJson)
  {
  }

  /** A thrown CONFLICT whose body does not parse still renders the unavailable template,
      but has no user id, so nothing is sent. */
  lemma UnparsableConflictSendsNothing(engine: TemplateEngine, brand: string, parseJson: JsonParser,
                                       email: string, responseBody: string, context: RequestContext)
    requires parseJson(responseBody).None?
    ensures var request := ForgotRequest(email, ClientErrorThrown(CONFLICT, responseBody), context);
      && HtmlContent(engine, brand, request, Classify(request.answer, parseJson)) ==
         Some(ResetUnavailableEmailHtml(engine, brand, email, context.hostname))
      && Notification(engine, brand, parseJson, request).None?
      && ForgotCompletion(request.answer, parseJson) == ReturnedNormally
  {
  }

  /** Any other response status is a success: the reset_password template is rendered with
      serviceName, the body's code, email and resetUrl, and sent to the body's user_id. */
  lemma OtherStatusSendsCode(engine: TemplateEngine, brand: string, parseJson: JsonParser,
                             email: string, status: int, body: Body, context: RequestContext)
    requires status != CONFLICT && status != NOT_FOUND
    ensures var request := ForgotRequest(email, Returned(status, Some(body)), context);
      var html := engine("reset_password",
        map["serviceName" := Some(if brand == "pivotal" then "Pivotal " else ""),
            "code" := if "code" in body then Some(body["code"]) else None,
            "email" := Some(email),
            "resetUrl" := Some(context.resetUrl)]);
      && HtmlContent(engine, brand, request, Classify(request.answer, parseJson)) == Some(html)
      && (Notification(engine, brand, parseJson, request).Some? <==> "user_id" in body)
      && ("user_id" in body ==>
            Notification(engine, brand, parseJson, request) ==
            Some(Message(body["user_id"], email, PasswordReset, SubjectText(brand), html)))
      && ForgotCompletion(request.answer, parseJson) == ReturnedNormally
  {
  }

  /** A non-CONFLICT HttpClientErrorException and an IOException are caught: no content,
      no message, and forgotPassword returns normally. */
  lemma CaughtFailuresSendNothing(engine: TemplateEngine, brand: string, parseJson: JsonParser, request: ForgotRequest)
    requires request.answer.IOExceptionThrown? ||
             (request.answer.ClientErrorThrown? && request.answer.status != CONFLICT)
    ensures HtmlContent(engine, brand, request, Classify(request.answer, parseJson)).None?
    ensures Notification(engine, brand, parseJson, request).None?
    ensures ForgotCompletion(request.answer, parseJson) == ReturnedNormally
  {
  }

  /** The caller cannot tell a NOT_FOUND from a caught failure: both return normally and send nothing. */
  lemma NotFoundIndistinguishableFromFailure(engine: TemplateEngine, brand: string, parseJson: JsonParser,
                                             notFound: ForgotRequest, failed: ForgotRequest)
    requires notFound.answer.Returned? && notFound.answer.status == NOT_FOUND
    requires failed.answer.IOExceptionThrown? ||
             (failed.answer.ClientErrorThrown? && failed.answer.status != CONFLICT)
    ensures ForgotCompletion(notFound.answer, parseJson) == ForgotCompletion(failed.answer, parseJson)
    ensures Sent(engine, brand, parseJson, notFound) == Sent(engine, brand, parseJson, failed)
  {
  }

  // ---------------------------------------------------------------------------
  // Several forgotPassword calls
  // ---------------------------------------------------------------------------

  /** The messages a sequence of forgotPassword calls sends, in call order. */
  function Outbox(engine: TemplateEngine, brand: string, parseJson: JsonParser, requests: seq<ForgotRequest>): (out: seq<Message>)
    ensures |out| <= |requests|
    decreases |requests|
  {
    if requests == [] then []
    else Sent(engine, brand, parseJson, requests[0]) + Outbox(engine, brand, parseJson, requests[1..])
  }

  /** Calls do not influence each other: the messages of two sequences of calls are those of each, in turn. */
  lemma {:induction false} OutboxAppend(engine: TemplateEngine, brand: string, parseJson: JsonParser,
                                        first: seq<ForgotRequest>, second: seq<ForgotRequest>)
    ensures Outbox(engine, brand, parseJson, first + second) ==
            Outbox(engine, brand, parseJson, first) + Outbox(engine, brand, parseJson, second)
    decreases |first|
  {
    if first == [] {
      assert first + second == second;
    } else {
      assert (first + second)[1..] == first[1..] + second;
      OutboxAppend(engine, brand, parseJson, first[1..], second);
    }
  }

  /** Every message in the outbox is a password-reset message with the brand's subject, and is
      the notification of one of the calls, addressed to that call's email. */
  lemma {:induction false} OutboxMessages(engine: TemplateEngine, brand: string, parseJson: JsonParser,
                                          requests: seq<ForgotRequest>, k: nat)
    requires k < |Outbox(engine, brand, parseJson, requests)|
    ensures var m := Outbox(engine, brand, parseJson, requests)[k];
      && m.messageType == PasswordReset
      && m.subject == SubjectText(brand)
      && exists j :: 0 <= j < |requests| && Notification(engine, brand, parseJson, requests[j]) == Some(m) &&
                     m.email == requests[j].email
    decreases |requests|
  {
    var head := Sent(engine, brand, parseJson, requests[0]);
    var rest := requests[1..];
    var m := Outbox(engine, brand, parseJson, requests)[k];
    if k < |head| {
      assert Notification(engine, brand, parseJson, requests[0]) == Some(m);
    } else {
      OutboxMessages(engine, brand, parseJson, rest, k - |head|);
      var j :| 0 <= j < |rest| && Notification(engine, brand, parseJson, rest[j]) == Some(m) && m.email == rest[j].email;
      assert requests[j + 1] == rest[j];
    }
  }

  /** No deduplication: the same successful request made twice sends its message twice. */
  lemma RepeatedRequestIsNotDeduplicated(engine: TemplateEngine, brand: string, parseJson: JsonParser, request: ForgotRequest)
    requires Notification(engine, brand, parseJson, request).Some?
    ensures var m := Notification(engine, brand, parseJson, request).value;
      Outbox(engine, brand, parseJson, [request, request]) == [m, m]
  {
    var m := Notification(engine, brand, parseJson, request).value;
    assert [request, request][1..] == [request];
    assert [request][1..] == [];
  }

  // ---------------------------------------------------------------------------
  // resetPassword
  // ---------------------------------------------------------------------------

  /** resetPassword: one changePassword call with the given code and new password, then a
      returned BAD_REQUEST becomes the generic UaaException, a RestClientException becomes a
      UaaException with its own message, and any other response's body is returned. */
  function ResetPassword(code: string, newPassword: string, changePassword: PasswordChange -> ChangeAnswer)
    : (r: Result<Option<Body>, ResetError>)
    ensures var answer := changePassword(PasswordChange(code, newPassword));
      && (answer.ChangeReturned? && answer.status == BAD_REQUEST ==> r == Failure(UaaException(INVALID_RESET_REQUEST)))
      && (answer.RestClientExceptionThrown? ==> r == Failure(UaaException(answer.message)))
      && (answer.UncheckedChangeThrown? ==> r == Failure(Uncaught(answer.exception)))
      && (r.Success? <==> answer.ChangeReturned? && answer.status != BAD_REQUEST)
      && (r.Success? ==> r.value == answer.body)
  {
    var answer := changePassword(PasswordChange(code, newPassword));
    match answer
    case ChangeReturned(status, body) =>
      if status == BAD_REQUEST then Failure(UaaException(INVALID_RESET_REQUEST)) else Success(body)
    case RestClientExceptionThrown(message) => Failure(UaaException(message))
    case UncheckedChangeThrown(exception) => Failure(Uncaught(exception))
  }

  /** The BAD_REQUEST error does not depend on the backend's body. */
  lemma BadRequestIsGeneric(code: string, newPassword: string,
                            changeA: PasswordChange -> ChangeAnswer, changeB: PasswordChange -> ChangeAnswer)
    requires changeA(PasswordChange(code, newPassword)).ChangeReturned?
    requires changeB(PasswordChange(code, newPassword)).ChangeReturned?
    requires changeA(PasswordChange(code, newPassword)).status == BAD_REQUEST
    requires changeB(PasswordChange(code, newPassword)).status == BAD_REQUEST
    ensures ResetPassword(code, newPassword, changeA) == ResetPassword(code, newPassword, changeB)
    ensures ResetPassword(code, newPassword, changeA).Failure?
  {
  }

  /** Only the backend's answer to PasswordChange(code, newPassword) matters: resetPassword
      asks the backend nothing else. */
  lemma OnlyTheGivenChangeIsRequested(code: string, newPassword: string,
                                      changeA: PasswordChange -> ChangeAnswer, changeB: PasswordChange -> ChangeAnswer)
    requires changeA(PasswordChange(code, newPassword)) == changeB(PasswordChange(code, newPassword))
    ensures ResetPassword(code, newPassword, changeA) == ResetPassword(code, newPassword, changeB)
  {
  }

  // ---------------------------------------------------------------------------
  // The service object
  // ---------------------------------------------------------------------------

  class EmailResetPasswordService {
    const templateEngine: TemplateEngine
    const messageService: MessageService
    const uaaBaseUrl: string
    const brand: string
    /** The JSON reader that forgotPassword uses for the body of an HttpClientErrorException. */
    const objectMapper: JsonParser

    /** The forgotPassword calls made on this service so far, in order. Other code may share
        the message service, so its log is not tied to this history. */
    ghost var requests: seq<ForgotRequest>

    constructor (templateEngine: TemplateEngine, messageService: MessageService, uaaBaseUrl: string,
                 brand: string, objectMapper: JsonParser)
      ensures requests == []
      ensures this.templateEngine == templateEngine && this.messageService == messageService
      ensures this.uaaBaseUrl == uaaBaseUrl && this.brand == brand && this.objectMapper == objectMapper
    {
      this.templateEngine := templateEngine;
      this.messageService := messageService;
      this.uaaBaseUrl := uaaBaseUrl;
      this.brand := brand;
      this.objectMapper := objectMapper;
      requests := [];
    }

    /** forgotPassword: one backend call for `email`, then at most one message, sent exactly
        when both the content and the user id are present. */
    method ForgotPassword(email: string, resetEndpoint: string -> ResetAnswer, context: RequestContext)
      returns (completion: Completion)
      modifies this, messageService
      ensures requests == old(requests) + [ForgotRequest(email, resetEndpoint(email), context)]
      ensures messageService.sent ==
              old(messageService.sent) + Sent(templateEngine, brand, objectMapper, ForgotRequest(email, resetEndpoint(email), context))
      ensures completion == ForgotCompletion(resetEndpoint(email), objectMapper)
    {
      var subject := SubjectText(brand);
      var htmlContent: Option<string> := None;
      var userId: Option<string> := None;
      var response := resetEndpoint(email);
      ghost var request := ForgotRequest(email, response, context);
      ghost var outcome := Classify(response, objectMapper);
      ghost var expected := Sent(templateEngine, brand, objectMapper, request);
      requests := requests + [request];
      match response {
        case Returned(status, body) =>
          if status == CONFLICT {
            htmlContent := Some(ResetUnavailableEmailHtml(templateEngine, brand, email, context.hostname));
            if body.None? {
              // getBody() is null: the NullPointerException is not caught
              assert outcome == Escapes && expected == [];
              return ExceptionEscaped;
            }
            userId := Get(body.value, "user_id");
          } else if status == NOT_FOUND {
            // nothing is rendered and nothing is sent
          } else {
            if body.None? {
              assert outcome == Escapes && expected == [];
              return ExceptionEscaped;
            }
            userId := Get(body.value, "user_id");
            htmlContent := Some(CodeSentEmailHtml(templateEngine, brand, Get(body.value, "code"), email, context.resetUrl));
          }
        case ClientErrorThrown(status, responseBody) =>
          if status == CONFLICT {
            htmlContent := Some(ResetUnavailableEmailHtml(templateEngine, brand, email, context.hostname));
            var parsed := objectMapper(responseBody);
            if parsed.Some? {
              userId := Get(parsed.value, "user_id");
            }
            // an unreadable body is logged and userId stays null
          }
        case IOExceptionThrown =>
        case UncheckedThrown =>
          assert outcome == Escapes && expected == [];
          return ExceptionEscaped;
      }
      assert !outcome.Escapes?;
      assert htmlContent == HtmlContent(templateEngine, brand, request, outcome);
      assert userId == UserId(outcome);
      if htmlContent.Some? && userId.Some? {
        messageService.SendMessage(userId.value, email, PasswordReset, subject, htmlContent.value);
      }
      completion := ReturnedNormally;
    }
  }
}
