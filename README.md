# Password recovery in the UAA login server

A Dafny model of `EmailResetPasswordService`, the login server's password-recovery
orchestration. It has two operations.

- `forgotPassword(email)` asks the identity backend to issue a reset code for the address.
  The backend's answer comes back as a returned response, as a thrown
  `HttpClientErrorException` carrying an unparsed JSON body, or as a thrown `IOException`.
  The service turns it into at most one password-reset message. For a success it renders the
  `reset_password` template with the code. For a CONFLICT it renders the
  `reset_password_unavailable` template. It sends the message only when both the rendered
  content and the user id are present.
- `resetPassword(code, newPassword)` sends one password change to the backend. It returns the
  backend's body, or raises a `UaaException`.

Files:

- `wrappers.dfy`: `Option` (for Java's `null`) and `Result` (for raised exceptions).
- `messaging.dfy`: the message type, the `Message` record and a `MessageService` class that logs every
  message handed to it.
- `password_reset.dfy`: the backend's answers, the brand rule, the template contexts, a pure
  specification of forgotPassword, resetPassword, and the `EmailResetPasswordService` class.

The specification of forgotPassword has two steps. `Classify` brings the backend's answer, from
whichever channel, to one `ResetOutcome`: code issued, unavailable, not found, absorbed (caught and
logged), or escapes. `Notification` then decides the message. The class method `ForgotPassword`
follows the Java code step by step. Its locals `htmlContent` and `userId` start as null and are
set across the branches, then a conditional `SendMessage` follows. It is proved to append exactly
`Sent(...)` of the specification to the message service's log, whatever the log held before, so the
message service may be shared with other senders. The class keeps a ghost history of its calls. For a
client that owns its message service, the per-call guarantee and `OutboxAppend` give the log of a whole
sequence of calls as the `Outbox` of that sequence.

Collaborators are inputs:

- The template engine and the JSON reader are function values held by the service.
- The backend endpoint is passed to each call as a function. The method `ForgotPassword` applies it
  once, to the email. The function `ResetPassword` applies it once, to `PasswordChange(code, newPassword)`.
  It is passed per call because the backend has state: two calls may get different codes.
- The reset URL and the host name come from the current servlet request, so they are passed
  per call as a `RequestContext`.

Behaviour kept as the code has it:

- forgotPassword catches only `HttpClientErrorException` and `IOException`. Any other runtime
  exception from the backend escapes. So does the `NullPointerException` caused by a null body in a
  CONFLICT response or a success response. The model reports these as `ExceptionEscaped`. It makes
  no claim that forgotPassword always returns normally.
- A returned status other than CONFLICT and NOT_FOUND is treated as a success, whatever its value.
- In resetPassword only a *returned* BAD_REQUEST gets the generic message "Invalid password reset
  request.". A BAD_REQUEST raised as an `HttpClientErrorException` is a `RestClientException`, so
  the exception's own message goes to the caller instead. In the model this is `ChangeAnswer.RestClientExceptionThrown`.
- Other runtime exceptions from changePassword are not caught by resetPassword. `ResetError.Uncaught` carries them.

## Model

| member | source | states |
|---|---|---|
| PasswordReset.ServiceName | login/src/main/java/org/cloudfoundry/identity/uaa/login/EmailResetPasswordService.java:123 | the `serviceName` template variable is "Pivotal " exactly when the brand is "pivotal", and "" otherwise |
| PasswordReset.SubjectText | login/src/main/java/org/cloudfoundry/identity/uaa/login/EmailResetPasswordService.java:97-99 | the subject is "Pivotal account password reset request" exactly when the brand is "pivotal", and "Account password reset request" otherwise |
| PasswordReset.BrandRule | login/src/main/java/org/cloudfoundry/identity/uaa/login/EmailResetPasswordService.java:97-99 | subject and service name follow the same brand rule: the subject is branded exactly when the service name is, and is then the service name followed by "account password reset request" |
| PasswordReset.CodeSentVariables | login/src/main/java/org/cloudfoundry/identity/uaa/login/EmailResetPasswordService.java:119-127 | the `reset_password` context has exactly serviceName, code (possibly null), email and resetUrl; `CodeSentEmailHtml` renders the `reset_password` template with it, which `OtherStatusSendsCode` states with the context written out |
| PasswordReset.ResetUnavailableVariables | login/src/main/java/org/cloudfoundry/identity/uaa/login/EmailResetPasswordService.java:130-137 | the `reset_password_unavailable` context has exactly serviceName, email and hostname (possibly null); `ResetUnavailableEmailHtml` renders the `reset_password_unavailable` template with it, which `ConflictResponseSendsUnavailable` and `UnparsableConflictSendsNothing` state |
| PasswordReset.Classify | login/src/main/java/org/cloudfoundry/identity/uaa/login/EmailResetPasswordService.java:62-90 | NOT_FOUND exactly for a returned 404; absorbed exactly for an IOException or a non-CONFLICT client error; unavailable exactly for a CONFLICT on either channel (a returned one needs a body), carrying the body's `user_id`, or for a thrown one the parsed body's `user_id` and null when it does not parse; code issued exactly for any other returned status with a body, carrying its `user_id` and `code` |
| PasswordReset.Notification | login/src/main/java/org/cloudfoundry/identity/uaa/login/EmailResetPasswordService.java:92-94 | a message exists exactly when both the content and the user id are present; it goes to the call's email, with type PASSWORD_RESET, the brand's subject, that user id and that content |
| PasswordReset.Sent | login/src/main/java/org/cloudfoundry/identity/uaa/login/EmailResetPasswordService.java:92-94 | one call sends at most one message, and none exactly when there is no notification |
| PasswordReset.ForgotCompletion | login/src/main/java/org/cloudfoundry/identity/uaa/login/EmailResetPasswordService.java:62-90 | an exception escapes forgotPassword exactly for an uncaught runtime exception or a null body in a response other than NOT_FOUND |
| PasswordReset.NotFoundSendsNothing | login/src/main/java/org/cloudfoundry/identity/uaa/login/EmailResetPasswordService.java:68-69 | a returned NOT_FOUND renders nothing, sends nothing and returns normally, whatever its body |
| PasswordReset.ConflictResponseSendsUnavailable | login/src/main/java/org/cloudfoundry/identity/uaa/login/EmailResetPasswordService.java:64-67 | a returned CONFLICT renders `reset_password_unavailable` with {serviceName, email, hostname}; a message is sent exactly when the body has `user_id`, and then to that user |
| PasswordReset.ConflictChannelsAgree | login/src/main/java/org/cloudfoundry/identity/uaa/login/EmailResetPasswordService.java:74-80 | a thrown CONFLICT whose body parses to a map has the same content, message and completion as a returned CONFLICT carrying that map |
| PasswordReset.UnparsableConflictSendsNothing | login/src/main/java/org/cloudfoundry/identity/uaa/login/EmailResetPasswordService.java:75-83 | a thrown CONFLICT whose body does not parse still renders the unavailable content, but sends nothing and returns normally |
| PasswordReset.OtherStatusSendsCode | login/src/main/java/org/cloudfoundry/identity/uaa/login/EmailResetPasswordService.java:70-73 | any other returned status renders `reset_password` with {serviceName, code = body["code"], email, resetUrl}; a message is sent exactly when the body has `user_id`, and then to that user |
| PasswordReset.CaughtFailuresSendNothing | login/src/main/java/org/cloudfoundry/identity/uaa/login/EmailResetPasswordService.java:85-90 | a non-CONFLICT client error or an IOException produces no content and no message, and forgotPassword returns normally |
| PasswordReset.NotFoundIndistinguishableFromFailure | login/src/main/java/org/cloudfoundry/identity/uaa/login/EmailResetPasswordService.java:68-90 | a NOT_FOUND and a caught failure have the same observable effect: normal return, no message |
| PasswordReset.Outbox | login/src/main/java/org/cloudfoundry/identity/uaa/login/EmailResetPasswordService.java:57-95 | a sequence of calls sends at most one message per call |
| PasswordReset.OutboxAppend | login/src/main/java/org/cloudfoundry/identity/uaa/login/EmailResetPasswordService.java:57-95 | calls do not influence each other: the messages of two sequences of calls are those of the first, then those of the second |
| PasswordReset.OutboxMessages | login/src/main/java/org/cloudfoundry/identity/uaa/login/EmailResetPasswordService.java:92-94 | every logged message is a PASSWORD_RESET message with the brand's subject, and is the notification of one of the calls, addressed to that call's email |
| PasswordReset.RepeatedRequestIsNotDeduplicated | login/src/main/java/org/cloudfoundry/identity/uaa/login/EmailResetPasswordService.java:92-94 | the same successful request made twice sends its message twice |
| PasswordReset.ResetPassword | login/src/main/java/org/cloudfoundry/identity/uaa/login/EmailResetPasswordService.java:101-116 | a returned BAD_REQUEST gives the generic UaaException; a RestClientException gives a UaaException with its own message; another runtime exception propagates; otherwise the backend's body is returned unchanged |
| PasswordReset.BadRequestIsGeneric | login/src/main/java/org/cloudfoundry/identity/uaa/login/EmailResetPasswordService.java:109-111 | the BAD_REQUEST failure is the same whatever body the backend returned with it |
| PasswordReset.OnlyTheGivenChangeIsRequested | login/src/main/java/org/cloudfoundry/identity/uaa/login/EmailResetPasswordService.java:105-108 | the result depends only on the backend's answer to the one change request with the given code and new password |
| PasswordReset.EmailResetPasswordService.constructor | login/src/main/java/org/cloudfoundry/identity/uaa/login/EmailResetPasswordService.java:49-55 | stores the collaborators and configuration; the call history is empty |
| PasswordReset.EmailResetPasswordService.ForgotPassword | login/src/main/java/org/cloudfoundry/identity/uaa/login/EmailResetPasswordService.java:57-95 | in any state of the message service: calls the backend once with the email, records the call in the history, appends exactly the specified zero or one message to the message service's log, and ends as `ForgotCompletion` says |
| Messaging.MessageService.SendMessage | login/src/main/java/org/cloudfoundry/identity/uaa/login/EmailResetPasswordService.java:93 | appends exactly one message with the given arguments to the log |

## Left out

- MockMvcUtils.java and the rest of the test scaffolding: it drives HTTP requests and OAuth flows and has no logic of this service.
- Template rendering is an opaque function of template name and variables. Exceptions the template engine may raise are not modelled.
- The reset URL and the host name come from the current servlet request. They are inputs, and the exception raised when there is no current request is not modelled.
- Reading the JSON error body is an opaque partial function. The JSON document `null`, which the reader turns into a null map, is not modelled.
- Logging is left out. Only the fact that a message was handed to the message service is recorded, with its arguments. Delivery is not modelled.
- Java maps that hold null values: a key mapped to null is modelled as an absent key. `Map.get` treats both alike. resetPassword therefore returns the body without such entries.
- Null arguments (`email`, `code`, `newPassword`), a null `brand` (which would fail in `brand.equals` before the backend call) and null exception messages are not modelled. All strings are present.
- `uaaBaseUrl` is stored as the source stores it. The code never uses it.
- The values of `MessageType` other than PASSWORD_RESET are not part of this model. MessageService's own source is not part of this model either.
