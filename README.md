# hitrix notification dispatcher and API audit logger, in Dafny

This project models two small components of the hitrix service library.

- **The SMS and voice dispatcher** (`Sender`). It has six operations: OTP by
  SMS, OTP by voice callout, a plain message, verification by SMS,
  verification by callout, and code verification. Each one looks up the
  primary gateway by name. The five OTP operations then render the OTP
  template into the code; a plain message keeps its text. The operation
  fills the shared tracker entity and calls the primary gateway. If that call
  errs, it looks up the secondary gateway and calls it once. Finally it sets
  the status from the last call, persists the tracker once and returns nil,
  unless the secondary was needed and is not registered: then it returns an
  error and persists nothing. The only errors returned are "primary provider
  not supported" and "secondary provider not supported".
- **The API audit logger** (`mysqlDBLog`). `LogStart` opens an audit entity
  with status "new" and makes it the current one. `LogError` moves the
  current entity to "failed"; `LogSuccess` moves it to "completed". Every
  call flushes the entity to the store once, except that a terminal call with
  no current entity panics and flushes nothing.

Files:

- `sms_sender.dfy` (module `Sms`): the dispatcher.
  - `Run` is a pure function giving the full effect of one dispatch: the
    error returned, the payload text afterwards, the tracker afterwards, the
    gateway calls made and the rows persisted. Its `ensures` clauses state
    every path.
  - `Sender` is a class over a mutable tracker entity (`Tracker`) and a
    mutable OTP payload (`Otp`). `Sender.Dispatch` is the one generic
    routine; it is proved to do exactly what `Run` says, through the
    two-state predicate `Performed`.
  - The six operations call `Dispatch` with their own `Kind`. Each also
    states its tracker type tag and its rendering.
- `api_logger.dfy` (module `ApiLogger`): the audit logger, a class with a
  nullable `currentLog` field. Its invariant `Valid` says that the current
  entity, if any, is of the template's type and carries one of the statuses
  "new", "failed" and "completed"; every operation keeps it.
- `fmt.dfy` (module `Fmt`): Go's `fmt.Sprintf` with one string operand,
  which the dispatcher uses to render OTP templates. `Sprintf` states the
  result for a template with no verb; its lemmas give the results for a
  template with one `%s` and with two.
- `persistence.dfy` (module `Persistence`): the store. Both `NewSmsLog(...).Do()`
  and beeorm's `Flush` are modelled as appending a snapshot row.
- `time.dfy` (module `Time`): the instant type and the clock the dispatcher reads.
- `wrappers.dfy` (module `Wrappers`): `Option`.

How the outside world enters the model:

- The gateways' answers are method inputs. Each operation takes
  `primaryAnswer` and `secondaryAnswer`, each an `Answer(status, err)`, and
  the gateway that is called returns that pair. A ghost log, `Sender.calls`,
  records every gateway call: which gateway, which operation, and the number
  and text the gateway was handed.
- The clock is a `Time.Clock` whose `reading` the environment sets.
  `LogStart` uses `time.Now()` directly in the source, so there the instant
  is a parameter, `now`.
- The panic "log is not created" is modelled as a returned
  `Outcome.Panicked(NotCreated)` that changes nothing. It is not a
  precondition, so the panic path has a contract of its own. A panic ends
  the caller's operation: a caller must not go on after `Panicked`, and the
  scenarios stop there.

Three behaviours of the code are easy to misread, and the model states them as the code has them:

- An error can come back after a gateway was tried. When the primary call
  errs and the secondary name is not registered, the call returns
  "secondary provider not supported" and persists nothing (`Run`'s ensures,
  `UnknownSecondaryScenario`).
- An audit entity can reach a terminal status twice. Terminal calls do not
  check the previous status, so a later `LogSuccess` overwrites an earlier
  `LogError` (`FailThenSucceed`).
- The secondary fields are not cleared when the primary succeeds. One
  tracker entity is reused by every call and its fields are never reset. The
  model states only that such a call does not write them: they keep their
  values from before the call.

## Model

| member | source | states |
|---|---|---|
| `Sms.Run` | service/component/sms/sender.go:27-69 | The error is "primary provider not supported" exactly when the primary name is unregistered. It is "secondary provider not supported" exactly when the primary errs and the secondary name is unregistered. Exactly one row, the final tracker, is persisted exactly when nil is returned. There are at most two gateway calls. An unknown primary causes no call and no render, and leaves the tracker as it was. A known primary gets the rendered text, the tracker's To, Type, Text, FromPrimaryGateway and SentAt, and then the first call. If the primary succeeds, its status wins, there is one call, and no error field or secondary field is written. A primary error is recorded as text. If the secondary is missing, no status is set. If the secondary is present, it is called exactly once, FromSecondaryGateway is set, its error is recorded, and its status wins even when it errs. |
| `Sms.Sender.Dispatch` | service/component/sms/sender.go:27-69 | The generic operation does exactly what `Run` describes. That covers the returned error, the payload text, the tracker, the persisted rows and the gateway calls. |
| `Sms.Sender.Deliver` | service/component/sms/sender.go:45-69 | From the primary call on, the returned error, the tracker, the persisted rows and the calls are as `Attempt` gives them for the tracker as it was filled. |
| `Sms.Attempt` | service/component/sms/sender.go:45-69 | After the primary lookup succeeded: the error is "secondary provider not supported" exactly when the primary errs and the secondary name is unregistered, and there is no error otherwise. The final tracker is persisted once exactly when there is no error. The text is not changed. The primary is called first with the number and text, and at most one call follows. Only the primary error, secondary gateway, secondary error and status fields of the filled tracker can change. If the primary succeeds, its status wins and it is the only call. If it errs, its error is recorded; a registered secondary is called once, is recorded as the secondary gateway, has its error recorded and its status wins. |
| `Sms.TrackerTypeOf` | service/component/sms/sender.go:40 | The tracker type is SMS exactly for OTP by SMS, verification by SMS and code verification, and Callout exactly for OTP by callout, verification by callout and the plain message. |
| `Time.Clock.Now` | service/component/sms/sender.go:43 | Reading the clock returns its current reading and changes nothing. |
| `Sms.RenderText` | service/component/sms/sender.go:36-41 | An OTP's code is overwritten in place with `Sprintf(template, old code)`, and that is the text used. A plain message's text is used unchanged. |
| `Sms.Tracker.Begin` | service/component/sms/sender.go:38-43 | Sets To, Type, Text, FromPrimaryGateway and SentAt, and no other tracker field. |
| `Sms.Sender.CallGateway` | service/component/sms/sender.go:46-60 | A gateway call is logged once, with the gateway, the operation and what it was handed, and returns that gateway's answer. |
| `Sms.Sender.constructor` | service/component/sms/sender.go:21-25 | A sender holds a clock, the gateway registry and one shared tracker entity, and has made no calls. |
| `Sms.Sender.SendOTPSMS` | service/component/sms/sender.go:27-70 | Behaves as `Run` for the OTP-SMS kind. With a known primary, the tracker type is SMS and the code is rendered. |
| `Sms.Sender.SendOTPCallout` | service/component/sms/sender.go:72-115 | Behaves as `Run` for the OTP-callout kind. With a known primary, the tracker type is Callout and the code is rendered. |
| `Sms.Sender.SendMessage` | service/component/sms/sender.go:117-158 | Behaves as `Run` for a plain message, with no rendering. With a known primary, the tracker type is Callout and the tracker text is the message text. |
| `Sms.Sender.SendVerificationSMS` | service/component/sms/sender.go:160-203 | Behaves as `Run` for the verification-SMS kind. With a known primary, the tracker type is SMS and the code is rendered. |
| `Sms.Sender.SendVerificationCallout` | service/component/sms/sender.go:205-248 | Behaves as `Run` for the verification-callout kind. With a known primary, the tracker type is Callout and the code is rendered. |
| `Sms.Sender.VerifyCode` | service/component/sms/sender.go:250-294 | Behaves as `Run` for the code-verification kind. With a known primary, the tracker type is SMS and the code is rendered. |
| `Sms.TimeoutFallbackScenario` | service/component/sms/sender.go:27-69 | Template "Your code is %s", code "1234", the primary errs with "timeout" and the secondary answers "sent". The code becomes "Your code is 1234" and nil is returned. One row is persisted, with that text, both gateway names, primary error "timeout", no secondary error and status "sent". |
| `Sms.UnknownPrimaryScenario` | service/component/sms/sender.go:76-79 | With an unregistered primary name, the error text is "primary provider not supported". No gateway is called, nothing is persisted and the OTP code is not rendered. |
| `Sms.UnknownSecondaryScenario` | service/component/sms/sender.go:133-144 | The primary errs and the secondary name is unregistered. The error text is "secondary provider not supported" and nothing is persisted, though the primary error was already written to the tracker. |
| `Fmt.SprintfOneVerb` | service/component/sms/sender.go:36 | A template whose only verb is one `%s` renders as the template with the code in its place. |
| `Fmt.Sprintf` | service/component/sms/sender.go:36 | A template with no verb keeps its text and gets `%!(EXTRA string=<code>)` appended. |
| `Fmt.Format` | service/component/sms/sender.go:36 | Text without a percent sign is copied unchanged, followed by `%!(EXTRA string=<code>)` exactly when the operand has not been used. |
| `Fmt.SprintfTwoVerbs` | service/component/sms/sender.go:36 | In a template with two `%s`, the first takes the code and the second renders as `%!s(MISSING)`. |
| `Persistence.Store.Persist` | service/component/sms/sender.go:67-68 | One persist appends exactly one snapshot and changes nothing else in the store. It stands for the tracker write here and for the three `Flush` calls of service/component/api_logger/mysql.go (lines 33, 48 and 61). |
| `ApiLogger.MysqlLogger.constructor` | service/component/api_logger/mysql.go:15-17 | The logger keeps the template entity and has no current entity, so `Valid` holds. |
| `ApiLogger.LogEntity.constructor` | service/component/api_logger/mysql.go:25 | A newly made entity of a given type has every field at its zero value, id 0 included. |
| `ApiLogger.MysqlLogger.LogStart` | service/component/api_logger/mysql.go:19-36 | The template becomes current when its id is 0. Otherwise a fresh entity of the same type becomes current and the template is unchanged. The current entity gets the type, the request, status "new" and the creation instant; its other fields are as they were. It is flushed exactly once, and `Valid` holds afterwards. |
| `ApiLogger.MysqlLogger.LogError` | service/component/api_logger/mysql.go:38-49 | With no current entity, the call panics with "log is not created" and flushes nothing. Otherwise it sets the message, the response and status "failed", and no other field, then flushes once. The current entity never changes, and `Valid` is kept. |
| `ApiLogger.MysqlLogger.LogSuccess` | service/component/api_logger/mysql.go:51-62 | With no current entity, the call panics with "log is not created" and flushes nothing. Otherwise it sets status "completed" and the response, leaves the message as it was, and flushes once. The current entity never changes, and `Valid` is kept. |
| `ApiLogger.ErrorBeforeStart` | service/component/api_logger/mysql.go:38-41 | On a fresh logger, `LogError` panics with "log is not created" and nothing is written. |
| `ApiLogger.SuccessBeforeStart` | service/component/api_logger/mysql.go:51-54 | On a fresh logger, `LogSuccess` panics with "log is not created" and nothing is written. |
| `ApiLogger.StartThenSucceed` | service/component/api_logger/mysql.go:19-62 | Start then success writes two rows. The first is the blank entity with the type, request, status "new" and creation instant. The second is that row with status "completed" and the response. |
| `ApiLogger.FailThenSucceed` | service/component/api_logger/mysql.go:38-62 | A success after a failure overwrites "failed" with "completed". It keeps the failure's message, and the type, request and creation instant are unchanged. |
| `ApiLogger.SavedTemplateScenario` | service/component/api_logger/mysql.go:22-26 | A template with a non-zero id is left untouched. The row written belongs to a fresh entity of the same type, with id 0. |

## Left out

- clock/sysclock.go: it only wraps the wall clock, so it is not part of this
  model. The dispatcher's clock is an abstract `Clock` whose reading the
  caller sets. `LogStart`'s `time.Now()` is a parameter. `time.Time` is an
  integer instant, and the conversion to UTC is not modelled.
- The concrete gateways and network delivery: a gateway's `(status, error)`
  is an input, and an error is represented only by its `Error()` text.
- The payload handed to a gateway: in Go a gateway receives the `*OTP` or
  the `*Message` pointer and could change it, and the secondary would then
  see the primary's change. The model assumes that no gateway changes the
  payload, so both calls are handed the same text and an OTP's final code is
  the rendered text.
- beeorm's `Flush` and `NewSmsLog(...).Do()`: each write appends a snapshot
  to `Persistence.Store.rows`. The store's upsert by identity is not
  modelled.
- `LogStart`: the store assigns a database id on flush, and that is not
  modelled. After a `LogStart` that reused a template with id 0, the model's
  template still has id 0, so a second `LogStart` reuses it again. The real
  store would have given it an id, and a fresh entity would be taken.
- The entity setters (`SetTo`, `SetStatus`, …) belong to entity types that
  are not part of this model. Each setter is modelled as a plain field
  assignment.
- `reflect.New`: modelled as allocating a `LogEntity` with the template's
  `entityType` and zero-valued fields.
- `interface{}` request and response payloads are a type parameter `P`.
  `None` stands for a field that was never set.
- `Fmt.Sprintf`: flags, width, precision and argument indexes are not
  modelled. Neither are the verbs `%q`, `%x` and `%X`, which Go applies to
  strings; the model renders them in the wrong-type form `%!q(string=...)`.
- The `ISender` and `IAPILogger` interfaces: each is modelled by its one
  concrete class.
- Concurrency on the shared tracker entity and on `currentLog`: every
  operation is modelled as running alone.
- `Run`: it does not state that the secondary name is not *looked up* when
  the primary succeeds, because a map lookup has no observable effect. It
  states that the secondary is not called and that none of its fields are
  written.
