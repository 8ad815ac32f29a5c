/**
 * The two-tier SMS and voice-call dispatcher. Every operation looks the
 * primary gateway up by name; an OTP operation then renders its template
 * into the code, while a plain message keeps its text. It fills the shared
 * tracker entity, calls the primary gateway and, when that call errs, looks
 * the secondary gateway up and calls it once. It then sets the status from
 * the last call, persists the tracker once and returns nil, unless the
 * secondary was needed and is unregistered: that returns an error and
 * persists nothing. A missing gateway name is the only error the caller sees.
 */
module Sms {
  import opened Wrappers
  import opened Time
  import Fmt
  import Persistence

  /** Which of the six dispatch operations is running. */
  datatype Kind =
    | OtpSms
    | OtpCallout
    | PlainMessage
    | VerificationSms
    | VerificationCallout
    | CodeVerification

  /** The tracker's message type tag. */
  datatype TrackerType = SmsType | CalloutType

  /** The type tag each operation writes. A plain message is tagged as a callout. */
  function TrackerTypeOf(kind: Kind): (t: TrackerType)
    ensures t == SmsType <==> kind == OtpSms || kind == VerificationSms || kind == CodeVerification
    ensures t == CalloutType <==> kind == OtpCallout || kind == VerificationCallout || kind == PlainMessage
  {
    match kind
    case OtpSms => SmsType
    case OtpCallout => CalloutType
    case PlainMessage => CalloutType
    case VerificationSms => SmsType
    case VerificationCallout => CalloutType
    case CodeVerification => SmsType
  }

  /** Every operation except the plain message renders its template. */
  predicate Renders(kind: Kind) {
    kind != PlainMessage
  }

  /** The two errors the dispatcher returns to its caller. */
  datatype SendError = PrimaryNotSupported | SecondaryNotSupported {
    function Text(): string {
      match this
      case PrimaryNotSupported => "primary provider not supported"
      case SecondaryNotSupported => "secondary provider not supported"
    }
  }

  /** The primary and secondary gateway names a payload asks for. */
  datatype Provider = Provider(primary: string, secondary: string)

  /** A concrete gateway client in the registry, identified by name. */
  datatype Gateway = Gateway(client: string)

  /** What a gateway call returned: a delivery status and, maybe, an error's text. */
  datatype Answer = Answer(status: string, err: Option<string>)

  /** One call made to a gateway, and what that gateway was handed. */
  datatype GatewayCall = GatewayCall(gateway: Gateway, kind: Kind, number: string, text: string)

  /** A snapshot of the tracker entity. */
  datatype TrackerRow = TrackerRow(
    to: string,
    trackerType: TrackerType,
    text: string,
    fromPrimaryGateway: string,
    primaryGatewayError: string,
    fromSecondaryGateway: string,
    secondaryGatewayError: string,
    status: string,
    sentAt: Instant)

  /** A plain message; the dispatcher never changes it. */
  datatype Message = Message(number: string, text: string, provider: Provider)

  /** A one-time-password payload; `code` is rendered into the template in place. */
  class Otp {
    var code: string
    const number: string
    const template: string
    const provider: Provider

    constructor (code: string, number: string, template: string, provider: Provider)
      ensures this.code == code && this.number == number
      ensures this.template == template && this.provider == provider
    {
      this.code := code;
      this.number := number;
      this.template := template;
      this.provider := provider;
    }
  }

  /** The payload of one dispatch. */
  datatype Request = OtpRequest(otp: Otp) | MessageRequest(message: Message) {
    function Number(): string {
      if OtpRequest? then otp.number else message.number
    }

    function ProviderOf(): Provider {
      if OtpRequest? then otp.provider else message.provider
    }

    function Template(): string {
      if OtpRequest? then otp.template else ""
    }

    /** The payload's text: the OTP code, or the message text. */
    function Content(): string
      reads Footprint()
    {
      if OtpRequest? then otp.code else message.text
    }

    /** The objects a dispatch may change in the payload. */
    function Footprint(): set<Otp> {
      if OtpRequest? then {otp} else {}
    }
  }

  /** Renders an OTP's template with its code, in place; a plain message keeps its text. */
  method RenderText(request: Request) returns (text: string)
    modifies request.Footprint()
    ensures text == request.Content()
    ensures text == if request.OtpRequest? then Fmt.Sprintf(request.Template(), old(request.Content()))
                    else old(request.Content())
  {
    if request.OtpRequest? {
      request.otp.code := Fmt.Sprintf(request.otp.template, request.otp.code);
      text := request.otp.code;
    } else {
      text := request.message.text;
    }
  }

  /** The tracker entity, updated field by field and persisted as a snapshot. */
  class Tracker {
    var to: string
    var trackerType: TrackerType
    var text: string
    var fromPrimaryGateway: string
    var primaryGatewayError: string
    var fromSecondaryGateway: string
    var secondaryGatewayError: string
    var status: string
    var sentAt: Instant

    constructor ()
      ensures Row() == TrackerRow("", SmsType, "", "", "", "", "", "", 0)
    {
      to, trackerType, text := "", SmsType, "";
      fromPrimaryGateway, primaryGatewayError := "", "";
      fromSecondaryGateway, secondaryGatewayError := "", "";
      status, sentAt := "", 0;
    }

    /** The fields every operation sets before it calls the primary gateway. */
    method Begin(number: string, trackerType: TrackerType, text: string, primary: string, now: Instant)
      modifies this
      ensures Row() == old(Row()).(to := number, trackerType := trackerType, text := text,
                                   fromPrimaryGateway := primary, sentAt := now)
    {
      to, this.trackerType, this.text := number, trackerType, text;
      fromPrimaryGateway, sentAt := primary, now;
    }

    function Row(): TrackerRow
      reads this
    {
      TrackerRow(to, trackerType, text, fromPrimaryGateway, primaryGatewayError,
                 fromSecondaryGateway, secondaryGatewayError, status, sentAt)
    }
  }

  /** Everything one dispatch produces. */
  datatype Effect = Effect(
    err: Option<SendError>,        // the returned error, None for nil
    payloadText: string,           // the payload's text afterwards
    row: TrackerRow,               // the tracker entity afterwards
    calls: seq<GatewayCall>,       // the gateway calls made, in order
    persisted: seq<TrackerRow>)    // the tracker snapshots persisted

  /**
   * The effect of one dispatch of `kind` on a payload with the given
   * number, provider pair, text and template, starting from tracker state
   * `before`, with the clock at `now` and the gateways answering
   * `primaryAnswer` and `secondaryAnswer`.
   */
  function Run(registry: map<string, Gateway>, kind: Kind, number: string, provider: Provider,
               content: string, template: string, before: TrackerRow, now: Instant,
               primaryAnswer: Answer, secondaryAnswer: Answer): (e: Effect)
    // the two configuration errors, and when each is returned
    ensures e.err == Some(PrimaryNotSupported) <==> provider.primary !in registry
    ensures e.err == Some(SecondaryNotSupported) <==>
              provider.primary in registry && primaryAnswer.err.Some? && provider.secondary !in registry
    // one persist of the final tracker exactly when nil is returned
    ensures e.persisted == if e.err.None? then [e.row] else []
    ensures |e.calls| <= 2
    // an unknown primary: no call, no render, the tracker untouched
    ensures provider.primary !in registry ==>
              e.calls == [] && e.payloadText == content && e.row == before
    // a known primary: render, then fill the tracker, then call the primary
    ensures provider.primary in registry ==>
              && e.payloadText == (if Renders(kind) then Fmt.Sprintf(template, content) else content)
              && e.row.to == number
              && e.row.trackerType == TrackerTypeOf(kind)
              && e.row.text == e.payloadText
              && e.row.fromPrimaryGateway == provider.primary
              && e.row.sentAt == now
              && 1 <= |e.calls|
              && e.calls[0] == GatewayCall(registry[provider.primary], kind, number, e.payloadText)
    // the primary succeeds: its status wins, the secondary is not touched
    ensures provider.primary in registry && primaryAnswer.err.None? ==>
              && e.err == None
              && |e.calls| == 1
              && e.row.status == primaryAnswer.status
              && e.row.primaryGatewayError == before.primaryGatewayError
              && e.row.fromSecondaryGateway == before.fromSecondaryGateway
              && e.row.secondaryGatewayError == before.secondaryGatewayError
    // the primary errs: its error text is recorded
    ensures provider.primary in registry && primaryAnswer.err.Some? ==>
              e.row.primaryGatewayError == primaryAnswer.err.value
    // ... and the secondary is unknown: only the primary was called, no status is set
    ensures provider.primary in registry && primaryAnswer.err.Some? && provider.secondary !in registry ==>
              && |e.calls| == 1
              && e.row.status == before.status
              && e.row.fromSecondaryGateway == before.fromSecondaryGateway
              && e.row.secondaryGatewayError == before.secondaryGatewayError
    // ... and the secondary is known: it is called once and its status wins
    ensures provider.primary in registry && primaryAnswer.err.Some? && provider.secondary in registry ==>
              && e.err == None
              && |e.calls| == 2
              && e.calls[1] == GatewayCall(registry[provider.secondary], kind, number, e.payloadText)
              && e.row.fromSecondaryGateway == provider.secondary
              && e.row.status == secondaryAnswer.status
              && e.row.secondaryGatewayError ==
                   (if secondaryAnswer.err.Some? then secondaryAnswer.err.value else before.secondaryGatewayError)
  {
    if provider.primary !in registry then
      Effect(Some(PrimaryNotSupported), content, before, [], [])
    else
      var text := if Renders(kind) then Fmt.Sprintf(template, content) else content;
      var filled := before.(to := number, trackerType := TrackerTypeOf(kind), text := text,
                            fromPrimaryGateway := provider.primary, sentAt := now);
      Attempt(registry, kind, number, provider, text, filled, primaryAnswer, secondaryAnswer)
  }

  /**
   * The part of `Run` from the primary call on, for a known primary and a
   * tracker already filled in as `filled`.
   */
  function Attempt(registry: map<string, Gateway>, kind: Kind, number: string, provider: Provider,
                   text: string, filled: TrackerRow, primaryAnswer: Answer, secondaryAnswer: Answer): (e: Effect)
    requires provider.primary in registry
    // the only error left is an unknown secondary after a primary error
    ensures e.err == if primaryAnswer.err.Some? && provider.secondary !in registry
                     then Some(SecondaryNotSupported) else None
    // one persist of the final tracker exactly when nil is returned
    ensures e.persisted == if e.err.None? then [e.row] else []
    ensures e.payloadText == text
    // the primary is called first, and at most one more call follows
    ensures 1 <= |e.calls| <= 2
    ensures e.calls[0] == GatewayCall(registry[provider.primary], kind, number, text)
    // only the error, secondary and status fields can change
    ensures e.row.(primaryGatewayError := filled.primaryGatewayError,
                   fromSecondaryGateway := filled.fromSecondaryGateway,
                   secondaryGatewayError := filled.secondaryGatewayError,
                   status := filled.status) == filled
    // the primary succeeds: its status wins and nothing else is written
    ensures primaryAnswer.err.None? ==>
              && |e.calls| == 1
              && e.row.status == primaryAnswer.status
              && e.row.primaryGatewayError == filled.primaryGatewayError
              && e.row.fromSecondaryGateway == filled.fromSecondaryGateway
              && e.row.secondaryGatewayError == filled.secondaryGatewayError
    // the primary errs: its error text is recorded
    ensures primaryAnswer.err.Some? ==> e.row.primaryGatewayError == primaryAnswer.err.value
    // ... and the secondary is unknown: no second call, no status
    ensures primaryAnswer.err.Some? && provider.secondary !in registry ==>
              && |e.calls| == 1
              && e.row.status == filled.status
              && e.row.fromSecondaryGateway == filled.fromSecondaryGateway
              && e.row.secondaryGatewayError == filled.secondaryGatewayError
    // ... and the secondary is known: it is called once and its status wins
    ensures primaryAnswer.err.Some? && provider.secondary in registry ==>
              && |e.calls| == 2
              && e.calls[1] == GatewayCall(registry[provider.secondary], kind, number, text)
              && e.row.fromSecondaryGateway == provider.secondary
              && e.row.status == secondaryAnswer.status
              && e.row.secondaryGatewayError ==
                   (if secondaryAnswer.err.Some? then secondaryAnswer.err.value else filled.secondaryGatewayError)
  {
    var primaryCall := GatewayCall(registry[provider.primary], kind, number, text);
    if primaryAnswer.err.None? then
      var done := filled.(status := primaryAnswer.status);
      Effect(None, text, done, [primaryCall], [done])
    else
      var failed := filled.(primaryGatewayError := primaryAnswer.err.value);
      if provider.secondary !in registry then
        Effect(Some(SecondaryNotSupported), text, failed, [primaryCall], [])
      else
        var secondaryCall := GatewayCall(registry[provider.secondary], kind, number, text);
        var tried := failed.(fromSecondaryGateway := provider.secondary);
        var noted := if secondaryAnswer.err.Some? then tried.(secondaryGatewayError := secondaryAnswer.err.value) else tried;
        var done := noted.(status := secondaryAnswer.status);
        Effect(None, text, done, [primaryCall, secondaryCall], [done])
  }

  /** The dispatcher: a clock, a gateway registry and one tracker entity reused by every call. */
  class Sender {
    const clock: Clock
    const gatewayFactory: map<string, Gateway>
    const logger: Tracker
    /** Every gateway call made so far, oldest first. */
    ghost var calls: seq<GatewayCall>

    constructor (clock: Clock, gatewayFactory: map<string, Gateway>, logger: Tracker)
      ensures this.clock == clock && this.gatewayFactory == gatewayFactory && this.logger == logger
      ensures calls == []
    {
      this.clock := clock;
      this.gatewayFactory := gatewayFactory;
      this.logger := logger;
      calls := [];
    }

    /** The dispatch of `kind` on `request` did what `Run` describes. */
    twostate predicate Performed(orm: Persistence.Store<TrackerRow>, kind: Kind, request: Request,
                                 primaryAnswer: Answer, secondaryAnswer: Answer, new err: Option<SendError>)
      reads this, logger, orm, clock, request.Footprint()
    {
      var e := Run(gatewayFactory, kind, request.Number(), request.ProviderOf(),
                   old(request.Content()), request.Template(), old(logger.Row()), old(clock.reading),
                   primaryAnswer, secondaryAnswer);
      && err == e.err
      && request.Content() == e.payloadText
      && logger.Row() == e.row
      && orm.rows == old(orm.rows) + e.persisted
      && calls == old(calls) + e.calls
    }

    /** Calls `gateway`, which answers `answer`. */
    method CallGateway(gateway: Gateway, kind: Kind, number: string, text: string, answer: Answer)
      returns (status: string, err: Option<string>)
      modifies this`calls
      ensures calls == old(calls) + [GatewayCall(gateway, kind, number, text)]
      ensures status == answer.status && err == answer.err
    {
      calls := calls + [GatewayCall(gateway, kind, number, text)];
      status, err := answer.status, answer.err;
    }

    /** The shape all six operations share. */
    method Dispatch(orm: Persistence.Store<TrackerRow>, kind: Kind, request: Request,
                    primaryAnswer: Answer, secondaryAnswer: Answer)
      returns (err: Option<SendError>)
      requires request.MessageRequest? <==> kind == PlainMessage
      modifies this`calls, logger, orm, request.Footprint()
      ensures Performed(orm, kind, request, primaryAnswer, secondaryAnswer, err)
    {
      var provider := request.ProviderOf();
      if provider.primary !in gatewayFactory {
        return Some(PrimaryNotSupported);
      }
      var text := RenderText(request);
      var now := clock.Now();
      logger.Begin(request.Number(), TrackerTypeOf(kind), text, provider.primary, now);
      err := Deliver(orm, kind, request.Number(), provider, text, primaryAnswer, secondaryAnswer);
    }

    /** From the primary call on: the fallback, the final status and the one persist. */
    method Deliver(orm: Persistence.Store<TrackerRow>, kind: Kind, number: string, provider: Provider,
                   text: string, primaryAnswer: Answer, secondaryAnswer: Answer)
      returns (err: Option<SendError>)
      requires provider.primary in gatewayFactory
      modifies this`calls, logger, orm
      ensures var e := Attempt(gatewayFactory, kind, number, provider, text, old(logger.Row()),
                               primaryAnswer, secondaryAnswer);
              && err == e.err
              && logger.Row() == e.row
              && orm.rows == old(orm.rows) + e.persisted
              && calls == old(calls) + e.calls
    {
      ghost var filled := logger.Row();
      var primaryGateway := gatewayFactory[provider.primary];
      var trySecondaryProvider := false;
      var status, gatewayErr := CallGateway(primaryGateway, kind, number, text, primaryAnswer);
      if gatewayErr.Some? {
        trySecondaryProvider := true;
        logger.primaryGatewayError := gatewayErr.value;
      }

      if trySecondaryProvider {
        assert logger.Row() == filled.(primaryGatewayError := primaryAnswer.err.value);
        if provider.secondary !in gatewayFactory {
          return Some(SecondaryNotSupported);
        }
        var secondaryGateway := gatewayFactory[provider.secondary];
        logger.fromSecondaryGateway := provider.secondary;
        status, gatewayErr := CallGateway(secondaryGateway, kind, number, text, secondaryAnswer);
        if gatewayErr.Some? {
          logger.secondaryGatewayError := gatewayErr.value;
        }
      }

      logger.status := status;
      orm.Persist(logger.Row());
      return None;
    }

    method SendOTPSMS(orm: Persistence.Store<TrackerRow>, otp: Otp, primaryAnswer: Answer, secondaryAnswer: Answer)
      returns (err: Option<SendError>)
      modifies this`calls, logger, orm, otp
      ensures Performed(orm, OtpSms, OtpRequest(otp), primaryAnswer, secondaryAnswer, err)
      ensures otp.provider.primary in gatewayFactory ==>
                logger.trackerType == SmsType && otp.code == Fmt.Sprintf(otp.template, old(otp.code))
    {
      err := Dispatch(orm, OtpSms, OtpRequest(otp), primaryAnswer, secondaryAnswer);
    }

    method SendOTPCallout(orm: Persistence.Store<TrackerRow>, otp: Otp, primaryAnswer: Answer, secondaryAnswer: Answer)
      returns (err: Option<SendError>)
      modifies this`calls, logger, orm, otp
      ensures Performed(orm, OtpCallout, OtpRequest(otp), primaryAnswer, secondaryAnswer, err)
      ensures otp.provider.primary in gatewayFactory ==>
                logger.trackerType == CalloutType && otp.code == Fmt.Sprintf(otp.template, old(otp.code))
    {
      err := Dispatch(orm, OtpCallout, OtpRequest(otp), primaryAnswer, secondaryAnswer);
    }

    method SendMessage(orm: Persistence.Store<TrackerRow>, message: Message, primaryAnswer: Answer, secondaryAnswer: Answer)
      returns (err: Option<SendError>)
      modifies this`calls, logger, orm
      ensures Performed(orm, PlainMessage, MessageRequest(message), primaryAnswer, secondaryAnswer, err)
      ensures message.provider.primary in gatewayFactory ==>
                logger.trackerType == CalloutType && logger.text == message.text
    {
      err := Dispatch(orm, PlainMessage, MessageRequest(message), primaryAnswer, secondaryAnswer);
    }

    method SendVerificationSMS(orm: Persistence.Store<TrackerRow>, otp: Otp, primaryAnswer: Answer, secondaryAnswer: Answer)
      returns (err: Option<SendError>)
      modifies this`calls, logger, orm, otp
      ensures Performed(orm, VerificationSms, OtpRequest(otp), primaryAnswer, secondaryAnswer, err)
      ensures otp.provider.primary in gatewayFactory ==>
                logger.trackerType == SmsType && otp.code == Fmt.Sprintf(otp.template, old(otp.code))
    {
      err := Dispatch(orm, VerificationSms, OtpRequest(otp), primaryAnswer, secondaryAnswer);
    }

    method SendVerificationCallout(orm: Persistence.Store<TrackerRow>, otp: Otp, primaryAnswer: Answer, secondaryAnswer: Answer)
      returns (err: Option<SendError>)
      modifies this`calls, logger, orm, otp
      ensures Performed(orm, VerificationCallout, OtpRequest(otp), primaryAnswer, secondaryAnswer, err)
      ensures otp.provider.primary in gatewayFactory ==>
                logger.trackerType == CalloutType && otp.code == Fmt.Sprintf(otp.template, old(otp.code))
    {
      err := Dispatch(orm, VerificationCallout, OtpRequest(otp), primaryAnswer, secondaryAnswer);
    }

    method VerifyCode(orm: Persistence.Store<TrackerRow>, otp: Otp, primaryAnswer: Answer, secondaryAnswer: Answer)
      returns (err: Option<SendError>)
      modifies this`calls, logger, orm, otp
      ensures Performed(orm, CodeVerification, OtpRequest(otp), primaryAnswer, secondaryAnswer, err)
      ensures otp.provider.primary in gatewayFactory ==>
                logger.trackerType == SmsType && otp.code == Fmt.Sprintf(otp.template, old(otp.code))
    {
      err := Dispatch(orm, CodeVerification, OtpRequest(otp), primaryAnswer, secondaryAnswer);
    }
  }

  /**
   * An OTP with template "Your code is %s" and code "1234"; the primary
   * gateway errs with "timeout" and the secondary answers "sent". The one
   * persisted row records both gateways and the secondary's status.
   */
  method TimeoutFallbackScenario() returns (err: Option<SendError>, rows: seq<TrackerRow>, code: string)
    ensures err == None
    ensures code == "Your code is 1234"
    ensures |rows| == 1
    ensures rows[0].text == "Your code is 1234"
    ensures rows[0].fromPrimaryGateway == "main" && rows[0].primaryGatewayError == "timeout"
    ensures rows[0].fromSecondaryGateway == "backup" && rows[0].secondaryGatewayError == ""
    ensures rows[0].status == "sent" && rows[0].trackerType == SmsType
  {
    var clock := new Clock(0);
    var tracker := new Tracker();
    var sender := new Sender(clock, map["main" := Gateway("carrier-a"), "backup" := Gateway("carrier-b")], tracker);
    var orm := new Persistence.Store<TrackerRow>();
    var otp := new Otp("1234", "+10000000000", "Your code is %s", Provider("main", "backup"));
    assert "Your code is %s" == "Your code is " + "%s" + "";
    Fmt.SprintfOneVerb("Your code is ", "", "1234");
    assert "Your code is " + "1234" + "" == "Your code is 1234";
    err := sender.SendOTPSMS(orm, otp, Answer("failed", Some("timeout")), Answer("sent", None));
    assert otp.code == "Your code is 1234";
    rows := orm.rows;
    code := otp.code;
  }

  /** An unknown primary name: an error, no gateway call, nothing persisted, the code not rendered. */
  method UnknownPrimaryScenario(code: string, template: string)
    returns (err: Option<SendError>, rows: seq<TrackerRow>, after: string, ghost calls: seq<GatewayCall>)
    ensures err == Some(PrimaryNotSupported) && err.value.Text() == "primary provider not supported"
    ensures rows == [] && after == code && calls == []
  {
    var clock := new Clock(0);
    var tracker := new Tracker();
    var sender := new Sender(clock, map["main" := Gateway("carrier-a")], tracker);
    var orm := new Persistence.Store<TrackerRow>();
    var otp := new Otp(code, "+10000000000", template, Provider("other", "main"));
    err := sender.SendOTPCallout(orm, otp, Answer("sent", None), Answer("sent", None));
    rows := orm.rows;
    after := otp.code;
    calls := sender.calls;
  }

  /** The primary errs and the secondary name is unknown: an error after a gateway call, nothing persisted. */
  method UnknownSecondaryScenario(text: string) returns (err: Option<SendError>, rows: seq<TrackerRow>, primaryError: string)
    ensures err == Some(SecondaryNotSupported) && err.value.Text() == "secondary provider not supported"
    ensures rows == [] && primaryError == "rejected"
  {
    var clock := new Clock(0);
    var tracker := new Tracker();
    var sender := new Sender(clock, map["main" := Gateway("carrier-a")], tracker);
    var orm := new Persistence.Store<TrackerRow>();
    err := sender.SendMessage(orm, Message("+10000000000", text, Provider("main", "other")),
                              Answer("failed", Some("rejected")), Answer("sent", None));
    rows := orm.rows;
    primaryError := tracker.primaryGatewayError;
  }
}
