/** The send-email tool's invocation: the API-key check, resolution of the
    sender and reply-to addresses against their defaults, assembly of the
    provider request, and interpretation of the provider's response.
 */
module SendEmail {
  import opened Wrappers
  import opened Js
  import opened Config
  import opened SendSchema

  /** The request handed to the provider. `from` and `replyTo` are always
      set; the four optional keys are `None` when the request object lacks them. */
  datatype Request = Request(
    to: string,
    subject: string,
    text: string,
    from: string,
    replyTo: seq<string>,
    html: Option<string>,
    scheduledAt: Option<string>,
    cc: Option<seq<string>>,
    bcc: Option<seq<string>>)

  /** The keys present on a request object. */
  function Keys(req: Request): set<FieldName> {
    {To, Subject, Text, From, ReplyTo}
    + (if req.html.Some? then {Html} else {})
    + (if req.scheduledAt.Some? then {ScheduledAt} else {})
    + (if req.cc.Some? then {Cc} else {})
    + (if req.bcc.Some? then {Bcc} else {})
  }

  /** The errors the tool throws. */
  datatype SendError =
    | MissingApiKey
    | MissingFrom
    | MissingReplyTo
    | ProviderError(details: string)

  const ProviderErrorPrefix := "Email failed to send: "
  const SuccessPrefix := "Email sent successfully! "

  /** The message of the thrown error. */
  function Message(e: SendError): string {
    match e
    case MissingApiKey => "Resend API key not configured. " + "Please set RESEND_API_KEY environment variable."
    case MissingFrom => "from argument must be provided."
    case MissingReplyTo => "replyTo argument must be provided."
    case ProviderError(details) => ProviderErrorPrefix + details
  }

  /** The first character of each message, which tells the kinds apart. */
  function Initial(e: SendError): char {
    match e
    case MissingApiKey => 'R'
    case MissingFrom => 'f'
    case MissingReplyTo => 'r'
    case ProviderError(_) => 'E'
  }

  lemma MessageStartsWithInitial(e: SendError)
    ensures |Message(e)| > 0 && Message(e)[0] == Initial(e)
  {
    match e
    case ProviderError(d) =>
      assert ProviderErrorPrefix[0] == 'E';
      assert Message(e)[0] == ProviderErrorPrefix[0];
    case MissingApiKey =>
      assert Message(e)[0] == "Resend API key not configured. "[0] == 'R';
    case MissingFrom =>
      assert Message(e) == "from argument must be provided.";
    case MissingReplyTo =>
      assert Message(e) == "replyTo argument must be provided.";
  }

  /** Distinct errors carry distinct messages, so a caller can tell them
      apart, and a provider error's details are recoverable from its message. */
  lemma MessageInjective(e1: SendError, e2: SendError)
    requires Message(e1) == Message(e2)
    ensures e1 == e2
  {
    var m := Message(e1);
    if e1.ProviderError? && e2.ProviderError? {
      assert e1.details == m[|ProviderErrorPrefix|..] == e2.details;
    } else if e1 != e2 {
      MessageStartsWithInitial(e1);
      MessageStartsWithInitial(e2);
    }
  }

  /** The keys the optional parameters of a call contribute: `html` and
      `scheduledAt` only when non-empty, `cc` and `bcc` whenever supplied. */
  function SuppliedOptionalKeys(p: Params): set<FieldName> {
    (if Truthy(p.html) then {Html} else {})
    + (if Truthy(p.scheduledAt) then {ScheduledAt} else {})
    + (if p.cc.Some? then {Cc} else {})
    + (if p.bcc.Some? then {Bcc} else {})
  }

  /** The request a call produces, or the error it throws before reaching the
      provider. The steps follow the tool: the API-key check first, then the
      defaults, then the two type checks, then the fixed part of the request,
      then each optional field in turn. */
  function Prepare(cfg: Config, p: Params): (r: Result<Request, SendError>)
    ensures r == Failure(MissingApiKey) <==> !HasClient(cfg)
    ensures r == Failure(MissingFrom) <==> HasClient(cfg) && p.from.None? && cfg.sender.None?
    ensures r.Failure? ==> r.error == MissingApiKey || r.error == MissingFrom
    ensures r.Success? ==>
              && r.value.to == p.to && r.value.subject == p.subject && r.value.text == p.text
              && r.value.from == (if p.from.Some? then p.from.value else cfg.sender.value)
              && r.value.replyTo == p.replyTo.GetOr(ParseReplyTo(cfg.replyToEnv))
              && (r.value.html.Some? ==> r.value.html == p.html)
              && (r.value.scheduledAt.Some? ==> r.value.scheduledAt == p.scheduledAt)
              && r.value.cc == p.cc && r.value.bcc == p.bcc
              && Keys(r.value) == {To, Subject, Text, From, ReplyTo} + SuppliedOptionalKeys(p)
  {
    if !HasClient(cfg) then Failure(MissingApiKey)
    else
      var from := Coalesce(p.from, cfg.sender);
      var replyTo := Coalesce(p.replyTo, Some(ParseReplyTo(cfg.replyToEnv)));
      if from.None? then Failure(MissingFrom)
      else if replyTo.None? then Failure(MissingReplyTo)
      else
        var base := Request(p.to, p.subject, p.text, from.value, replyTo.value, None, None, None, None);
        var withHtml := if Truthy(p.html) then base.(html := p.html) else base;
        var withSchedule := if Truthy(p.scheduledAt) then withHtml.(scheduledAt := p.scheduledAt) else withHtml;
        var withCc := if p.cc.Some? then withSchedule.(cc := p.cc) else withSchedule;
        var withBcc := if p.bcc.Some? then withCc.(bcc := p.bcc) else withCc;
        Success(withBcc)
  }

  /** The reply-to type check never fires: the default is always a list. */
  lemma ReplyToCheckUnreachable(cfg: Config, p: Params)
    ensures Prepare(cfg, p) != Failure(MissingReplyTo)
  {
  }

  /** With a client, a call succeeds exactly when a sender can be resolved. */
  lemma PrepareSucceedsIff(cfg: Config, p: Params)
    ensures Prepare(cfg, p).Success? <==> HasClient(cfg) && (p.from.Some? || cfg.sender.Some?)
  {
  }

  /** A call that satisfies the advertised schema is never refused for a
      missing sender, and every address it contributes is valid. */
  lemma ConformingCallResolves(cfg: Config, p: Params, isEmail: string -> bool)
    requires HasClient(cfg)
    requires Conforms(BuildSchema(cfg), p, isEmail)
    ensures Prepare(cfg, p).Success?
    ensures var req := Prepare(cfg, p).value;
            && isEmail(req.to)
            && (req.cc.Some? ==> forall i :: 0 <= i < |req.cc.value| ==> isEmail(req.cc.value[i]))
            && (req.bcc.Some? ==> forall i :: 0 <= i < |req.bcc.value| ==> isEmail(req.bcc.value[i]))
            && (!Truthy(cfg.sender) ==> req.from != "" && isEmail(req.from))
            && (!Truthy(cfg.replyToEnv) ==> forall i :: 0 <= i < |req.replyTo| ==> isEmail(req.replyTo[i]))
  {
    ConformsGuarantees(cfg, p, isEmail);
    ParseReplyToEmptyIff(cfg.replyToEnv);
  }

  /** What the provider answers: data, and an error object when it refused. */
  datatype Response<J> = Response(data: J, error: Option<J>)

  datatype ContentItem = ContentItem(kind: string, text: string)

  /** The tool's successful result. */
  datatype ToolResult = ToolResult(content: seq<ContentItem>)

  /** Turns the provider's answer into the tool's outcome; `stringify` stands
      for `JSON.stringify`. */
  function Interpret<J>(resp: Response<J>, stringify: J -> string): (r: Result<ToolResult, SendError>)
    ensures r.Failure? <==> resp.error.Some?
    ensures r.Failure? ==>
              r.error.ProviderError? && r.error.details == stringify(resp.error.value)
              && ProviderErrorPrefix <= Message(r.error)
              && Message(r.error)[|ProviderErrorPrefix|..] == stringify(resp.error.value)
    ensures r.Success? ==>
              |r.value.content| == 1 && r.value.content[0].kind == "text"
              && SuccessPrefix <= r.value.content[0].text
              && r.value.content[0].text[|SuccessPrefix|..] == stringify(resp.data)
  {
    if resp.error.Some? then
      Failure(ProviderError(stringify(resp.error.value)))
    else
      Success(ToolResult([ContentItem("text", SuccessPrefix + stringify(resp.data))]))
  }

  /** The whole invocation; `send` stands for the provider call. */
  function Send<J>(cfg: Config, p: Params, send: Request -> Response<J>, stringify: J -> string)
    : (r: Result<ToolResult, SendError>)
    ensures !HasClient(cfg) ==> r == Failure(MissingApiKey)
    ensures Prepare(cfg, p).Failure? ==> r == Failure(Prepare(cfg, p).error)
    ensures r.Success? <==>
              Prepare(cfg, p).Success? && send(Prepare(cfg, p).value).error.None?
    ensures r.Success? ==>
              r.value.content == [ContentItem("text", SuccessPrefix + stringify(send(Prepare(cfg, p).value).data))]
    ensures r.Failure? && r.error.ProviderError? <==>
              Prepare(cfg, p).Success? && send(Prepare(cfg, p).value).error.Some?
    ensures r.Failure? && r.error.ProviderError? ==>
              r.error.details == stringify(send(Prepare(cfg, p).value).error.value)
  {
    var req :- Prepare(cfg, p);
    Interpret(send(req), stringify)
  }

  /** Without an API key every call fails identically, whatever its
      parameters, the provider's behaviour or the serializer: no request is
      built and the provider is never consulted. */
  lemma NoApiKeyFailsFirst<J>(
    cfg: Config,
    p1: Params, send1: Request -> Response<J>, stringify1: J -> string,
    p2: Params, send2: Request -> Response<J>, stringify2: J -> string)
    requires !HasClient(cfg)
    ensures Prepare(cfg, p1).Failure?
    ensures Send(cfg, p1, send1, stringify1) == Send(cfg, p2, send2, stringify2) == Failure(MissingApiKey)
  {
  }

  /** The provider is consulted with the prepared request and nothing else:
      two providers that agree on it give the same outcome. */
  lemma SendDependsOnlyOnPrepared<J>(
    cfg: Config, p: Params, send1: Request -> Response<J>, send2: Request -> Response<J>, stringify: J -> string)
    requires Prepare(cfg, p).Success? ==> send1(Prepare(cfg, p).value) == send2(Prepare(cfg, p).value)
    ensures Send(cfg, p, send1, stringify) == Send(cfg, p, send2, stringify)
  {
  }

  /** With a sender default and no reply-to default, a call giving only the
      recipient, subject and text is sent from the default with an empty
      reply-to list and no optional keys. */
  lemma DefaultSenderScenario()
    ensures
      var cfg := Config(Some("key"), Some("noreply@acme.com"), None);
      var p := Params("u@x.com", "Hi", "Hello", None, None, None, None, None, None);
      && Prepare(cfg, p) == Success(Request("u@x.com", "Hi", "Hello", "noreply@acme.com", [], None, None, None, None))
      && Keys(Prepare(cfg, p).value) == {To, Subject, Text, From, ReplyTo}
  {
  }

  /** A provider that answers with an error object makes the call fail, and
      the thrown message carries the serialized error. */
  lemma ProviderErrorScenario<J>(cfg: Config, p: Params, send: Request -> Response<J>, stringify: J -> string)
    requires Prepare(cfg, p).Success?
    requires send(Prepare(cfg, p).value).error.Some?
    ensures var r := Send(cfg, p, send, stringify);
            && r.Failure?
            && Message(r.error) == ProviderErrorPrefix + stringify(send(Prepare(cfg, p).value).error.value)
  {
  }
}
