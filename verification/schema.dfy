/** The parameter schema of the send-email tool and the parameters a caller
    passes: which fields the host must demand, which it may accept, and what
    it means for a call to satisfy that schema.
 */
module SendSchema {
  import opened Wrappers
  import opened Js
  import opened Config

  /** The names of the fields the tool can take. */
  datatype FieldName = To | Subject | Text | Html | Cc | Bcc | ScheduledAt | From | ReplyTo

  /** What a field holds: any string, one email address, or a list of them. */
  datatype FieldType = AnyString | Email | EmailList

  /** One schema entry: its type, whether the host must demand it, and
      whether the empty string is refused. */
  datatype Field = Field(ty: FieldType, required: bool, nonEmpty: bool)

  type Schema = map<FieldName, Field>

  /** The fields every configuration offers. */
  const FixedFields: set<FieldName> := {To, Subject, Text, Html, Cc, Bcc, ScheduledAt}

  /** The declaration of each field, as the tool writes it. */
  function Declaration(name: FieldName): Field {
    match name
    case To => Field(Email, true, false)
    case Subject => Field(AnyString, true, false)
    case Text => Field(AnyString, true, false)
    case Html => Field(AnyString, false, false)
    case Cc => Field(EmailList, false, false)
    case Bcc => Field(EmailList, false, false)
    case ScheduledAt => Field(AnyString, false, false)
    case From => Field(Email, true, true)
    case ReplyTo => Field(EmailList, false, false)
  }

  /** The names of the fields a caller must supply. */
  function RequiredFields(s: Schema): set<FieldName> {
    set name | name in s && s[name].required
  }

  /** The schema advertised for a configuration: the fixed fields, plus a
      required `from` when no sender default is configured, plus an optional
      `replyTo` when the reply-to default list is empty. */
  function BuildSchema(cfg: Config): (s: Schema)
    ensures FixedFields <= s.Keys <= FixedFields + {From, ReplyTo}
    ensures RequiredFields(s) == {To, Subject, Text} + (if Truthy(cfg.sender) then {} else {From})
    ensures s[To].ty == Email && s[Cc].ty == EmailList && s[Bcc].ty == EmailList
    ensures s[Subject].ty == AnyString && s[Text].ty == AnyString && s[Html].ty == AnyString && s[ScheduledAt].ty == AnyString
    ensures forall name :: name in FixedFields ==> !s[name].nonEmpty
    ensures From in s <==> !Truthy(cfg.sender)
    ensures From in s ==> s[From].ty == Email && s[From].required && s[From].nonEmpty
    ensures ReplyTo in s <==> ParseReplyTo(cfg.replyToEnv) == []
    ensures ReplyTo in s ==> s[ReplyTo].ty == EmailList && !s[ReplyTo].required
  {
    var offered := FixedFields
      + (if !Truthy(cfg.sender) then {From} else {})
      + (if |ParseReplyTo(cfg.replyToEnv)| == 0 then {ReplyTo} else {});
    var s := map name | name in offered :: Declaration(name);
    assert RequiredFields(s) == {To, Subject, Text} + (if Truthy(cfg.sender) then {} else {From});
    s
  }

  /** `replyTo` is offered exactly when the reply-to variable is unset or empty. */
  lemma ReplyToFieldIffNoDefault(cfg: Config)
    ensures ReplyTo in BuildSchema(cfg) <==> !Truthy(cfg.replyToEnv)
  {
    ParseReplyToEmptyIff(cfg.replyToEnv);
  }

  /** The schema takes one of four shapes, chosen independently by the sender
      default and the reply-to default; the API key plays no part. */
  lemma SchemaShapes(cfg: Config)
    ensures BuildSchema(cfg).Keys ==
              FixedFields
              + (if Truthy(cfg.sender) then {} else {From})
              + (if Truthy(cfg.replyToEnv) then {} else {ReplyTo})
    ensures forall key :: BuildSchema(cfg.(apiKey := key)) == BuildSchema(cfg)
  {
    ReplyToFieldIffNoDefault(cfg);
  }

  /** The parameters a tool call receives (the schema's inferred type): the
      three fixed required fields are always there; everything else may be
      `undefined`. */
  datatype Params = Params(
    to: string,
    subject: string,
    text: string,
    from: Option<string>,
    replyTo: Option<seq<string>>,
    html: Option<string>,
    cc: Option<seq<string>>,
    bcc: Option<seq<string>>,
    scheduledAt: Option<string>)

  /** A field value as the schema sees it. */
  datatype Value = Str(s: string) | List(items: seq<string>)

  function OptStr(o: Option<string>): Option<Value> {
    if o.Some? then Some(Str(o.value)) else None
  }

  function OptList(o: Option<seq<string>>): Option<Value> {
    if o.Some? then Some(List(o.value)) else None
  }

  /** The value a call carries under a field name. */
  function FieldValue(p: Params, name: FieldName): Option<Value> {
    match name
    case To => Some(Str(p.to))
    case Subject => Some(Str(p.subject))
    case Text => Some(Str(p.text))
    case From => OptStr(p.from)
    case ReplyTo => OptList(p.replyTo)
    case Html => OptStr(p.html)
    case Cc => OptList(p.cc)
    case Bcc => OptList(p.bcc)
    case ScheduledAt => OptStr(p.scheduledAt)
  }

  /** A field accepts a value (or its absence); `isEmail` stands for the
      schema library's address syntax check. */
  predicate Accepts(f: Field, v: Option<Value>, isEmail: string -> bool) {
    match v
    case None => !f.required
    case Some(Str(x)) => f.ty != EmailList && (f.ty == Email ==> isEmail(x)) && (f.nonEmpty ==> x != "")
    case Some(List(xs)) => f.ty == EmailList && forall i :: 0 <= i < |xs| ==> isEmail(xs[i])
  }

  /** A call satisfies a schema when every field of the schema accepts it. */
  predicate Conforms(s: Schema, p: Params, isEmail: string -> bool) {
    forall name :: name in s ==> Accepts(s[name], FieldValue(p, name), isEmail)
  }

  /** What a call that satisfies the advertised schema guarantees: a valid
      recipient and copy lists, a non-empty valid sender whenever no sender
      default exists, and valid reply-to addresses whenever no reply-to
      default exists. */
  lemma ConformsGuarantees(cfg: Config, p: Params, isEmail: string -> bool)
    requires Conforms(BuildSchema(cfg), p, isEmail)
    ensures isEmail(p.to)
    ensures p.cc.Some? ==> forall i :: 0 <= i < |p.cc.value| ==> isEmail(p.cc.value[i])
    ensures p.bcc.Some? ==> forall i :: 0 <= i < |p.bcc.value| ==> isEmail(p.bcc.value[i])
    ensures !Truthy(cfg.sender) ==> p.from.Some? && p.from.value != "" && isEmail(p.from.value)
    ensures !Truthy(cfg.replyToEnv) && p.replyTo.Some? ==>
              forall i :: 0 <= i < |p.replyTo.value| ==> isEmail(p.replyTo.value[i])
  {
    var s := BuildSchema(cfg);
    assert Accepts(s[To], FieldValue(p, To), isEmail);
    assert Accepts(s[Cc], FieldValue(p, Cc), isEmail);
    assert Accepts(s[Bcc], FieldValue(p, Bcc), isEmail);
    if !Truthy(cfg.sender) {
      assert Accepts(s[From], FieldValue(p, From), isEmail);
    }
    if !Truthy(cfg.replyToEnv) {
      ReplyToFieldIffNoDefault(cfg);
      assert Accepts(s[ReplyTo], FieldValue(p, ReplyTo), isEmail);
    }
  }
}
