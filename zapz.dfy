/**
 * The logger builder of package zapz: a configuration that starts from fixed
 * defaults, a sequence of options folded over it in order, and a zap logger
 * built from the result with three static fields attached. Also the helper
 * that adds OpenTelemetry trace fields to a logger.
 */
module Zapz {
  import opened Hyperdx
  import opened ZapCore

  /** Key of the static field holding the log type. */
  const TypeKey: string := "type"
  /** Key of the static field holding the service name. */
  const ServiceNameKey: string := "__hdx_sv"
  /** Key of the static field holding the host name. */
  const HostnameKey: string := "__hdx_h"

  const TraceIdKey: string := "trace_id"
  const SpanIdKey: string := "span_id"
  const TraceFlagsKey: string := "trace_flags"

  /** The type tag used when no `SetType` option is given. */
  const DefaultType: string := "zap-logger"

  function StaticKeys(): seq<string>
  {
    [TypeKey, ServiceNameKey, HostnameKey]
  }

  function TraceKeys(): seq<string>
  {
    [TraceIdKey, SpanIdKey, TraceFlagsKey]
  }

  predicate Distinct(s: seq<string>)
  {
    forall i, j :: 0 <= i < j < |s| ==> s[i] != s[j]
  }

  /**
   * The encoder configuration used unless `SetEncodeConfig` replaces it.
   * HyperDX reads the message from the key "message"; the reserved keys
   * differ from each other and from the static field keys.
   */
  function DefaultConfig(): (c: EncoderConfig)
    ensures c.messageKey == "message"
    ensures Distinct(c.Keys())
    ensures forall k :: k in c.Keys() ==> k !in StaticKeys()
  {
    EncoderConfig(
      "ts", "level", "logger", "caller", "message", "stacktrace",
      DefaultLineEnding,
      EncoderFunc("LowercaseLevelEncoder"),
      EncoderFunc("LogzTimeEncoder"),
      EncoderFunc("SecondsDurationEncoder"),
      EncoderFunc("ShortCallerEncoder"))
  }

  /** The value of a `Zapz` builder: sender, minimum level, encoder configuration, type tag. */
  datatype Config = Config(lz: Sender, level: Level, enCfg: EncoderConfig, typ: string)

  /** A fresh builder around `logz`. */
  function Defaults(logz: Sender): Config
  {
    Config(logz, InfoLevel, DefaultConfig(), DefaultType)
  }

  /** One `Option`, one constructor per setter. */
  datatype Option =
    | SetLevel(level: Level)
    | SetEncodeConfig(config: EncoderConfig)
    | SetLogz(sender: Sender)
    | SetUrl(url: string)
    | SetType(typ: string)
    | WithDebug(writer: Writer)

  /** The one aspect of the builder an option acts on. */
  datatype Aspect = LevelAspect | EncoderAspect | SenderAspect | TypeAspect | CurrentSenderSlots

  function Target(o: Option): Aspect
  {
    match o
    case SetLevel(_) => LevelAspect
    case SetEncodeConfig(_) => EncoderAspect
    case SetLogz(_) => SenderAspect
    case SetType(_) => TypeAspect
    case SetUrl(_) => CurrentSenderSlots
    case WithDebug(_) => CurrentSenderSlots
  }

  /** `c` and `d` hold the same value for aspect `a` (the current sender's slots live outside `Config`). */
  predicate Agree(c: Config, d: Config, a: Aspect)
  {
    match a
    case LevelAspect => c.level == d.level
    case EncoderAspect => c.enCfg == d.enCfg
    case SenderAspect => c.lz == d.lz
    case TypeAspect => c.typ == d.typ
    case CurrentSenderSlots => true
  }

  /** `c` and `d` differ at most in aspect `a`. */
  predicate SameExcept(c: Config, d: Config, a: Aspect)
  {
    forall b :: b != a ==> Agree(c, d, b)
  }

  /**
   * One option applied to the builder's value. Each setter writes its own
   * field and nothing else; `SetUrl` and `WithDebug` leave the value alone,
   * since they act on the current sender object (see `SlotsAfter`).
   */
  function Step(c: Config, o: Option): (r: Config)
    ensures SameExcept(c, r, Target(o))
    ensures o.SetLevel? ==> r.level == o.level
    ensures o.SetEncodeConfig? ==> r.enCfg == o.config
    ensures o.SetLogz? ==> r.lz == o.sender
    ensures o.SetType? ==> r.typ == o.typ
  {
    match o
    case SetLevel(l) => c.(level := l)
    case SetEncodeConfig(cfg) => c.(enCfg := cfg)
    case SetLogz(s) => c.(lz := s)
    case SetType(t) => c.(typ := t)
    case SetUrl(_) => c
    case WithDebug(_) => c
  }

  /**
   * The options applied in the order given. The sender in the result is the
   * starting one or one that an option in `opts` supplied.
   */
  function ApplyAll(c: Config, opts: seq<Option>): (r: Config)
    ensures r.lz == c.lz || exists i :: 0 <= i < |opts| && opts[i] == SetLogz(r.lz)
    decreases |opts|
  {
    if opts == [] then c else Step(ApplyAll(c, opts[..|opts| - 1]), opts[|opts| - 1])
  }

  /** What `SetUrl` or `WithDebug` records on the sender it is applied to. */
  function Touch(x: SenderSlots, o: Option): SenderSlots
  {
    match o
    case SetUrl(u) => x.(url := u)
    case WithDebug(w) => x.(debug := DebugTo(w))
    case _ => x
  }

  /** The settings `opts` record on one sender that stays current throughout. */
  function Touches(x: SenderSlots, opts: seq<Option>): SenderSlots
    decreases |opts|
  {
    if opts == [] then x else Touch(Touches(x, opts[..|opts| - 1]), opts[|opts| - 1])
  }

  /**
   * The settings sender `s` holds after `opts` are applied to a builder whose
   * value starts as `c`, when `s` held `x` before: each `SetUrl` or
   * `WithDebug` acts on the sender that is current at its position.
   */
  function SlotsAfter(s: Sender, c: Config, opts: seq<Option>, x: SenderSlots): SenderSlots
    decreases |opts|
  {
    if opts == [] then x
    else
      var prev := opts[..|opts| - 1];
      var before := SlotsAfter(s, c, prev, x);
      if ApplyAll(c, prev).lz == s then Touch(before, opts[|opts| - 1]) else before
  }

  /** Every sender the options can reach: the starting one and those `SetLogz` supplies. */
  function Senders(logz: Sender, opts: seq<Option>): set<Sender>
  {
    {logz} + set i | 0 <= i < |opts| && opts[i].SetLogz? :: opts[i].sender
  }

  /** The mutable `Zapz` builder. */
  class Zapz {
    var lz: Sender
    var level: Level
    var enCfg: EncoderConfig
    var typ: string

    function State(): Config
      reads this
    {
      Config(lz, level, enCfg, typ)
    }

    constructor (logz: Sender)
      ensures State() == Defaults(logz)
    {
      lz := logz;
      level := InfoLevel;
      enCfg := DefaultConfig();
      typ := DefaultType;
    }

    /** `o.apply(z)`: the option's closure run on this builder. */
    method Apply(o: Option)
      modifies this, lz
      ensures State() == Step(old(State()), o)
      ensures old(lz).Slots() == Touch(old(lz.Slots()), o)
    {
      match o {
        case SetLevel(l) => level := l;
        case SetEncodeConfig(cfg) => enCfg := cfg;
        case SetLogz(s) => lz := s;
        case SetUrl(u) => lz.SetUrl(u);
        case SetType(t) => typ := t;
        case WithDebug(w) => lz.SetDebug(w);
      }
    }
  }

  /** What the process environment supplies: `os.Hostname()` and `$OTEL_SERVICE_NAME`. */
  datatype Environment = Environment(hostname: string, serviceName: string)

  /** The static fields every built logger carries, in this order. */
  function StaticFields(typ: string, env: Environment): seq<Field>
  {
    [Field(TypeKey, typ), Field(ServiceNameKey, env.serviceName), Field(HostnameKey, env.hostname)]
  }

  /** `l` is the logger built from the final builder value `c`. */
  predicate IsBuilt(l: Logger, c: Config, env: Environment)
  {
    l.core == Core(c.enCfg, c.lz, c.level) && l.fields == StaticFields(c.typ, env)
  }

  datatype Result<T> = Ok(value: T) | Err(error: SenderError)

  /**
   * `NewLogz(logz, opts...)`: start from the defaults, apply the options in
   * order (changing the current sender in place for `SetUrl`/`WithDebug`),
   * then build the logger with the static fields. It never fails.
   */
  method NewLogz(logz: Sender, opts: seq<Option>, env: Environment) returns (r: Result<Logger>)
    modifies Senders(logz, opts)
    ensures r.Ok? && IsBuilt(r.value, ApplyAll(Defaults(logz), opts), env)
    ensures forall s :: s in Senders(logz, opts) ==>
      s.Slots() == SlotsAfter(s, Defaults(logz), opts, old(s.Slots()))
  {
    var z := new Zapz(logz);
    var i := 0;
    while i < |opts|
      invariant 0 <= i <= |opts|
      invariant z.State() == ApplyAll(Defaults(logz), opts[..i])
      invariant z.lz in Senders(logz, opts)
      invariant forall s :: s in Senders(logz, opts) ==>
        s.Slots() == SlotsAfter(s, Defaults(logz), opts[..i], old(s.Slots()))
    {
      z.Apply(opts[i]);
      assert opts[..i + 1][..i] == opts[..i];
      i := i + 1;
    }
    assert opts[..i] == opts;
    var core := Core(z.enCfg, z.lz, z.level);
    r := Ok(NewLogger(core).With(StaticFields(z.typ, env)));
  }

  /**
   * `New(token, opts...)`: `created` is what `hyperdx.New(token)` returned.
   * Its error is passed back with no logger; otherwise the result is that
   * of `NewLogz` on the new sender.
   */
  method New(created: Result<Sender>, opts: seq<Option>, env: Environment) returns (r: Result<Logger>)
    modifies if created.Ok? then Senders(created.value, opts) else {}
    ensures created.Err? ==> r == Err(created.error)
    ensures created.Ok? ==> r.Ok? && IsBuilt(r.value, ApplyAll(Defaults(created.value), opts), env)
    ensures created.Ok? ==> forall s :: s in Senders(created.value, opts) ==>
      s.Slots() == SlotsAfter(s, Defaults(created.value), opts, old(s.Slots()))
  {
    if created.Err? {
      return Err(created.error);
    }
    r := NewLogz(created.value, opts, env);
  }

  /** The span context found in a `context.Context`, with OpenTelemetry's string forms of its parts. */
  datatype SpanContext = SpanContext(valid: bool, traceId: string, spanId: string, traceFlags: string)

  /**
   * `WithTraceMetadata(ctx, logger)`: with no valid span, the logger itself;
   * otherwise a child logger with the trace id, span id and trace flags
   * appended after its existing fields.
   */
  function WithTraceMetadata(span: SpanContext, logger: Logger): (r: Logger)
    ensures r.core == logger.core
    ensures !span.valid ==> r == logger
    ensures span.valid ==>
      r.fields == logger.fields + [Field(TraceIdKey, span.traceId), Field(SpanIdKey, span.spanId), Field(TraceFlagsKey, span.traceFlags)]
  {
    if !span.valid then logger
    else logger.With([
      Field(TraceIdKey, span.traceId),
      Field(SpanIdKey, span.spanId),
      Field(TraceFlagsKey, span.traceFlags)])
  }
}
