/**
 * Properties of the logger builder: the order in which options apply, what
 * each one leaves alone, which sender the URL and debug options reach, and
 * the fields a built logger carries.
 */
module ZapzProperties {
  import opened Hyperdx
  import opened ZapCore
  import opened Zapz

  /** Applying `a` then `b` is applying `a + b`: options compose in sequence order. */
  lemma {:induction false} ApplyAllAppend(c: Config, a: seq<Option>, b: seq<Option>)
    ensures ApplyAll(c, a + b) == ApplyAll(ApplyAll(c, a), b)
    decreases |b|
  {
    if b == [] {
      assert a + b == a;
    } else {
      var b' := b[..|b| - 1];
      ApplyAllAppend(c, a, b');
      assert (a + b)[..|a + b| - 1] == a + b';
    }
  }

  /** An aspect no option in `opts` targets keeps its starting value. */
  lemma {:induction false} UntouchedAspectKept(c: Config, opts: seq<Option>, a: Aspect)
    requires forall j :: 0 <= j < |opts| ==> Target(opts[j]) != a
    ensures Agree(c, ApplyAll(c, opts), a)
    decreases |opts|
  {
    if opts != [] {
      UntouchedAspectKept(c, opts[..|opts| - 1], a);
    }
  }

  /** For each aspect, the last option that sets it decides its final value. */
  lemma {:induction false} LastSetterWins(c: Config, opts: seq<Option>, i: int)
    requires 0 <= i < |opts|
    requires forall j :: i < j < |opts| ==> Target(opts[j]) != Target(opts[i])
    ensures opts[i].SetLevel? ==> ApplyAll(c, opts).level == opts[i].level
    ensures opts[i].SetEncodeConfig? ==> ApplyAll(c, opts).enCfg == opts[i].config
    ensures opts[i].SetLogz? ==> ApplyAll(c, opts).lz == opts[i].sender
    ensures opts[i].SetType? ==> ApplyAll(c, opts).typ == opts[i].typ
  {
    var pre, post := opts[..i + 1], opts[i + 1..];
    assert opts == pre + post;
    assert pre[..i] == opts[..i];
    ApplyAllAppend(c, pre, post);
    UntouchedAspectKept(ApplyAll(c, pre), post, Target(opts[i]));
  }

  /** With no option for an aspect, the built configuration keeps that aspect's default. */
  lemma {:induction false} DefaultsSurvive(logz: Sender, opts: seq<Option>)
    ensures (forall j :: 0 <= j < |opts| ==> !opts[j].SetLevel?) ==>
      ApplyAll(Defaults(logz), opts).level == InfoLevel
    ensures (forall j :: 0 <= j < |opts| ==> !opts[j].SetEncodeConfig?) ==>
      ApplyAll(Defaults(logz), opts).enCfg == DefaultConfig()
    ensures (forall j :: 0 <= j < |opts| ==> !opts[j].SetLogz?) ==>
      ApplyAll(Defaults(logz), opts).lz == logz
    ensures (forall j :: 0 <= j < |opts| ==> !opts[j].SetType?) ==>
      ApplyAll(Defaults(logz), opts).typ == DefaultType
  {
    var c := Defaults(logz);
    if forall j :: 0 <= j < |opts| ==> !opts[j].SetLevel? {
      UntouchedAspectKept(c, opts, LevelAspect);
    }
    if forall j :: 0 <= j < |opts| ==> !opts[j].SetEncodeConfig? {
      UntouchedAspectKept(c, opts, EncoderAspect);
    }
    if forall j :: 0 <= j < |opts| ==> !opts[j].SetLogz? {
      UntouchedAspectKept(c, opts, SenderAspect);
    }
    if forall j :: 0 <= j < |opts| ==> !opts[j].SetType? {
      UntouchedAspectKept(c, opts, TypeAspect);
    }
  }

  /** With no options at all, the logger is built from the defaults around the given sender. */
  lemma NoOptionsBuildsDefaults(logz: Sender, env: Environment, l: Logger)
    requires IsBuilt(l, ApplyAll(Defaults(logz), []), env)
    ensures l.core == Core(DefaultConfig(), logz, InfoLevel)
    ensures l.fields == [Field("type", "zap-logger"), Field("__hdx_sv", env.serviceName), Field("__hdx_h", env.hostname)]
  {
  }

  /** Sender settings compose in sequence order like the builder value does. */
  lemma {:induction false} SlotsAfterAppend(s: Sender, c: Config, a: seq<Option>, b: seq<Option>, x: SenderSlots)
    ensures SlotsAfter(s, c, a + b, x) == SlotsAfter(s, ApplyAll(c, a), b, SlotsAfter(s, c, a, x))
    decreases |b|
  {
    if b == [] {
      assert a + b == a;
    } else {
      var b' := b[..|b| - 1];
      SlotsAfterAppend(s, c, a, b', x);
      ApplyAllAppend(c, a, b');
      assert (a + b)[..|a + b| - 1] == a + b';
      assert (a + b)[|a + b| - 1] == b[|b| - 1];
    }
  }

  /** A sender that is never current is never written to. */
  lemma {:induction false} NeverCurrentUntouched(s: Sender, c: Config, opts: seq<Option>, x: SenderSlots)
    requires s != c.lz
    requires forall j :: 0 <= j < |opts| ==> opts[j] != SetLogz(s)
    ensures SlotsAfter(s, c, opts, x) == x
    decreases |opts|
  {
    if opts != [] {
      var prev := opts[..|opts| - 1];
      NeverCurrentUntouched(s, c, prev, x);
    }
  }

  /** Without `SetLogz`, the sender stays the same and receives every URL and debug setting, in order. */
  lemma {:induction false} CurrentSenderCollects(c: Config, opts: seq<Option>, x: SenderSlots)
    requires forall j :: 0 <= j < |opts| ==> !opts[j].SetLogz?
    ensures ApplyAll(c, opts).lz == c.lz
    ensures SlotsAfter(c.lz, c, opts, x) == Touches(x, opts)
    decreases |opts|
  {
    UntouchedAspectKept(c, opts, SenderAspect);
    if opts != [] {
      var prev := opts[..|opts| - 1];
      CurrentSenderCollects(c, prev, x);
    }
  }

  /**
   * Once `SetLogz(d)` replaces a sender `s`, later URL and debug options no
   * longer reach `s`: it keeps what it had been given before.
   */
  lemma {:induction false} ReplacedSenderKeepsSlots(s: Sender, c: Config, pre: seq<Option>, d: Sender, post: seq<Option>, x: SenderSlots)
    requires s != d
    requires forall j :: 0 <= j < |post| ==> post[j] != SetLogz(s)
    ensures SlotsAfter(s, c, pre + [SetLogz(d)] + post, x) == SlotsAfter(s, c, pre, x)
  {
    var a := pre + [SetLogz(d)];
    assert a[..|a| - 1] == pre;
    SlotsAfterAppend(s, c, a, post, x);
    NeverCurrentUntouched(s, ApplyAll(c, a), post, SlotsAfter(s, c, a, x));
  }

  /**
   * After the last `SetLogz(d)`, `d` is the final sender, and it receives
   * exactly the URL and debug options that follow, on top of whatever it held
   * just before it became current.
   */
  lemma {:induction false} FinalSenderSlots(c: Config, pre: seq<Option>, d: Sender, post: seq<Option>, x: SenderSlots)
    requires forall j :: 0 <= j < |post| ==> !post[j].SetLogz?
    ensures ApplyAll(c, pre + [SetLogz(d)] + post).lz == d
    ensures SlotsAfter(d, c, pre + [SetLogz(d)] + post, x) == Touches(SlotsAfter(d, c, pre, x), post)
  {
    var a := pre + [SetLogz(d)];
    assert a[..|a| - 1] == pre;
    ApplyAllAppend(c, a, post);
    SlotsAfterAppend(d, c, a, post, x);
    CurrentSenderCollects(ApplyAll(c, a), post, SlotsAfter(d, c, a, x));
  }

  /**
   * A sender switched in by `SetLogz` does not inherit the URL or debug
   * writer that earlier options gave the sender it replaced: its final
   * settings are its own plus only the options after the switch.
   */
  lemma {:induction false} SwitchedSenderStartsClean(logz: Sender, pre: seq<Option>, d: Sender, post: seq<Option>, x: SenderSlots)
    requires d != logz
    requires forall j :: 0 <= j < |pre| ==> pre[j] != SetLogz(d)
    requires forall j :: 0 <= j < |post| ==> !post[j].SetLogz?
    ensures SlotsAfter(d, Defaults(logz), pre + [SetLogz(d)] + post, x) == Touches(x, post)
  {
    FinalSenderSlots(Defaults(logz), pre, d, post, x);
    NeverCurrentUntouched(d, Defaults(logz), pre, x);
  }

  /** Settings nothing in `opts` writes keep their values. */
  lemma {:induction false} TouchesKeeps(x: SenderSlots, opts: seq<Option>)
    ensures (forall j :: 0 <= j < |opts| ==> !opts[j].SetUrl?) ==> Touches(x, opts).url == x.url
    ensures (forall j :: 0 <= j < |opts| ==> !opts[j].WithDebug?) ==> Touches(x, opts).debug == x.debug
    decreases |opts|
  {
    if opts != [] {
      TouchesKeeps(x, opts[..|opts| - 1]);
    }
  }

  /** Settings written to one sender compose in sequence order. */
  lemma {:induction false} TouchesAppend(x: SenderSlots, a: seq<Option>, b: seq<Option>)
    ensures Touches(x, a + b) == Touches(Touches(x, a), b)
    decreases |b|
  {
    if b == [] {
      assert a + b == a;
    } else {
      TouchesAppend(x, a, b[..|b| - 1]);
      assert (a + b)[..|a + b| - 1] == a + b[..|b| - 1];
    }
  }

  /** The last `SetUrl` decides the URL, and the last `WithDebug` decides the debug writer. */
  lemma {:induction false} LastTouchWins(x: SenderSlots, opts: seq<Option>, i: int)
    requires 0 <= i < |opts|
    ensures opts[i].SetUrl? && (forall j :: i < j < |opts| ==> !opts[j].SetUrl?) ==>
      Touches(x, opts).url == opts[i].url
    ensures opts[i].WithDebug? && (forall j :: i < j < |opts| ==> !opts[j].WithDebug?) ==>
      Touches(x, opts).debug == DebugTo(opts[i].writer)
  {
    var pre, post := opts[..i + 1], opts[i + 1..];
    assert opts == pre + post;
    assert pre[..i] == opts[..i];
    TouchesAppend(x, pre, post);
    TouchesKeeps(Touches(x, pre), post);
  }

  /**
   * A built logger, with or without trace metadata, carries the static fields
   * first and then zero or three trace fields; all these keys differ from each
   * other and from the default encoder's reserved keys.
   */
  lemma BuiltLoggerKeys(l: Logger, c: Config, env: Environment, span: SpanContext)
    requires IsBuilt(l, c, env)
    ensures FieldKeys(l.fields) == StaticKeys()
    ensures FieldKeys(WithTraceMetadata(span, l).fields) == StaticKeys() + (if span.valid then TraceKeys() else [])
    ensures Distinct(FieldKeys(WithTraceMetadata(span, l).fields))
    ensures forall k :: k in FieldKeys(WithTraceMetadata(span, l).fields) ==> k !in DefaultConfig().Keys()
  {
    var keys := FieldKeys(WithTraceMetadata(span, l).fields);
    assert keys == StaticKeys() + (if span.valid then TraceKeys() else []);
  }

  /** Trace metadata keeps the logger's existing fields as a prefix and adds zero or three. */
  lemma TraceMetadataExtends(span: SpanContext, l: Logger)
    ensures WithTraceMetadata(span, l).fields[..|l.fields|] == l.fields
    ensures |WithTraceMetadata(span, l).fields| == |l.fields| + (if span.valid then 3 else 0)
  {
  }
}
