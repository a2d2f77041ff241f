# zapz: the HyperDX logger builder, modelled in Dafny

Package `zapz` builds a `zap` logger that ships its records to HyperDX. This
model covers what the package itself decides:

- a `Zapz` builder that starts from fixed defaults: level Info, the default
  encoder configuration, type `"zap-logger"` and the given sender;
- options folded over the builder in the order given, each acting on one
  aspect: level, encoder configuration, sender, the current sender's URL, the
  current sender's debug writer, or the type tag;
- the three static fields `type`, `__hdx_sv` and `__hdx_h`, attached in that
  order to every built logger;
- `New`, which returns the sender's construction error and no logger;
- `WithTraceMetadata`, which adds either no fields or the three fields
  `trace_id`, `span_id` and `trace_flags`.

Layout:

- `hyperdx.dfy` (module `Hyperdx`): the sender as an object. It has two
  settings, a URL and a debug writer, which `SetUrl` and `SetDebug` change in
  place.
- `zapcore.dfy` (module `ZapCore`): zap's levels (an `int8`), the encoder
  configuration (its key strings, with the encoder functions as opaque names),
  string fields, and the logger as a core plus its fields.
- `zapz.dfy` (module `Zapz`): `DefaultConfig`, the `Option` datatype, the
  builder's value `Config` and its specification `Step`/`ApplyAll`, the
  mutable class `Zapz` with `Apply`, the methods `NewLogz` and `New`, and
  `WithTraceMetadata`.
- `zapz_properties.dfy` (module `ZapzProperties`): lemmas about ordering,
  framing, which sender the URL and debug options reach, and the built
  logger's field keys.

`SetUrl` and `WithDebug` act on whichever sender object is current at their
position in the sequence. `SlotsAfter` specifies this for every sender
reachable from the options. `NewLogz` is proved to leave each such sender
with exactly those settings. Because senders are objects, aliasing is
modelled too: if the same sender is passed twice, it collects the settings
from both stretches.

The host name, the `OTEL_SERVICE_NAME` value, the outcome of
`hyperdx.New(token)` and the span context (its validity and the string forms
of its ids and flags) are parameters.

Nothing checks that an encoder configuration passed to `SetEncodeConfig`
keeps its message key distinct from the reserved and static keys:
`SetEncodeConfig` accepts any configuration. The model follows the code, so `LastSetterWins` holds for every encoder configuration. Only
`DefaultConfig` is proved collision-free.

## Model

| member | source | states |
|---|---|---|
| `Zapz.DefaultConfig` | zapz.go:20-33 | the message key is "message"; the six reserved keys are pairwise distinct and differ from the static keys `type`, `__hdx_sv`, `__hdx_h` |
| `Zapz.Step` | zapz.go:96-135 | each option changes only the aspect it targets (`SameExcept`), and a setter leaves its argument in its own field |
| `Zapz.ApplyAll` | zapz.go:61-65 | the final sender is the starting one or one supplied by a `SetLogz` in the sequence |
| `Zapz.Zapz.constructor` | zapz.go:54-59 | a new builder holds the given sender, `InfoLevel`, `DefaultConfig()` and `"zap-logger"` |
| `Zapz.Zapz.Apply` | zapz.go:137-141 | running an option changes the builder as `Step` says; `SetUrl` and `WithDebug` write to the sender that was current, and other options leave it alone |
| `Hyperdx.Sender.SetUrl` | zapz.go:117-121 | records the URL on this sender and keeps its debug writer |
| `Hyperdx.Sender.SetDebug` | zapz.go:130-135 | records the debug writer on this sender and keeps its URL |
| `Zapz.NewLogz` | zapz.go:53-74 | never fails; the logger's core has the final encoder config, sender and level, and its fields are exactly `type`, `__hdx_sv`, `__hdx_h` with the final type, the service name and the host name; every reachable sender ends with the settings `SlotsAfter` gives |
| `Zapz.New` | zapz.go:45-51 | a sender construction error is returned with no logger; otherwise the result and the sender settings are those of `NewLogz` on the new sender |
| `Zapz.WithTraceMetadata` | zapz.go:82-94 | with an invalid span the logger is returned unchanged; with a valid one the core is kept and `trace_id`, `span_id`, `trace_flags` carrying the span's string forms are appended after the existing fields |
| `ZapzProperties.ApplyAllAppend` | zapz.go:61-65 | applying `a` then `b` equals applying `a + b`: options apply in sequence order |
| `ZapzProperties.UntouchedAspectKept` | zapz.go:97-128 | an aspect that no option targets keeps its starting value |
| `ZapzProperties.LastSetterWins` | zapz.go:61-65 | for level, encoder config, sender and type, the last option that sets the aspect determines its final value |
| `ZapzProperties.DefaultsSurvive` | zapz.go:54-59 | with no option for an aspect, the built configuration keeps Info, `DefaultConfig()`, the given sender, or `"zap-logger"` |
| `ZapzProperties.NoOptionsBuildsDefaults` | zapz.go:53-74 | with no options, the logger's core is the defaults around the given sender and its fields are `type=zap-logger`, `__hdx_sv`, `__hdx_h` |
| `ZapzProperties.SlotsAfterAppend` | zapz.go:61-65 | sender settings compose in sequence order, each stretch starting from the builder value the previous one left |
| `ZapzProperties.NeverCurrentUntouched` | zapz.go:117-121 | a sender that is never current keeps its settings |
| `ZapzProperties.CurrentSenderCollects` | zapz.go:117-135 | without `SetLogz` the sender stays the same and receives every URL and debug option in order |
| `ZapzProperties.ReplacedSenderKeepsSlots` | zapz.go:110-121 | once `SetLogz` replaces a sender, later URL and debug options no longer reach it |
| `ZapzProperties.FinalSenderSlots` | zapz.go:110-135 | after the last `SetLogz(d)`, `d` is the final sender and receives exactly the URL and debug options that follow |
| `ZapzProperties.SwitchedSenderStartsClean` | zapz.go:110-135 | a sender switched in by `SetLogz`, not current before, does not inherit earlier URL or debug settings: it ends with its own settings plus those given after the switch |
| `ZapzProperties.TouchesKeeps` | zapz.go:117-135 | on a sender that stays current, a URL no `SetUrl` writes and a writer no `WithDebug` writes keep their values |
| `ZapzProperties.TouchesAppend` | zapz.go:61-65 | settings written to one sender compose in sequence order |
| `ZapzProperties.LastTouchWins` | zapz.go:117-135 | on a sender that stays current, the last `SetUrl` decides its URL and the last `WithDebug` decides its writer, whatever options come after them |
| `ZapzProperties.BuiltLoggerKeys` | zapz.go:69-93 | a built logger's keys are `type`, `__hdx_sv`, `__hdx_h`, then the three trace keys when the span is valid; all keys are distinct and none is a default reserved key |
| `ZapzProperties.TraceMetadataExtends` | zapz.go:82-94 | trace metadata keeps the existing fields as a prefix and adds zero or three fields |

## Left out

- JSON encoding, the level, time, duration and caller encoders, and the line ending are zapcore's code. The encoder functions are opaque names here. The model keeps only the encoder configuration's key strings and its line-ending value.
- `LogzTimeEncoder`: its output is Go's `time` formatting of an RFC 3339 timestamp in UTC, which is library behaviour.
- Level filtering in `zapcore.NewCore`, and all logging done with the built logger.
- The HyperDX sender's transport: HTTP delivery, batching, retry and backoff. `hyperdx.SetUrl` and `hyperdx.SetDebug` are modelled only as recording a value on the sender.
- `hyperdx.New(token)`, `os.Hostname()`, the `OTEL_SERVICE_NAME` lookup and OpenTelemetry's span extraction and validity test are foreign or environment calls. They are parameters. The error `os.Hostname` may return is ignored by the source; the host name is whatever string is supplied.
- Nil values are not modelled: senders, debug writers, options and loggers are never nil. So the model has no counterpart for `NewLogz(nil, …)` or `SetLogz(nil)` followed by `SetUrl`/`WithDebug` calling into a nil sender, `WithDebug(nil)`, a nil `Option` in `opts` (a panic in the loop), or `WithTraceMetadata` on a nil logger.
- `DefaultConfig` is an exported package variable that callers could reassign before building a logger; the model takes it at its initial value.
- `zapcore.EncoderConfig` fields the source never sets (function key, name encoder, console separator and others) are not represented.
- `zapcore.Level` is modelled as the full `int8` range, so `SetLevel` accepts out-of-range levels, as the source does.
- Buffering with drop-oldest, flush thresholds and retry state machines exist in none of the modelled files and are not modelled.
