/**
 * The parts of zap and zapcore that the logger builder hands its configuration
 * to: levels, the encoder configuration, string fields, and a logger seen as
 * a core (encoder, sink, minimum level) plus the fields attached with `With`.
 * Encoding itself and level filtering are not modelled.
 */
module ZapCore {
  import opened Hyperdx

  /** `zapcore.Level` is an `int8`. */
  newtype Level = x: int | -128 <= x < 128

  const DebugLevel: Level := -1
  const InfoLevel: Level := 0
  const WarnLevel: Level := 1
  const ErrorLevel: Level := 2
  const DPanicLevel: Level := 3
  const PanicLevel: Level := 4
  const FatalLevel: Level := 5

  /** `zapcore.DefaultLineEnding`. */
  const DefaultLineEnding: string := "\n"

  /** An encoder function (level, time, duration or caller encoder), named but opaque. */
  datatype EncoderFunc = EncoderFunc(name: string)

  /** The subset of `zapcore.EncoderConfig` that the logger builder sets. */
  datatype EncoderConfig = EncoderConfig(
    timeKey: string,
    levelKey: string,
    nameKey: string,
    callerKey: string,
    messageKey: string,
    stacktraceKey: string,
    lineEnding: string,
    encodeLevel: EncoderFunc,
    encodeTime: EncoderFunc,
    encodeDuration: EncoderFunc,
    encodeCaller: EncoderFunc)
  {
    /** The JSON keys the encoder reserves for its own entries. */
    function Keys(): seq<string>
    {
      [timeKey, levelKey, nameKey, callerKey, messageKey, stacktraceKey]
    }
  }

  /** A `zap.String(key, value)` field. */
  datatype Field = Field(key: string, value: string)

  /** The keys of `fields`, in order. */
  function FieldKeys(fields: seq<Field>): seq<string>
  {
    seq(|fields|, i requires 0 <= i < |fields| => fields[i].key)
  }

  /** `zapcore.NewCore(NewJSONEncoder(encoder), sink, level)`. */
  datatype Core = Core(encoder: EncoderConfig, sink: Sender, level: Level)

  /** A `*zap.Logger`: its core and the fields added to every entry it writes. */
  datatype Logger = Logger(core: Core, fields: seq<Field>)
  {
    /** `logger.With(fields...)`: a child logger whose entries carry `fields` after the existing ones. */
    function With(more: seq<Field>): Logger
    {
      Logger(core, fields + more)
    }
  }

  /** `zap.New(core)`: a logger with no fields yet. */
  function NewLogger(core: Core): Logger
  {
    Logger(core, [])
  }
}
