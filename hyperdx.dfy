/**
 * The HyperDX sender that the logger writes its records to. Its transport
 * (HTTP delivery, batching, retry) is not modelled; the sender is an opaque
 * object with the two settings that the logger's options can change in place:
 * the collector URL and the debug writer.
 */
module Hyperdx {

  /** An `io.Writer` handed to the sender for debug output; opaque. */
  datatype Writer = Writer(id: nat)

  /** Whether, and where, the sender mirrors debug output. */
  datatype DebugSink = NoDebug | DebugTo(writer: Writer)

  /** The settings of one sender that the options can change. */
  datatype SenderSlots = SenderSlots(url: string, debug: DebugSink)

  /** The error `hyperdx.New` reports when it cannot build a sender. */
  datatype SenderError = SenderError(message: string)

  class Sender {
    var url: string
    var debug: DebugSink

    function Slots(): SenderSlots
      reads this
    {
      SenderSlots(url, debug)
    }

    /** `hyperdx.SetUrl(u)` applied to this sender: records the URL, keeps the debug writer. */
    method SetUrl(u: string)
      modifies this
      ensures Slots() == old(Slots()).(url := u)
    {
      url := u;
    }

    /** `hyperdx.SetDebug(w)` applied to this sender: records the writer, keeps the URL. */
    method SetDebug(w: Writer)
      modifies this
      ensures Slots() == old(Slots()).(debug := DebugTo(w))
    {
      debug := DebugTo(w);
    }
  }
}
