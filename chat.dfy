/**
 * The chat actor's inbound handler (src/chat.rs): every text message of a
 * `SendText` envelope becomes one console line, in order, and the call is
 * always answered with success.
 *
 * Rendering a UTC timestamp in the local time zone is left abstract: the
 * handler receives it as the function `renderTs`.
 */
module Chat {
  import opened Wrappers
  import opened Protocol

  /** A `SendText` call as delivered by the service bus, with the caller's identity. */
  datatype RpcEnvelope = RpcEnvelope(caller: string, body: SendText)

  /** The console line for one message: timestamp, a space, the caller, "> ", the content. */
  function FormatLine(ts: string, caller: string, content: string): string
  {
    ts + " " + caller + "> " + content
  }

  /** The parts of a line stand verbatim at fixed positions. */
  lemma {:induction false} FormatLineParts(ts: string, caller: string, content: string)
    ensures var line := FormatLine(ts, caller, content);
            && |line| == |ts| + |caller| + |content| + 3
            && line[..|ts|] == ts
            && line[|ts|] == ' '
            && line[|ts| + 1..|ts| + 1 + |caller|] == caller
            && line[|ts| + 1 + |caller|..|ts| + 3 + |caller|] == "> "
            && line[|ts| + 3 + |caller|..] == content
  {
    var line := FormatLine(ts, caller, content);
    var a := |ts| + 1 + |caller|;
    assert line == ((ts + " ") + caller) + ("> " + content);
    assert line[..a] == ts + " " + caller;
    assert line[a..] == "> " + content;
    assert line[a..][2..] == content;
  }

  /** Given the timestamp text and the caller, a line determines its content. */
  lemma {:induction false} FormatLineInjective(ts: string, caller: string, c1: string, c2: string)
    requires FormatLine(ts, caller, c1) == FormatLine(ts, caller, c2)
    ensures c1 == c2
  {
    FormatLineParts(ts, caller, c1);
    FormatLineParts(ts, caller, c2);
  }

  /** The chat actor; `me` is the local user's display name. */
  class Chat {
    var me: string

    constructor (me: string)
      ensures this.me == me
    {
      this.me := me;
    }

    /**
     * Handles an inbound `SendText`: one line per message, in the order of
     * the batch, each naming the envelope's caller. Every caller is
     * answered with success; the actor's state is not touched.
     */
    method HandleSendText(msg: RpcEnvelope, renderTs: Timestamp -> string)
      returns (reply: Result<(), ChatError>, lines: seq<string>)
      ensures reply == Success(())
      ensures |lines| == |msg.body.messages|
      ensures forall i :: 0 <= i < |lines| ==>
                lines[i] == FormatLine(renderTs(msg.body.messages[i].timestamp), msg.caller, msg.body.messages[i].content)
    {
      var caller := msg.caller;
      var sends := msg.body;
      lines := [];
      for i := 0 to |sends.messages|
        invariant |lines| == i
        invariant forall k :: 0 <= k < i ==>
                    lines[k] == FormatLine(renderTs(sends.messages[k].timestamp), caller, sends.messages[k].content)
      {
        var text := sends.messages[i];
        lines := lines + [FormatLine(renderTs(text.timestamp), caller, text.content)];
      }
      reply := Success(());
    }
  }
}
