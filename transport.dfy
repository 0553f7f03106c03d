/** The System V message queue as the routers use it: every client sends its
    commands with `msg_type` 1, and the router answers a client by sending with
    `msg_type` equal to that client's id. */
module Transport {

  /** A command a client sent: its `client_pid` and the C string in `msg_text`
      (the characters before the terminating NUL). */
  datatype Inbound = Inbound(clientPid: int, text: string)

  /** A message the router sends: the `msg_type` that selects the receiving
      client, and the C string in `msg_text`. */
  datatype Outbound = Outbound(msgType: int, text: string)

  /** `sizeof(msg_text)`. */
  const TextSize: nat := 256

  /** What a `strncpy` of at most 255 bytes into `msg_text[256]`, followed by
      a terminating NUL in its last byte, leaves as the C string in
      `msg_text`: the first `min(|text|, 255)` characters. */
  function Payload(text: string): (p: string)
    ensures |p| == if |text| < TextSize then |text| else TextSize - 1
    ensures p == text[..|p|]
  {
    if |text| < TextSize then text else text[..TextSize - 1]
  }

  /** The message that reaches client `id` with `text`. */
  function MessageTo(id: int, text: string): (m: Outbound)
    ensures m.msgType == id && m.text == Payload(text)
  {
    Outbound(id, Payload(text))
  }

  /** The outgoing side of the queue: every `msgsnd` the router issues, in order. */
  class MsgQueue {
    var sent: seq<Outbound>

    constructor()
      ensures sent == []
    {
      sent := [];
    }

    /** `msgsnd(msgid, &msg, ...)`. */
    method Send(m: Outbound)
      modifies this
      ensures sent == old(sent) + [m]
    {
      sent := sent + [m];
    }
  }
}
