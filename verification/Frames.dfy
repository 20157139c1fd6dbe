/** Websocket messages and the close codes of section 7.4.1 of RFC 6455 that crank4go uses. */
module Frames {
  type Bytes = seq<bv8>

  datatype Frame = TextFrame(msg: string) | BinaryFrame(payload: Bytes) | CloseFrame(statusCode: int)

  const CLOSE_NORMAL := 1000
  const CLOSE_POLICY_VIOLATION := 1008
  const CLOSE_INTERNAL_SERVER_ERR := 1011

  /** All binary payloads, in order. */
  function Payload(frames: seq<Frame>): Bytes
  {
    if frames == [] then []
    else (if frames[0].BinaryFrame? then frames[0].payload else []) + Payload(frames[1..])
  }

  lemma {:induction false} PayloadConcat(a: seq<Frame>, b: seq<Frame>)
    ensures Payload(a + b) == Payload(a) + Payload(b)
  {
    if a == [] {
      assert a + b == b;
    } else {
      assert (a + b)[1..] == a[1..] + b;
      PayloadConcat(a[1..], b);
    }
  }
}
