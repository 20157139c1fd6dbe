/** The two sending loops of the tunnel: `sendRequestOverWebsocket` (router/reverse_proxy.go)
    and `FireRequestFromConnectorToTargetService` (connector/intermediate_request.go), over
    every way their reads and writes can fail. */
module SendingLoops {
  import opened Text
  import opened CrankerProtocol
  import opened Frames

  /** What comes with the data of one Body.Read. */
  datatype ReadEnd = More | Eof | Fails

  datatype BodyRead = BodyRead(data: Bytes, end: ReadEnd)

  /** `good` more writes succeed; then the session is nil (`gone`) or its writes fail. */
  datatype Link = Link(good: nat, gone: bool)
  {
    function Used(): Link { if good > 0 then this.(good := good - 1) else this }
  }

  /** How a sending loop is left. `Reading`: the body has not ended yet. `Swallowed`:
      by a panic that carries no error. */
  datatype Outcome = Reading | Done | Failed | Swallowed

  // ---------- the request, router to connector ----------

  method SendRequestOverWebsocket(reqLine: string, headers: string, hasBody: bool, input: seq<BodyRead>, link: Link)
    returns (frames: seq<Frame>, outcome: Outcome)
    ensures (frames, outcome) == RequestSent(reqLine, headers, hasBody, input, link)
  {
    if link.good == 0 { return [], Failed; }
    if !hasBody {
      return [TextFrame(BuildRequest(reqLine, Some(headers), HAS_NO_BODY))], Done;
    }
    frames := [TextFrame(BuildRequest(reqLine, Some(headers), BODY_PENDING))];
    ghost var head := frames;
    var up := link.Used();
    var i := 0;
    while i < |input|
      invariant i <= |input|
      invariant Prepend(frames, Streamed(input[i..], up)) == Prepend(head, Streamed(input, link.Used()))
    {
      var r := input[i];
      assert input[i..][0] == r && input[i..][1..] == input[i + 1..];
      ghost var before := frames;
      if r.data != [] {
        if up.good == 0 {
          assert frames + [] == frames;
          return frames, if !up.gone && r.end.More? then Swallowed else Failed;
        }
        frames, up := frames + [BinaryFrame(r.data)], up.Used();
      }
      assert frames == before + Forwarded(r);
      if r.end.Eof? {
        PrependTwice(before, Forwarded(r), TailSent(up));
        break;
      }
      if r.end.Fails? {
        PrependTwice(before, Forwarded(r), ([], Failed));
        assert frames + [] == frames;
        return frames, Failed;
      }
      PrependTwice(before, Forwarded(r), Streamed(input[i + 1..], up));
      i := i + 1;
    }
    if i == |input| {
      assert frames + [] == frames;
      return frames, Reading;
    }
    if up.good == 0 {
      assert frames + [] == frames;
      return frames, Failed;
    }
    frames := frames + [TextFrame(BuildRequest("", None, BODY_ENDED))];
    return frames, Done;
  }

  function Forwarded(r: BodyRead): seq<Frame> { if r.data == [] then [] else [BinaryFrame(r.data)] }

  function Prepend(fs: seq<Frame>, rest: (seq<Frame>, Outcome)): (seq<Frame>, Outcome) { (fs + rest.0, rest.1) }

  lemma PrependTwice(a: seq<Frame>, b: seq<Frame>, rest: (seq<Frame>, Outcome))
    ensures Prepend(a, Prepend(b, rest)) == Prepend(a + b, rest)
  {
    assert a + (b + rest.0) == a + b + rest.0;
  }

  function RequestSent(reqLine: string, headers: string, hasBody: bool, input: seq<BodyRead>, link: Link): (seq<Frame>, Outcome)
  {
    if link.good == 0 then ([], Failed)
    else if !hasBody then ([TextFrame(BuildRequest(reqLine, Some(headers), HAS_NO_BODY))], Done)
    else Prepend([TextFrame(BuildRequest(reqLine, Some(headers), BODY_PENDING))], Streamed(input, link.Used()))
  }

  /** What follows the head. */
  function Streamed(input: seq<BodyRead>, link: Link): (seq<Frame>, Outcome)
  {
    if input == [] then ([], Reading)
    else
      var r := input[0];
      if r.data != [] && link.good == 0 then ([], if !link.gone && r.end.More? then Swallowed else Failed)
      else
        var up := if r.data == [] then link else link.Used();
        Prepend(Forwarded(r),
          match r.end
          case More => Streamed(input[1..], up)
          case Fails => ([], Failed)
          case Eof => TailSent(up))
  }

  function TailSent(link: Link): (seq<Frame>, Outcome)
  {
    if link.good == 0 then ([], Failed) else ([TextFrame(BODY_ENDED)], Done)
  }

  // ---------- the response, connector to router ----------

  /** `text` is the status message; without an answer the request could not be made, got
      none or was aborted before it. The router's session is not nil. */
  method FireRequest(text: string, answered: bool, input: seq<BodyRead>, good: nat)
    returns (frames: seq<Frame>, outcome: Outcome)
    ensures (frames, outcome) == ResponseSent(text, answered, input, good)
  {
    if !answered {
      return CloseSent(good, false), Failed;
    }
    frames := if good > 0 then [TextFrame(text)] else [];
    ghost var head := frames;
    var left: nat := if good > 0 then good - 1 else 0;
    var i := 0;
    while i < |input|
      invariant i <= |input|
      invariant Prepend(frames, Served(input[i..], left)) == Prepend(head, Served(input, if good > 0 then good - 1 else 0))
    {
      var r := input[i];
      assert input[i..][0] == r && input[i..][1..] == input[i + 1..];
      ghost var before := frames;
      if r.data != [] {
        if left == 0 {
          assert frames + [] == frames;
          return frames, Failed;
        }
        frames, left := frames + [BinaryFrame(r.data)], left - 1;
        PrependTwice(before, Forwarded(r), Served(input[i + 1..], left));
      } else if r.end.Eof? {
        return frames + CloseSent(left, true), Done;
      } else if r.end.Fails? {
        return frames + CloseSent(left, false), Failed;
      }
      i := i + 1;
    }
    assert frames + [] == frames;
    return frames, Reading;
  }

  /** The close that the callback sends. */
  function CloseSent(good: nat, isSucceeded: bool): seq<Frame>
  {
    if good == 0 then [] else [CloseFrame(if isSucceeded then CLOSE_NORMAL else CLOSE_INTERNAL_SERVER_ERR)]
  }

  function ResponseSent(text: string, answered: bool, input: seq<BodyRead>, good: nat): (seq<Frame>, Outcome)
  {
    if !answered then (CloseSent(good, false), Failed)
    else Prepend(if good > 0 then [TextFrame(text)] else [], Served(input, if good > 0 then good - 1 else 0))
  }

  /** A successful write overwrites the error its read returned, so only a read without data
      ends the loop. */
  function Served(input: seq<BodyRead>, good: nat): (seq<Frame>, Outcome)
  {
    if input == [] then ([], Reading)
    else if input[0].data != [] then
      if good == 0 then ([], Failed) else Prepend(Forwarded(input[0]), Served(input[1..], good - 1))
    else
      match input[0].end
      case More => Served(input[1..], good)
      case Eof => (CloseSent(good, true), Done)
      case Fails => (CloseSent(good, false), Failed)
  }
}
