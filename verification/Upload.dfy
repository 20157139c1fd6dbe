/** A request body end to end: the sending loop of router/reverse_proxy.go, a FIFO of frames,
    the handlers of the connector socket. */
module Upload {
  import opened Text
  import opened CrankerProtocol
  import opened Frames
  import opened SendingLoops
  import C = ConnectorSocket
  import R = RouterSocket
  import Url

  /** `Stopped`: a read or a send failed. */
  datatype Sender = Ready | Streaming | Sent | Stopped

  /** `rest` is what the client's body has not yielded yet, `sent` every frame sent so far,
      `net` those not yet received, `delivered` the payload the connector has received. */
  datatype Upload = Upload(head: string, body: Bytes, sender: Sender, rest: Bytes,
                           sent: seq<Frame>, net: seq<Frame>, recv: C.Socket, delivered: Bytes)
  {
    function Send(f: Frame): Upload { this.(sent := sent + [f], net := net + [f]) }

    predicate HeadReceived() { recv.requested || recv.panicked }

    predicate HeadInFlight() { sent != [] && !HeadReceived() }

    predicate Closed() { recv.pipe.made && !recv.pipe.open }

    predicate TailInFlight() { sender == Sent && !Closed() }
  }

  datatype UploadEvent =
    | SendHead
    | SendChunk(n: nat)   // a read of n bytes, forwarded
    | SendTail            // the reader is at its end
    | SenderStops
    | Receive(taken: nat) // the connector handles the next frame

  function UploadStep(st: Upload, e: UploadEvent): Upload
  {
    match e
    case SendHead => if st.sender == Ready then st.(sender := Streaming).Send(TextFrame(st.head)) else st
    case SendChunk(n) =>
      if st.sender == Streaming && 0 < n <= |st.rest| then st.(rest := st.rest[n..]).Send(BinaryFrame(st.rest[..n])) else st
    case SendTail =>
      if st.sender == Streaming && st.rest == [] then st.(sender := Sent).Send(TextFrame(BODY_ENDED)) else st
    case SenderStops => if st.sender == Sent then st else st.(sender := Stopped)
    case Receive(taken) =>
      if st.net == [] || st.recv.panicked then st
      else
        var next := st.(net := st.net[1..]);
        match st.net[0]
        case TextFrame(msg) => next.(recv := st.recv.OnText(msg).0)
        case BinaryFrame(payload) => next.(recv := st.recv.OnBinary(payload, taken), delivered := st.delivered + payload)
        case CloseFrame(_) => next
  }

  function UploadRun(st: Upload, es: seq<UploadEvent>): Upload
    decreases |es|
  {
    if es == [] then st else UploadRun(UploadStep(st, es[0]), es[1..])
  }

  function UploadStart(head: string, body: Bytes): Upload
  {
    Upload(head, body, Ready, body, [], [], C.NEW_SOCKET.(session := true), [])
  }

  /** The head parses and announces a body; MarkerSurvives shows it of every head the
      router builds. */
  predicate AnnouncesBody(head: string)
  {
    ParseRequest(head).Some? && ParseRequest(head).value.BodyPending()
  }

  /** The destination the connector reads. */
  function HeadDest(head: string): string
    requires ParseRequest(head).Some?
  {
    ParseRequest(head).value.dest
  }

  /** Frames in flight: first the head, last the tail, in between nothing but chunks. */
  predicate InOrder(net: seq<Frame>, first: Option<Frame>, last: Option<Frame>)
  {
    var lo, hi := if first.Some? then 1 else 0, if last.Some? then |net| - 1 else |net|;
    && lo <= hi
    && (first.Some? ==> net[0] == first.value)
    && (last.Some? ==> net[hi] == last.value)
    && forall i :: lo <= i < hi ==> net[i].BinaryFrame?
  }

  lemma InOrderOne(f: Frame)
    ensures InOrder([f], Some(f), None)
  {
  }

  lemma InOrderChunk(net: seq<Frame>, first: Option<Frame>, payload: Bytes)
    requires InOrder(net, first, None)
    ensures InOrder(net + [BinaryFrame(payload)], first, None)
  {
  }

  lemma InOrderLast(net: seq<Frame>, first: Option<Frame>, f: Frame)
    requires InOrder(net, first, None)
    ensures InOrder(net + [f], first, Some(f))
  {
  }

  /** The first frame in flight is received. */
  lemma InOrderRest(net: seq<Frame>, first: Option<Frame>, last: Option<Frame>)
    requires InOrder(net, first, last) && net != []
    ensures first.Some? || net[0].BinaryFrame? || (last.Some? && |net| == 1 && net[0] == last.value)
    ensures first.Some? || (net[0].BinaryFrame? && last != Some(net[0])) ==> InOrder(net[1..], None, last)
    ensures |net| == 1 ==> InOrder(net[1..], None, None)
  {
  }

  /** The frames in flight are in order and, with what was delivered, make up the body. */
  predicate UploadWire(st: Upload)
  {
    && (st.sender == Ready ==> st.sent == []) && (st.sender == Streaming ==> st.sent != [])
    && (st.sender == Sent ==> st.sent != [] && st.rest == [])
    && (st.sent == [] ==> st.net == [] && !st.HeadReceived())
    && |st.net| <= |st.sent| && (st.HeadReceived() <==> |st.net| < |st.sent|)
    && (st.Closed() ==> st.sender == Sent && st.net == [])
    && InOrder(st.net, if st.HeadInFlight() then Some(TextFrame(st.head)) else None,
                       if st.TailInFlight() then Some(TextFrame(BODY_ENDED)) else None)
    && st.delivered + Payload(st.net) + st.rest == st.body
  }

  /** What the target reads. */
  predicate TargetSide(st: Upload)
  {
    && AnnouncesBody(st.head)
    && (st.recv.panicked ==> !st.recv.requested && !Url.Parses(HeadDest(st.head)))
    && (st.recv.requested ==> Url.Parses(HeadDest(st.head)))
    && (st.recv.requested <==> st.recv.pipe.made) && (st.recv.requested <==> st.recv.target.fired)
    && (!st.recv.requested ==> st.delivered == [])
    && (st.recv.pipe.made ==> Reads(st.recv.pipe, st.delivered))
  }

  predicate UploadInv(st: Upload) { UploadWire(st) && TargetSide(st) }

  lemma PayloadSnoc(net: seq<Frame>, f: Frame)
    ensures Payload(net + [f]) == Payload(net) + (if f.BinaryFrame? then f.payload else [])
  {
    PayloadConcat(net, [f]);
    assert Payload([f]) == (if f.BinaryFrame? then f.payload else []) + Payload([]);
  }

  lemma SendHeadKeeps(st: Upload)
    requires UploadWire(st)
    ensures UploadWire(UploadStep(st, SendHead))
  {
    PayloadSnoc(st.net, TextFrame(st.head));
  }

  lemma SendChunkKeeps(st: Upload, n: nat)
    requires UploadWire(st)
    ensures UploadWire(UploadStep(st, SendChunk(n)))
  {
    if 0 < n <= |st.rest| {
      PayloadSnoc(st.net, BinaryFrame(st.rest[..n]));
      assert st.delivered + (Payload(st.net) + st.rest[..n]) + st.rest[n..] == st.delivered + Payload(st.net) + st.rest;
    }
  }

  lemma SendTailKeeps(st: Upload)
    requires UploadWire(st)
    ensures UploadWire(UploadStep(st, SendTail))
  {
    PayloadSnoc(st.net, TextFrame(BODY_ENDED));
  }

  lemma SendKeeps(st: Upload, e: UploadEvent)
    requires UploadInv(st) && !e.Receive?
    ensures UploadInv(UploadStep(st, e))
  {
    match e
    case SendHead => SendHeadKeeps(st);
    case SendChunk(n) => SendChunkKeeps(st, n);
    case SendTail => SendTailKeeps(st);
    case SenderStops =>
  }

  /** What the next frame can be. */
  lemma NextSent(st: Upload)
    requires UploadInv(st) && st.net != []
    ensures !st.net[0].CloseFrame?
    ensures st.HeadInFlight() ==> st.net[0] == TextFrame(st.head)
    ensures !st.HeadInFlight() && st.net[0].TextFrame? ==> st.net == [TextFrame(BODY_ENDED)] && st.TailInFlight()
    ensures Payload(st.net) == (if st.net[0].BinaryFrame? then st.net[0].payload else []) + Payload(st.net[1..])
    ensures st.net[0].TextFrame? ==> Payload(st.net) == Payload(st.net[1..])
  {
  }

  lemma HeadHandled(s: C.Socket, head: string)
    requires AnnouncesBody(head) && !s.panicked && !s.requested && !s.pipe.made
    ensures var h := s.OnText(head).0;
            if Url.Parses(HeadDest(head)) then !h.panicked && h.requested && h.target.fired && h.pipe == C.Pipe(true, [], true, true)
            else h.panicked && !h.requested && h.target.fired == s.target.fired && !h.pipe.made
  {
  }

  lemma TailHandled(s: C.Socket)
    requires !s.panicked && s.requested && s.pipe.made
    ensures s.OnText(BODY_ENDED).0 == s.(pipe := s.pipe.(open := false))
  {
  }

  /** The target has read a prefix of what was delivered, all of it while it reads. */
  predicate Reads(p: C.Pipe, delivered: Bytes)
  {
    p.content <= delivered && (p.reading ==> p.content == delivered)
  }

  lemma ChunkHandled(s: C.Socket, payload: Bytes, taken: nat, delivered: Bytes)
    requires s.pipe.made && s.pipe.open && Reads(s.pipe, delivered)
    ensures var b := s.OnBinary(payload, taken);
            && b == s.(pipe := b.pipe) && b.pipe.made && b.pipe.open
            && Reads(b.pipe, delivered + payload)
  {
    WriteRead(s.pipe, payload, taken, delivered);
  }

  lemma WriteRead(p: C.Pipe, payload: Bytes, taken: nat, delivered: Bytes)
    requires p.open && Reads(p, delivered)
    ensures p.Write(payload, taken).open && Reads(p.Write(payload, taken), delivered + payload)
    ensures p.reading && taken < |payload| ==> p.Write(payload, taken) == p.(content := p.content + payload[..taken], reading := false)
    ensures taken >= |payload| ==> p.Write(payload, taken).reading == p.reading
  {
    var all := delivered + payload;
    assert delivered <= all;
    if p.reading && taken < |payload| {
      assert p.content + payload[..taken] <= all;
    }
  }

  lemma ReceiveHead(st: Upload, taken: nat)
    requires UploadInv(st) && st.net != [] && !st.recv.panicked && st.HeadInFlight()
    ensures UploadInv(UploadStep(st, Receive(taken)))
  {
    NextSent(st);
    HeadHandled(st.recv, st.head);
    var h := st.recv.OnText(st.head).0;
    var st' := st.(net := st.net[1..], recv := h);
    HeadGone(st, h);
    assert UploadStep(st, Receive(taken)) == st';
  }

  /** The head has left the wire and was taken or has killed the connector. */
  lemma HeadGone(st: Upload, h: C.Socket)
    requires UploadInv(st) && st.net != [] && st.HeadInFlight() && !st.Closed()
    requires st.net[0] == TextFrame(st.head) && Payload(st.net) == Payload(st.net[1..])
    requires if Url.Parses(HeadDest(st.head)) then !h.panicked && h.requested && h.target.fired && h.pipe == C.Pipe(true, [], true, true)
             else h.panicked && !h.requested && h.target.fired == st.recv.target.fired && !h.pipe.made
    ensures UploadInv(st.(net := st.net[1..], recv := h))
  {
    InOrderRest(st.net, Some(TextFrame(st.head)), if st.TailInFlight() then Some(TextFrame(BODY_ENDED)) else None);
  }

  lemma ReceiveTail(st: Upload, taken: nat)
    requires UploadInv(st) && st.net != [] && !st.recv.panicked && !st.HeadInFlight() && st.net[0].TextFrame?
    ensures UploadInv(UploadStep(st, Receive(taken)))
  {
    NextSent(st);
    TailHandled(st.recv);
  }

  lemma ReceiveChunk(st: Upload, taken: nat)
    requires UploadInv(st) && st.net != [] && !st.recv.panicked && st.net[0].BinaryFrame?
    ensures UploadInv(UploadStep(st, Receive(taken)))
  {
    NextSent(st);
    ChunkHandled(st.recv, st.net[0].payload, taken, st.delivered);
    var b := st.recv.OnBinary(st.net[0].payload, taken);
    ChunkGone(st, b);
    assert UploadStep(st, Receive(taken)) == st.(net := st.net[1..], recv := b, delivered := st.delivered + st.net[0].payload);
  }

  lemma ChunkGone(st: Upload, b: C.Socket)
    requires UploadInv(st) && st.net != [] && st.net[0].BinaryFrame? && !st.HeadInFlight()
    requires b == st.recv.(pipe := b.pipe) && st.recv.requested && b.pipe.made && b.pipe.open && !st.Closed()
    requires Reads(b.pipe, st.delivered + st.net[0].payload)
    ensures UploadInv(st.(net := st.net[1..], recv := b, delivered := st.delivered + st.net[0].payload))
  {
    InOrderRest(st.net, None, if st.TailInFlight() then Some(TextFrame(BODY_ENDED)) else None);
    assert Payload(st.net) == st.net[0].payload + Payload(st.net[1..]);
    assert st.delivered + st.net[0].payload + Payload(st.net[1..]) == st.delivered + Payload(st.net);
  }

  lemma ReceiveKeeps(st: Upload, taken: nat)
    requires UploadInv(st)
    ensures UploadInv(UploadStep(st, Receive(taken)))
  {
    if st.net != [] && !st.recv.panicked {
      NextSent(st);
      if st.HeadInFlight() {
        ReceiveHead(st, taken);
      } else if st.net[0].TextFrame? {
        ReceiveTail(st, taken);
      } else {
        ReceiveChunk(st, taken);
      }
    }
  }

  lemma {:induction false} UploadRunKeeps(st: Upload, es: seq<UploadEvent>)
    requires UploadInv(st)
    ensures UploadInv(UploadRun(st, es))
    decreases |es|
  {
    if es == [] {
    } else {
      if es[0].Receive? { ReceiveKeeps(st, es[0].taken); } else { SendKeeps(st, es[0]); }
      UploadRunKeeps(UploadStep(st, es[0]), es[1..]);
    }
  }

  /** For every head the router can build, every body, every chunking and every
      interleaving: the connector panics if and only if it has received the head and url.Parse
      rejects the destination; a chunk that is handled finds an open pipe, what the target
      reads is a prefix of the body, and a closed pipe has carried the whole body. When
      everything sent has arrived, the pipe is closed. */
  lemma UploadDelivers(httpMethod: string, path: string, rawQuery: string, headers: string, body: Bytes, es: seq<UploadEvent>)
    requires '\n' !in httpMethod
    ensures var head := BuildRequest(CreateReqLine(httpMethod, path, rawQuery), Some(headers), BODY_PENDING);
            var st := UploadRun(UploadStart(head, body), es);
            && ParseRequest(head).Some?
            && (st.recv.panicked <==> |st.net| < |st.sent| && !Url.Parses(HeadDest(head)))
            && (st.net != [] && st.net[0].BinaryFrame? && !st.recv.panicked ==> st.recv.pipe.made && st.recv.pipe.open)
            && (st.recv.requested <==> st.recv.target.fired)
            && (st.recv.pipe.made ==> st.recv.pipe.content <= body)
            && (st.Closed() ==> st.delivered == body && (st.recv.pipe.reading ==> st.recv.pipe.content == body))
            && (st.sender == Sent && st.net == [] ==> st.Closed())
  {
    var head := BuildRequest(CreateReqLine(httpMethod, path, rawQuery), Some(headers), BODY_PENDING);
    MarkerSurvives(httpMethod, path, rawQuery, headers, BODY_PENDING);
    UploadRunKeeps(UploadStart(head, body), es);
    var st := UploadRun(UploadStart(head, body), es);
    FixedParts(UploadStart(head, body), es);
    if st.Closed() { assert st.delivered + [] + [] == body; }
  }

  /** The target takes at least `n` bytes of every write. */
  predicate Eager(es: seq<UploadEvent>, n: nat) { forall i :: 0 <= i < |es| && es[i].Receive? ==> es[i].taken >= n }

  lemma StepReadsOn(st: Upload, e: UploadEvent)
    requires UploadInv(st) && (st.recv.pipe.made ==> st.recv.pipe.reading)
    requires e.Receive? ==> e.taken >= |st.body|
    ensures var p := UploadStep(st, e).recv.pipe; p.made ==> p.reading
  {
    if e.Receive? && st.net != [] && !st.recv.panicked {
      NextSent(st);
      if st.HeadInFlight() {
        HeadHandled(st.recv, st.head);
      } else if st.net[0].TextFrame? {
        TailHandled(st.recv);
      } else {
        ShorterThanBody(st);
        WriteRead(st.recv.pipe, st.net[0].payload, e.taken, st.delivered);
      }
    }
  }

  lemma ShorterThanBody(st: Upload)
    requires UploadWire(st) && st.net != [] && st.net[0].BinaryFrame?
    ensures |st.net[0].payload| <= |st.body|
  {
    assert Payload(st.net) == st.net[0].payload + Payload(st.net[1..]);
    assert |st.delivered + Payload(st.net) + st.rest| == |st.delivered| + |Payload(st.net)| + |st.rest|;
  }

  lemma {:induction false} ReadsOn(st: Upload, es: seq<UploadEvent>)
    requires UploadInv(st) && (st.recv.pipe.made ==> st.recv.pipe.reading) && Eager(es, |st.body|)
    ensures var p := UploadRun(st, es).recv.pipe; p.made ==> p.reading
    decreases |es|
  {
    if es == [] {
    } else {
      StepReadsOn(st, es[0]);
      if es[0].Receive? { ReceiveKeeps(st, es[0].taken); } else { SendKeeps(st, es[0]); }
      SameBody(st, es[0]);
      ReadsOn(UploadStep(st, es[0]), es[1..]);
    }
  }

  lemma SameBody(st: Upload, e: UploadEvent)
    ensures UploadStep(st, e).body == st.body
  {
  }

  /** A target that takes every write whole has read the whole body when the pipe is closed. */
  lemma EagerTargetReadsAll(httpMethod: string, path: string, rawQuery: string, headers: string, body: Bytes, es: seq<UploadEvent>)
    requires '\n' !in httpMethod && Eager(es, |body|)
    ensures var head := BuildRequest(CreateReqLine(httpMethod, path, rawQuery), Some(headers), BODY_PENDING);
            var st := UploadRun(UploadStart(head, body), es);
            st.Closed() ==> st.recv.pipe.content == body
  {
    var head := BuildRequest(CreateReqLine(httpMethod, path, rawQuery), Some(headers), BODY_PENDING);
    MarkerSurvives(httpMethod, path, rawQuery, headers, BODY_PENDING);
    ReadsOn(UploadStart(head, body), es);
    UploadDelivers(httpMethod, path, rawQuery, headers, body, es);
  }

  /** When the head arrives, in terms of what the client asked for: the destination is the
      decoded path and the query, cut at the first newline or space. */
  lemma HeadPanicsIff(httpMethod: string, path: string, rawQuery: string, headers: string, marker: string)
    requires Token(httpMethod) && marker in [BODY_PENDING, HAS_NO_BODY]
    ensures var head := BuildRequest(CreateReqLine(httpMethod, path, rawQuery), Some(headers), marker);
            C.NEW_SOCKET.OnText(head).0.panicked <==> !Url.Parses(Destination(RequestUri(path, rawQuery)))
  {
    HeadDestination(httpMethod, path, rawQuery, headers, marker);
  }

  /** A client's `/%25zz` is decoded to `/%zz`, which url.Parse rejects. */
  lemma DecodedEscapePanics(httpMethod: string, headers: string, marker: string)
    requires Token(httpMethod) && marker in [BODY_PENDING, HAS_NO_BODY]
    ensures C.NEW_SOCKET.OnText(BuildRequest(CreateReqLine(httpMethod, "/%zz", ""), Some(headers), marker)).0.panicked
  {
    var uri := RequestUri("/%zz", "");
    assert uri == "/%zz" && Token(uri);
    DestinationWholeIff(uri);
    HeadPanicsIff(httpMethod, "/%zz", "", headers, marker);
    BadEscape();
  }

  lemma BadEscape()
    ensures !Url.Parses("/%zz")
  {
    var raw := "/%zz";
    assert raw[1] == '%' && !Url.EscapeAt(raw, 1);
    assert !Url.WellEscaped(raw);
    assert Url.Cut(raw, '#').0 == raw && Url.Cut(raw, '?').0 == raw;
    Url.PathParsesIff(raw);
  }

  lemma {:induction false} FixedParts(st: Upload, es: seq<UploadEvent>)
    ensures UploadRun(st, es).head == st.head && UploadRun(st, es).body == st.body
    decreases |es|
  {
    if es == [] {
    } else {
      FixedParts(UploadStep(st, es[0]), es[1..]);
    }
  }

  // ---------- the loop is the machine's sender ----------

  /** The data read are what the client's body yields next, and it ends where the body does. */
  predicate Yields(rest: Bytes, input: seq<BodyRead>)
  {
    input == [] ||
    var r := input[0];
    && r.data <= rest
    && match r.end
       case More => Yields(rest[|r.data|..], input[1..])
       case Eof => r.data == rest
       case Fails => true
  }

  function SenderAfter(o: Outcome): Sender
  {
    match o
    case Reading => Streaming
    case Done => Sent
    case Failed => Stopped
    case Swallowed => Stopped
  }

  function SendScript(input: seq<BodyRead>, link: Link): seq<UploadEvent>
  {
    if input == [] then []
    else
      var r := input[0];
      if r.data != [] && link.good == 0 then [SenderStops]
      else
        var up := if r.data == [] then link else link.Used();
        (if r.data == [] then [] else [SendChunk(|r.data|)]) +
        match r.end
        case More => SendScript(input[1..], up)
        case Fails => [SenderStops]
        case Eof => [if up.good == 0 then SenderStops else SendTail]
  }

  /** `st` with more frames sent. */
  predicate SentMore(st: Upload, end: Upload, frames: seq<Frame>, sender: Sender)
  {
    end.sent == st.sent + frames && end.net == st.net + frames && end.sender == sender
  }

  /** For every way the reads and writes go, the frames of the loop and how it is left are
      those of the machine's sender. */
  lemma {:induction false} LoopIsSender(st: Upload, input: seq<BodyRead>, link: Link)
    requires st.sender == Streaming && Yields(st.rest, input)
    ensures var (frames, o) := Streamed(input, link);
            SentMore(st, UploadRun(st, SendScript(input, link)), frames, SenderAfter(o))
    decreases |input|
  {
    if input == [] {
      assert st.sent + [] == st.sent && st.net + [] == st.net;
    } else if input[0].data != [] && link.good == 0 {
      OneEvent(st, SenderStops);
      assert st.sent + [] == st.sent && st.net + [] == st.net;
    } else {
      var r := input[0];
      var up := if r.data == [] then link else link.Used();
      var st' := if r.data == [] then st else UploadStep(st, SendChunk(|r.data|));
      assert st'.rest == st.rest[|r.data|..] && st.rest[..|r.data|] == r.data;
      assert st.sent + [] == st.sent && st.net + [] == st.net;
      AfterChunk(st', input, up);
      var tail := if r.end.More? then SendScript(input[1..], up) else [LastEvent(r, up)];
      assert UploadRun(st, SendScript(input, link)) == UploadRun(st', tail) by {
        var script := SendScript(input, link);
        if r.data == [] { assert script == tail; } else { assert script[1..] == tail; }
      }
      SentTwice(st, st', UploadRun(st', tail), Forwarded(r), AfterRead(r, input[1..], up).0, SenderAfter(AfterRead(r, input[1..], up).1));
    }
  }

  function LastEvent(r: BodyRead, up: Link): UploadEvent
  {
    if r.end.Eof? && up.good > 0 then SendTail else SenderStops
  }

  /** What the loop does after forwarding the data of `r`. */
  function AfterRead(r: BodyRead, more: seq<BodyRead>, up: Link): (seq<Frame>, Outcome)
  {
    match r.end
    case More => Streamed(more, up)
    case Fails => ([], Failed)
    case Eof => TailSent(up)
  }

  lemma {:induction false} AfterChunk(st: Upload, input: seq<BodyRead>, up: Link)
    requires input != [] && st.sender == Streaming
    requires match input[0].end case More => Yields(st.rest, input[1..]) case Eof => st.rest == [] case Fails => true
    ensures var r := input[0];
            var tail := if r.end.More? then SendScript(input[1..], up) else [LastEvent(r, up)];
            var (frames, o) := AfterRead(r, input[1..], up);
            SentMore(st, UploadRun(st, tail), frames, SenderAfter(o))
    decreases |input|, 0
  {
    if input[0].end.More? {
      LoopIsSender(st, input[1..], up);
    } else {
      OneEvent(st, LastEvent(input[0], up));
      assert st.sent + [] == st.sent && st.net + [] == st.net;
    }
  }

  lemma OneEvent(st: Upload, e: UploadEvent)
    ensures UploadRun(st, [e]) == UploadStep(st, e)
  {
    assert [e][1..] == [];
  }

  lemma SentTwice(st: Upload, mid: Upload, end: Upload, a: seq<Frame>, b: seq<Frame>, sender: Sender)
    requires mid.sent == st.sent + a && mid.net == st.net + a && SentMore(mid, end, b, sender)
    ensures SentMore(st, end, a + b, sender)
  {
    assert st.sent + (a + b) == st.sent + a + b && st.net + (a + b) == st.net + a + b;
  }

  /** The message that opens a request on the wire. */
  function Opening(httpMethod: string, path: string, rawQuery: string, headers: string, marker: string): string
  {
    httpMethod + " " + path + (if rawQuery != "" then "?" + rawQuery else "") + " HTTP/1.1\n" + headers + "\n" + marker
  }

  lemma OpeningIsBuilt(httpMethod: string, path: string, rawQuery: string, headers: string, marker: string)
    ensures BuildRequest(CreateReqLine(httpMethod, path, rawQuery), Some(headers), marker)
         == Opening(httpMethod, path, rawQuery, headers, marker)
  {
    var line := CreateReqLine(httpMethod, path, rawQuery);
    assert " HTTP/1.1\n" == " HTTP/1.1" + "\n";
    assert line != "" by { assert |line| >= |" HTTP/1.1"|; }
  }

  /** The whole of `sendRequestOverWebsocket` with a body: its frames are those of the machine
      that first sends a head ending in "_1". */
  lemma RequestIsSender(httpMethod: string, path: string, rawQuery: string, headers: string, body: Bytes,
                        input: seq<BodyRead>, link: Link)
    requires Yields(body, input)
    ensures var (frames, o) := RequestSent(CreateReqLine(httpMethod, path, rawQuery), headers, true, input, link);
            var start := UploadStart(Opening(httpMethod, path, rawQuery, headers, "_1"), body);
            if link.good == 0 then frames == [] && o == Failed
            else
              var end := UploadRun(start, [SendHead] + SendScript(input, link.Used()));
              end.sent == frames && end.sender == SenderAfter(o)
  {
    if link.good > 0 {
      var head := Opening(httpMethod, path, rawQuery, headers, "_1");
      OpeningIsBuilt(httpMethod, path, rawQuery, headers, "_1");
      var start := UploadStart(head, body);
      var st := UploadStep(start, SendHead);
      var script := SendScript(input, link.Used());
      assert ([SendHead] + script)[1..] == script;
      LoopIsSender(st, input, link.Used());
      assert st.sent == [TextFrame(head)];
    }
  }

  /** What the connector reads from the head. */
  lemma HeadParses(httpMethod: string, path: string, rawQuery: string, headers: seq<(string, string)>, marker: string)
    requires Token(httpMethod) && CleanHeaders(headers) && marker in ["_1", "_2"]
    ensures var lines := Split(CreateReqLine(httpMethod, path, rawQuery), '\n');
            ParseRequest(Opening(httpMethod, path, rawQuery, HeaderText(headers), marker))
            == Some(Request(httpMethod, Destination(RequestUri(path, rawQuery)),
                            lines[1..] + HeaderLines(headers) + [""], marker, lines[0]))
  {
    OpeningIsBuilt(httpMethod, path, rawQuery, HeaderText(headers), marker);
    BuilderRoundTrip(httpMethod, path, rawQuery, headers, marker);
  }

  // ---------- the loop is the request goroutine of the router socket ----------

  /** The same loop as events of the router socket; a nil session was closed by the farm. */
  function Killed(link: Link): seq<R.Event> { if link.gone then [R.FarmStop] else [] }

  function RouterScript(input: seq<BodyRead>, link: Link, timeout: bool): seq<R.Event>
  {
    if input == [] then []
    else
      var r := input[0];
      if r.data != [] && link.good == 0 then Killed(link) + [R.SendData(false, !r.end.More?, timeout)]
      else
        var up := if r.data == [] then link else link.Used();
        (if r.data == [] then [] else [R.SendData(true, !r.end.More?, timeout)]) + RouterRest(r, input[1..], up, timeout)
  }

  function RouterRest(r: BodyRead, more: seq<BodyRead>, up: Link, timeout: bool): seq<R.Event>
    decreases more
  {
    match r.end
    case More => RouterScript(more, up, timeout)
    case Fails => [R.ReadBodyFails(timeout)]
    case Eof => if up.good == 0 then Killed(up) + [R.SendText(false, timeout)] else [R.SendText(true, timeout), R.AllSent]
  }

  /** The request goroutine is sending the body on a live socket. */
  predicate SendingBody(st: R.Sys)
  {
    R.Inv(st) && !st.sock.panicked && st.sock.session && st.sock.handleDone && st.request == R.Sending(true)
  }

  /** How the loop is left decides whether the client's wait is released. */
  predicate LeftAs(end: R.Sys, o: Outcome)
  {
    && (o == Reading <==> end.request == R.Sending(true))
    && (o != Reading ==> end.request == R.Waiting)
    && (o == Failed <==> end.sock.dones == 1)
  }

  lemma FailedEvent(st: R.Sys, link: Link, e: R.Event)
    requires SendingBody(st)
    requires e.SendData? || e.SendText?
    requires !e.ok
    ensures var o := if e.SendData? && !e.readErr && !link.gone then Swallowed else Failed;
            LeftAs(R.Run(st, Killed(link) + [e]), o)
  {
    var st' := if link.gone then R.Step(st, R.FarmStop) else st;
    assert Killed(link) + [e] == if link.gone then [R.FarmStop, e] else [e];
    assert [R.FarmStop, e][1..] == [e] && [e][1..] == [];
    assert R.Run(st', [e]) == R.Step(st', e);
  }

  /** The outcome of the loop is what the request goroutine of the router socket does: the
      wait is released by a failed send or read, and by no other way to leave the loop. */
  lemma {:induction false} LoopIsRequest(st: R.Sys, input: seq<BodyRead>, link: Link, timeout: bool)
    requires SendingBody(st)
    ensures LeftAs(R.Run(st, RouterScript(input, link, timeout)), Streamed(input, link).1)
    decreases |input|
  {
    if input == [] {
    } else if input[0].data != [] && link.good == 0 {
      FailedEvent(st, link, R.SendData(false, !input[0].end.More?, timeout));
    } else {
      var r := input[0];
      var up := if r.data == [] then link else link.Used();
      var rest := RouterRest(r, input[1..], up, timeout);
      var script := RouterScript(input, link, timeout);
      if r.data == [] { assert script == rest; } else { assert script[1..] == rest; }
      assert R.Run(st, script) == R.Run(st, rest);
      match r.end
      case More => LoopIsRequest(st, input[1..], up, timeout);
      case Fails =>
        assert rest[1..] == [];
        assert R.Run(st, rest) == R.Run(R.Step(st, rest[0]), []) == R.Step(st, rest[0]);
      case Eof =>
        if up.good == 0 {
          FailedEvent(st, up, R.SendText(false, timeout));
        } else {
          assert rest[1..] == [R.AllSent] && [R.AllSent][1..] == [];
          assert R.Step(st, rest[0]) == st;
          assert R.Run(st, [R.AllSent]) == R.Run(R.Step(st, R.AllSent), []);
        }
    }
  }

  function RequestScript(hasBody: bool, input: seq<BodyRead>, link: Link, timeout: bool): seq<R.Event>
  {
    [R.Set] +
    if link.good == 0 then Killed(link) + [R.SendText(false, timeout)]
    else [R.SendText(true, timeout)] + if hasBody then RouterScript(input, link.Used(), timeout) else [R.AllSent]
  }

  /** `sendRequestOverWebsocket` as a whole, from the socket's registration on. */
  lemma RequestReleasesIffFailed(reqLine: string, headers: string, hasBody: bool, input: seq<BodyRead>, link: Link, timeout: bool)
    ensures LeftAs(R.Run(R.START, RequestScript(hasBody, input, link, timeout)),
                   RequestSent(reqLine, headers, hasBody, input, link).1)
  {
    var script := RequestScript(hasBody, input, link, timeout);
    var taken := R.Step(R.START, R.Set);
    if link.good == 0 {
      assert script[1..] == Killed(link) + [R.SendText(false, timeout)];
      HeadFails(taken, link, timeout);
    } else {
      var rest := if hasBody then RouterScript(input, link.Used(), timeout) else [R.AllSent];
      var sending := R.Step(taken, R.SendText(true, timeout));
      assert script[1..] == [R.SendText(true, timeout)] + rest && script[1..][1..] == rest;
      assert R.Run(R.START, script) == R.Run(taken, script[1..]) == R.Run(sending, rest);
      if hasBody {
        LoopIsRequest(sending, input, link.Used(), timeout);
      } else {
        assert [R.AllSent][1..] == [];
        assert R.Run(sending, rest) == R.Step(sending, R.AllSent);
      }
    }
  }

  lemma HeadFails(st: R.Sys, link: Link, timeout: bool)
    requires st == R.Step(R.START, R.Set)
    ensures LeftAs(R.Run(st, Killed(link) + [R.SendText(false, timeout)]), Failed)
  {
    var e := R.SendText(false, timeout);
    var st' := if link.gone then R.Step(st, R.FarmStop) else st;
    assert Killed(link) + [e] == if link.gone then [R.FarmStop, e] else [e];
    assert [R.FarmStop, e][1..] == [e] && [e][1..] == [];
    assert R.Run(st', [e]) == R.Step(st', e);
  }

  /** A request without a body: one text, which starts the target request without a pipe
      unless the destination does not parse. */
  lemma NoBodyUpload(httpMethod: string, path: string, rawQuery: string, headers: string, input: seq<BodyRead>, link: Link)
    requires '\n' !in httpMethod && link.good > 0
    ensures var (frames, o) := RequestSent(CreateReqLine(httpMethod, path, rawQuery), headers, false, input, link);
            && o == Done && frames == [TextFrame(Opening(httpMethod, path, rawQuery, headers, "_2"))]
            && ParseRequest(frames[0].msg).Some?
            && var s := C.NEW_SOCKET.(session := true).OnText(frames[0].msg).0;
               && (s.panicked <==> !Url.Parses(HeadDest(frames[0].msg)))
               && (s.target.fired <==> !s.panicked) && !s.pipe.made
  {
    MarkerSurvives(httpMethod, path, rawQuery, headers, HAS_NO_BODY);
    OpeningIsBuilt(httpMethod, path, rawQuery, headers, HAS_NO_BODY);
  }
}
