/** A target response end to end: the streaming loop of connector/intermediate_request.go, a
    FIFO of frames, the reader and the request goroutine of the router socket. */
module Download {
  import opened Text
  import opened CrankerProtocol
  import opened Frames
  import opened SendingLoops
  import opened Upload
  import R = RouterSocket

  // ---------- response, interleaved ----------

  const CLOSE_ABNORMAL := 1006  // the connection ended without a close frame

  /** How the router's reader ended. */
  datatype Ending = ByClose(statusCode: int) | ByError(timeout: bool)

  /** What the client is left with when its handler returns. */
  datatype Answer = Answer(client: R.Client, ended: Option<Ending>, clientGone: bool)

  /** `headSent`, `closeSent`: what the connector has put on the wire besides chunks;
      `broken`: its writes fail from now on; `sendFailed`: a send or a read of the request
      failed and was handled. */
  datatype Download = Download(text: string, status: int, body: Bytes, target: Sender, rest: Bytes,
                               broken: bool, headSent: bool, closeSent: Option<int>, net: seq<Frame>,
                               router: R.Sys, received: nat, delivered: Bytes, ended: Option<Ending>, clientGone: bool,
                               sendFailed: bool, answer: Option<Answer>)
  {
    function Send(f: Frame): Download { if broken then this else this.(net := net + [f]) }

    function SendClose(code: int): Download
    {
      if broken then this else this.(net := net + [CloseFrame(code)], closeSent := Some(code))
    }

    predicate HeadInFlight() { headSent && received == 0 }

    /** Its close frame was received. */
    predicate Closed() { ended.Some? && ended.value.ByClose? && ended.value.statusCode != CLOSE_ABNORMAL }

    function CloseInFlight(): Option<Frame>
    {
      if Closed() || closeSent.None? then None else Some(CloseFrame(closeSent.value))
    }

    function Client(): R.Client
      requires router.sock.client.Some?
    {
      router.sock.client.value
    }

    function Read(e: R.Event): Download { this.(router := R.Step(router, e)) }

    /** The request goroutine goes on; when it returns, the answer is what was written. */
    function Requests(e: R.Event): Download
    {
      var st := this.(router := R.Step(router, e), sendFailed := sendFailed || R.FailsHandled(router, e));
      if st.router.request == R.Returned && router.request != R.Returned && st.router.sock.client.Some? then
        st.(answer := Some(Answer(st.Client(), ended, clientGone)))
      else st
    }
  }

  /** Events of the request goroutine, and of others that close the session. */
  predicate NotReader(e: R.Event) { !e.Text? && !e.Binary? && !e.Close? && !e.Error? }

  datatype DownloadEvent =
    | Begin | Chunk(n: nat) | End  // the target answers, its body is read, its body ends
    | Fail                         // the target request or a read fails
    | LinkDies                     // from now on the connector's writes fail
    | ClientLeaves                 // from now on writes to the client fail
    | Handle                       // the router's reader handles the next frame
    | ReaderDrops                  // it finds the connection ended without a close frame
    | ReaderFails(timeout: bool)   // it fails otherwise
    | RequestDoes(e: R.Event)      // the request goroutine, a failing ping or a stopping farm

  function ConnectorStep(st: Download, e: DownloadEvent): Download
  {
    match e
    case Begin =>
      if st.target == Ready then st.(target := Streaming, headSent := !st.broken).Send(TextFrame(st.text)) else st
    case Chunk(n) =>
      if st.target != Streaming || n == 0 || n > |st.rest| then st
      else if st.broken then st.(target := Stopped)
      else st.(rest := st.rest[n..]).Send(BinaryFrame(st.rest[..n]))
    case End => if st.target == Streaming && st.rest == [] then st.(target := Sent).SendClose(CLOSE_NORMAL) else st
    case Fail =>
      if st.target == Ready || st.target == Streaming then st.(target := Stopped).SendClose(CLOSE_INTERNAL_SERVER_ERR) else st
    case LinkDies => st.(broken := true)
    case _ => st
  }

  /** The next frame leaves the wire. */
  function Taken(st: Download): Download
    requires st.net != []
  {
    var f := st.net[0];
    st.(net := st.net[1..], received := st.received + 1,
        delivered := if f.BinaryFrame? then st.delivered + f.payload else st.delivered,
        ended := if f.CloseFrame? then Some(ByClose(f.statusCode)) else st.ended)
  }

  /** What the reader does with it. */
  function Reading(f: Frame, writeOk: bool): R.Event
  {
    match f
    case TextFrame(msg) => R.Text(msg)
    case BinaryFrame(buf) => R.Binary(buf, writeOk)
    case CloseFrame(code) => R.Close(code)
  }

  predicate Reads(st: Download) { st.ended.None? && !st.router.sock.panicked }

  function DownloadStep(st: Download, e: DownloadEvent): Download
  {
    match e
    case Handle => if Reads(st) && st.net != [] then Taken(st).Read(Reading(st.net[0], !st.clientGone)) else st
    case ReaderDrops => if Reads(st) then st.(ended := Some(ByClose(CLOSE_ABNORMAL))).Read(R.Close(CLOSE_ABNORMAL)) else st
    case ReaderFails(timeout) => if Reads(st) then st.(ended := Some(ByError(timeout))).Read(R.Error(timeout)) else st
    case RequestDoes(e) => if NotReader(e) && !st.router.sock.panicked then st.Requests(e) else st
    case ClientLeaves => st.(clientGone := true)
    case _ => ConnectorStep(st, e)
  }

  function DownloadRun(st: Download, es: seq<DownloadEvent>): Download
    decreases |es|
  {
    if es == [] then st else DownloadRun(DownloadStep(st, es[0]), es[1..])
  }

  /** A request has taken the socket. */
  function DownloadStart(text: string, status: int, body: Bytes): Download
  {
    Download(text, status, body, Ready, body, false, false, None, [], R.Step(R.START, R.Set), 0, [], None, false, false, None)
  }

  /** What the connector has sent so far. */
  predicate Stage(st: Download)
  {
    && (st.target == Ready ==> !st.headSent && st.net == [] && st.closeSent.None?)
    && (st.target == Streaming ==> st.closeSent.None?)
    && (st.target == Streaming || st.target == Sent ==> st.headSent || st.broken)
    && (st.target == Sent ==> st.rest == [])
    && (st.delivered != [] ==> st.headSent && st.received > 0)
    && (st.closeSent.Some? ==> st.closeSent.value in {CLOSE_NORMAL, CLOSE_INTERNAL_SERVER_ERR}
                               && (st.closeSent.value == CLOSE_NORMAL ==> st.target == Sent && st.headSent)
                               && (st.closeSent.value == CLOSE_INTERNAL_SERVER_ERR ==> st.target == Stopped))
  }

  /** What the router has received is what was sent first. */
  predicate Received(st: Download)
  {
    && (!st.headSent ==> |st.net| == (if st.CloseInFlight().Some? then 1 else 0))
    && (!st.headSent && !st.Closed() ==> st.received == 0)
    && (st.Closed() ==> st.net == [] && st.closeSent == Some(st.ended.value.statusCode) && st.received > 0)
  }

  predicate Ordered(st: Download)
  {
    InOrder(st.net, if st.HeadInFlight() then Some(TextFrame(st.text)) else None, st.CloseInFlight())
  }

  predicate Conserved(st: Download) { st.delivered + Payload(st.net) + st.rest == st.body }

  /** The frames in flight are in order and, with what was delivered, make up the body. */
  predicate Wire(st: Download) { Received(st) && Ordered(st) && Conserved(st) }

  /** The status the client has been sent, if no send failed. */
  function StatusNow(st: Download): Option<int>
  {
    if st.headSent && st.received > 0 then Some(st.status)
    else if st.ended.None? then None
    else
      match st.ended.value
      case ByError(timeout) => Some(if timeout then 504 else 502)
      case ByClose(code) => if code == CLOSE_INTERNAL_SERVER_ERR then Some(502) else None
  }

  predicate EndedByError(ended: Option<Ending>) { ended.Some? && ended.value.ByError? }

  /** What the client has been sent so far. */
  predicate ClientSide(st: Download)
  {
    && ParseResponse(st.text).Some? && ParseResponse(st.text).value.status == st.status
    && !st.router.sock.panicked && st.router.sock.client.Some?
    && (!st.sendFailed ==> st.Client().status == StatusNow(st))
    && st.Client().body <= st.delivered
    && (!st.clientGone ==> st.Client().body == st.delivered)
    && (st.Client().errorPage <==> st.sendFailed || EndedByError(st.ended))
  }

  /** Whether its request is released. */
  predicate ReleaseSide(st: Download)
  {
    && R.Inv(st.router) && st.router.request != R.Before
    && (st.router.readerEnded <==> st.ended.Some?)
    && (st.sendFailed ==> st.router.request == R.Waiting || st.router.request == R.Returned)
    && (st.sendFailed || st.ended.Some? ==> !st.router.sock.handleDone)
    && (!st.sendFailed && st.ended.None? && !st.clientGone ==> st.router.sock.handleDone)
  }

  predicate Whole(st: Download, c: R.Client) { c == R.Client(Some(st.status), st.body, false) }

  /** What an answer says about the target's response. */
  predicate AnswerOk(st: Download, a: Answer)
  {
    && a.client.body <= st.body
    && (a.client.errorPage <==> st.sendFailed || EndedByError(a.ended))
    && (a.ended.None? && !a.clientGone ==> st.sendFailed)
    && (a.ended == Some(ByClose(CLOSE_NORMAL)) && !a.clientGone ==> (Whole(st, a.client) <==> !st.sendFailed))
  }

  predicate AnswerSide(st: Download)
  {
    && (st.answer.Some? <==> st.router.request == R.Returned)
    && (st.answer.Some? ==> AnswerOk(st, st.answer.value))
  }

  predicate DownloadInv(st: Download)
  {
    WireOk(st) && ClientSide(st) && ReleaseSide(st) && AnswerSide(st)
  }

  // ---------- the wire ----------

  predicate WireOk(st: Download) { Stage(st) && Wire(st) }

  /** What the next frame can be. */
  lemma NextFrame(st: Download)
    requires WireOk(st) && st.net != []
    ensures !st.Closed()
    ensures st.net[0].TextFrame? ==> st.HeadInFlight() && st.net[0].msg == st.text
    ensures st.net[0].BinaryFrame? ==> st.headSent && st.received > 0
    ensures st.net[0].CloseFrame? ==>
              && |st.net| == 1 && st.closeSent == Some(st.net[0].statusCode) && st.net[0].statusCode != CLOSE_ABNORMAL
              && (st.headSent ==> st.received > 0) && (!st.headSent ==> st.received == 0 && st.net[0].statusCode != CLOSE_NORMAL)
  {
  }

  lemma ConnectorKeepsStage(st: Download, e: DownloadEvent)
    requires WireOk(st)
    ensures Stage(ConnectorStep(st, e)) && Received(ConnectorStep(st, e))
  {
  }

  function HeadIn(st: Download): Option<Frame> { if st.HeadInFlight() then Some(TextFrame(st.text)) else None }

  lemma ChunkKeepsOrder(st: Download, n: nat)
    requires WireOk(st)
    ensures Ordered(ConnectorStep(st, Chunk(n)))
  {
    if st.target == Streaming && 0 < n <= |st.rest| { InOrderChunk(st.net, HeadIn(st), st.rest[..n]); }
  }

  lemma CloseKeepsOrder(st: Download, e: DownloadEvent)
    requires WireOk(st) && (e == End || e == Fail)
    ensures Ordered(ConnectorStep(st, e))
  {
    if st.closeSent.None? {
      InOrderLast(st.net, HeadIn(st), CloseFrame(if e == End then CLOSE_NORMAL else CLOSE_INTERNAL_SERVER_ERR));
    }
  }

  lemma ConnectorKeepsOrder(st: Download, e: DownloadEvent)
    requires WireOk(st)
    ensures Ordered(ConnectorStep(st, e))
  {
    if e.Begin? {
      InOrderOne(TextFrame(st.text));
    } else if e.Chunk? {
      ChunkKeepsOrder(st, e.n);
    } else if e.End? || e.Fail? {
      CloseKeepsOrder(st, e);
    }
  }

  lemma ChunkConserves(st: Download, n: nat)
    requires Conserved(st)
    ensures Conserved(ConnectorStep(st, Chunk(n)))
  {
    if 0 < n <= |st.rest| {
      var front, back := st.rest[..n], st.rest[n..];
      PayloadSnoc(st.net, BinaryFrame(front));
      assert st.rest == front + back;
      assert st.delivered + (Payload(st.net) + front) + back == st.delivered + Payload(st.net) + (front + back);
    }
  }

  lemma ConnectorConserves(st: Download, e: DownloadEvent)
    requires Conserved(st)
    ensures Conserved(ConnectorStep(st, e))
  {
    match e
    case Begin => PayloadSnoc(st.net, TextFrame(st.text));
    case Chunk(n) => ChunkConserves(st, n);
    case End => PayloadSnoc(st.net, CloseFrame(CLOSE_NORMAL));
    case Fail => PayloadSnoc(st.net, CloseFrame(CLOSE_INTERNAL_SERVER_ERR));
    case _ =>
  }

  lemma FirstDelivered(delivered: Bytes, net: seq<Frame>, rest: Bytes)
    requires net != []
    ensures var now := if net[0].BinaryFrame? then delivered + net[0].payload else delivered;
            now + Payload(net[1..]) + rest == delivered + Payload(net) + rest
  {
    var first := if net[0].BinaryFrame? then net[0].payload else [];
    assert Payload(net) == first + Payload(net[1..]);
    assert delivered + (first + Payload(net[1..])) == delivered + first + Payload(net[1..]);
    assert delivered + [] == delivered;
  }

  lemma TakenKeepsWire(st: Download)
    requires WireOk(st) && st.net != [] && st.ended.None?
    ensures WireOk(Taken(st))
  {
    NextFrame(st);
    InOrderRest(st.net, if st.HeadInFlight() then Some(TextFrame(st.text)) else None, st.CloseInFlight());
    FirstDelivered(st.delivered, st.net, st.rest);
  }

  /** Two states with the same wire; a reader that ends without a close frame does not change it. */
  predicate SameWire(st: Download, st': Download)
  {
    && (st'.text, st'.body, st'.target, st'.rest, st'.broken, st'.headSent, st'.closeSent, st'.net, st'.received, st'.delivered)
        == (st.text, st.body, st.target, st.rest, st.broken, st.headSent, st.closeSent, st.net, st.received, st.delivered)
    && (st'.ended == st.ended ||
        (st.ended.None? && (st'.ended.value.ByError? || st'.ended.value.statusCode == CLOSE_ABNORMAL)))
  }

  lemma SameWireOk(st: Download, st': Download)
    requires WireOk(st) && SameWire(st, st')
    ensures WireOk(st')
  {
  }

  lemma RouterStepWire(st: Download, e: DownloadEvent)
    requires e.RequestDoes? || e.ReaderDrops? || e.ReaderFails? || e.ClientLeaves?
    ensures SameWire(st, DownloadStep(st, e))
  {
  }

  lemma HandleWire(st: Download)
    requires Reads(st) && st.net != []
    ensures SameWire(Taken(st), DownloadStep(st, Handle))
  {
  }

  lemma ConnectorWire(st: Download, e: DownloadEvent)
    requires WireOk(st)
    ensures WireOk(ConnectorStep(st, e))
  {
    ConnectorKeepsStage(st, e);
    ConnectorKeepsOrder(st, e);
    ConnectorConserves(st, e);
  }

  lemma StepWire(st: Download, e: DownloadEvent)
    requires WireOk(st)
    ensures WireOk(DownloadStep(st, e))
  {
    if e.Handle? {
      if Reads(st) && st.net != [] {
        TakenKeepsWire(st);
        HandleWire(st);
        SameWireOk(Taken(st), DownloadStep(st, e));
      }
    } else if e.RequestDoes? || e.ReaderDrops? || e.ReaderFails? || e.ClientLeaves? {
      RouterStepWire(st, e);
      SameWireOk(st, DownloadStep(st, e));
    } else {
      ConnectorWire(st, e);
    }
  }

  // ---------- the client's side ----------

  /** The reader's four events on a socket that a request has taken. */
  lemma TextRead(sys: R.Sys, msg: string, status: int)
    requires !sys.sock.panicked && sys.sock.client.Some? && !sys.readerEnded
    requires ParseResponse(msg).Some? && ParseResponse(msg).value.status == status
    ensures R.Step(sys, R.Text(msg)) == sys.(sock := sys.sock.(client := Some(sys.sock.client.value.WriteHeader(status))))
  {
  }

  lemma BinaryRead(sys: R.Sys, buf: Bytes, writeOk: bool)
    requires !sys.sock.panicked && sys.sock.client.Some? && !sys.readerEnded
    ensures var s := R.Step(sys, R.Binary(buf, writeOk));
            && s == sys.(sock := s.sock) && !s.sock.panicked && s.sock.client.Some?
            && s.sock.client.value == (if writeOk then sys.sock.client.value.Write(buf) else sys.sock.client.value)
            && (writeOk ==> s.sock.handleDone == sys.sock.handleDone)
            && (!sys.sock.handleDone ==> !s.sock.handleDone)
  {
  }

  lemma CloseRead(sys: R.Sys, code: int)
    requires !sys.sock.panicked && sys.sock.client.Some? && !sys.readerEnded
    requires code in {CLOSE_NORMAL, CLOSE_INTERNAL_SERVER_ERR, CLOSE_ABNORMAL}
    ensures var s := R.Step(sys, R.Close(code));
            && s == sys.(sock := s.sock, readerEnded := true) && !s.sock.panicked && !s.sock.handleDone
            && s.sock.client == Some(if code == CLOSE_INTERNAL_SERVER_ERR then sys.sock.client.value.WriteHeader(502)
                                     else sys.sock.client.value)
  {
  }

  lemma ErrorRead(sys: R.Sys, timeout: bool)
    requires !sys.sock.panicked && sys.sock.client.Some? && !sys.readerEnded
    ensures var s := R.Step(sys, R.Error(timeout));
            && s == sys.(sock := s.sock, readerEnded := true) && !s.sock.panicked && !s.sock.handleDone
            && s.sock.client == Some(sys.sock.client.value.WriteHeader(if timeout then 504 else 502).(errorPage := true))
  {
  }

  /** An event of the request goroutine: unless a failure is handled, the client sees nothing. */
  lemma RequestRead(sys: R.Sys, e: R.Event)
    requires R.Inv(sys) && NotReader(e) && !sys.sock.panicked && sys.request != R.Before
    ensures var s := R.Step(sys, e);
            && !s.sock.panicked && s.readerEnded == sys.readerEnded && s.sock.client.Some? && s.request != R.Before
            && (R.FailsHandled(sys, e) ==> s.request == R.Waiting && !s.sock.handleDone && s.sock.client.value.errorPage
                                           && s.sock.client.value.body == sys.sock.client.value.body)
            && (!R.FailsHandled(sys, e) ==> s.sock.client == sys.sock.client && s.sock.handleDone == sys.sock.handleDone)
            && (sys.request == R.Waiting || sys.request == R.Returned ==> !R.FailsHandled(sys, e)
                                                                          && (s.request == R.Waiting || s.request == R.Returned))
            && (s.request == R.Returned && sys.request != R.Returned ==> !s.sock.handleDone && sys.request == R.Waiting)
            && (sys.request == R.Returned ==> s.request == R.Returned)
  {
  }

  /** The reader's effect on the client and on the wait, given its effect on the socket. */
  predicate ReaderSide(st: Download) { ClientSide(st) && ReleaseSide(st) }

  lemma StatusTaken(st: Download, sys: R.Sys)
    requires ReaderSide(st) && Reads(st) && st.net != [] && st.net[0] == TextFrame(st.text) && st.HeadInFlight()
    requires R.Inv(sys) && sys == st.router.(sock := st.router.sock.(client := Some(st.Client().WriteHeader(st.status))))
    ensures ReaderSide(Taken(st).(router := sys))
  {
  }

  lemma ChunkTaken(st: Download, sys: R.Sys)
    requires ReaderSide(st) && Reads(st) && st.net != [] && st.net[0].BinaryFrame? && st.headSent && st.received > 0
    requires R.Inv(sys) && sys == st.router.(sock := sys.sock) && !sys.sock.panicked && sys.sock.client.Some?
    requires sys.sock.client.value == if !st.clientGone then st.Client().Write(st.net[0].payload) else st.Client()
    requires !st.clientGone ==> sys.sock.handleDone == st.router.sock.handleDone
    requires !st.router.sock.handleDone ==> !sys.sock.handleDone
    ensures ReaderSide(Taken(st).(router := sys))
  {
  }

  lemma CloseTaken(st: Download, sys: R.Sys, code: int)
    requires ReaderSide(st) && Reads(st) && st.net != [] && st.net[0] == CloseFrame(code)
    requires code == CLOSE_NORMAL || code == CLOSE_INTERNAL_SERVER_ERR
    requires (st.headSent ==> st.received > 0) && (!st.headSent ==> code != CLOSE_NORMAL)
    requires R.Inv(sys) && sys == st.router.(sock := sys.sock, readerEnded := true)
    requires !sys.sock.panicked && !sys.sock.handleDone
    requires sys.sock.client == Some(if code == CLOSE_INTERNAL_SERVER_ERR then st.Client().WriteHeader(502) else st.Client())
    ensures ReaderSide(Taken(st).(router := sys))
  {
  }

  lemma HandleKeeps(st: Download)
    requires DownloadInv(st) && Reads(st) && st.net != []
    ensures ReaderSide(DownloadStep(st, Handle))
  {
    var e := Reading(st.net[0], !st.clientGone);
    var sys := R.Step(st.router, e);
    NextFrame(st);
    R.StepInv(st.router, e);
    match st.net[0]
    case TextFrame(msg) =>
      TextRead(st.router, msg, st.status);
      StatusTaken(st, sys);
    case BinaryFrame(buf) =>
      BinaryRead(st.router, buf, !st.clientGone);
      ChunkTaken(st, sys);
    case CloseFrame(code) =>
      CloseRead(st.router, code);
      CloseTaken(st, sys, code);
  }

  lemma DropsKeep(st: Download)
    requires DownloadInv(st) && Reads(st)
    ensures ReaderSide(DownloadStep(st, ReaderDrops))
  {
    R.StepInv(st.router, R.Close(CLOSE_ABNORMAL));
    CloseRead(st.router, CLOSE_ABNORMAL);
  }

  lemma FailsKeep(st: Download, timeout: bool)
    requires DownloadInv(st) && Reads(st)
    ensures ReaderSide(DownloadStep(st, ReaderFails(timeout)))
  {
    R.StepInv(st.router, R.Error(timeout));
    ErrorRead(st.router, timeout);
  }

  lemma RequestsKeep(st: Download, e: R.Event)
    requires DownloadInv(st) && NotReader(e)
    ensures ReaderSide(st.Requests(e))
  {
    R.StepInv(st.router, e);
    RequestRead(st.router, e);
  }

  /** The handler returns: what was written is the answer. */
  lemma RequestsAnswer(st: Download, e: R.Event)
    requires DownloadInv(st) && NotReader(e)
    ensures AnswerSide(st.Requests(e))
  {
    RequestRead(st.router, e);
    AnswerNow(st);
  }

  lemma DeliveredIsPrefix(st: Download)
    requires Conserved(st) && st.router.sock.client.Some? && st.Client().body <= st.delivered
    ensures st.delivered <= st.body && st.Client().body <= st.body
  {
    assert st.body == st.delivered + (Payload(st.net) + st.rest);
  }

  /** What returning now would leave the client with. */
  lemma AnswerNow(st: Download)
    requires DownloadInv(st)
    ensures !st.router.sock.handleDone ==> AnswerOk(st, Answer(st.Client(), st.ended, st.clientGone))
  {
    DeliveredIsPrefix(st);
    if st.ended == Some(ByClose(CLOSE_NORMAL)) {
      assert st.net == [] && st.rest == [];
      assert st.delivered + [] + [] == st.delivered;
    }
  }

  lemma ConnectorFields(st: Download, e: DownloadEvent)
    requires WireOk(st)
    ensures var st' := ConnectorStep(st, e);
            && (st'.router, st'.delivered, st'.ended, st'.received, st'.text, st'.status, st'.sendFailed, st'.clientGone)
               == (st.router, st.delivered, st.ended, st.received, st.text, st.status, st.sendFailed, st.clientGone)
            && StatusNow(st') == StatusNow(st)
  {
  }

  lemma SameReaderSide(st: Download, st': Download)
    requires ReaderSide(st) && StatusNow(st') == StatusNow(st)
    requires (st'.router, st'.delivered, st'.ended, st'.text, st'.status, st'.sendFailed, st'.clientGone)
          == (st.router, st.delivered, st.ended, st.text, st.status, st.sendFailed, st.clientGone)
    ensures ReaderSide(st')
  {
  }

  /** What the connector does is not seen by the client yet. */
  lemma ConnectorUnseen(st: Download, e: DownloadEvent)
    requires ReaderSide(st) && WireOk(st)
    ensures ReaderSide(ConnectorStep(st, e))
  {
    ConnectorFields(st, e);
    SameReaderSide(st, ConnectorStep(st, e));
  }

  lemma ClientLeft(st: Download)
    requires ReaderSide(st)
    ensures ReaderSide(st.(clientGone := true))
  {
    assert StatusNow(st.(clientGone := true)) == StatusNow(st);
  }

  lemma StepClient(st: Download, e: DownloadEvent)
    requires DownloadInv(st)
    ensures ReaderSide(DownloadStep(st, e))
  {
    if e.Handle? {
      if Reads(st) && st.net != [] { HandleKeeps(st); }
    } else if e.ReaderDrops? {
      if Reads(st) { DropsKeep(st); }
    } else if e.ReaderFails? {
      if Reads(st) { FailsKeep(st, e.timeout); }
    } else if e.RequestDoes? {
      if NotReader(e.e) { RequestsKeep(st, e.e); }
    } else if e.ClientLeaves? {
      ClientLeft(st);
    } else {
      ConnectorUnseen(st, e);
    }
  }

  lemma ReaderReturnsNothing(sys: R.Sys, e: R.Event)
    requires !NotReader(e)
    ensures R.Step(sys, e).request == sys.request
  {
  }

  lemma ConnectorSame(st: Download, e: DownloadEvent)
    ensures ConnectorStep(st, e).router == st.router && Same(st, ConnectorStep(st, e))
  {
  }

  /** Events other than the request goroutine's leave the answer alone. */
  predicate Same(st: Download, st': Download)
  {
    && (st'.text, st'.status, st'.body) == (st.text, st.status, st.body)
    && (st'.answer, st'.sendFailed) == (st.answer, st.sendFailed)
  }

  lemma StepSame(st: Download, e: DownloadEvent)
    requires !e.RequestDoes?
    ensures Same(st, DownloadStep(st, e)) && DownloadStep(st, e).router.request == st.router.request
  {
    match e
    case Handle => if Reads(st) && st.net != [] { ReaderReturnsNothing(st.router, Reading(st.net[0], !st.clientGone)); }
    case ReaderDrops => ReaderReturnsNothing(st.router, R.Close(CLOSE_ABNORMAL));
    case ReaderFails(timeout) => ReaderReturnsNothing(st.router, R.Error(timeout));
    case ClientLeaves =>
    case _ => ConnectorSame(st, e);
  }

  lemma StepAnswer(st: Download, e: DownloadEvent)
    requires DownloadInv(st)
    ensures AnswerSide(DownloadStep(st, e))
  {
    if e.RequestDoes? {
      if NotReader(e.e) { RequestsAnswer(st, e.e); }
    } else {
      StepSame(st, e);
      SameAnswer(st, DownloadStep(st, e));
    }
  }

  lemma SameAnswer(st: Download, st': Download)
    requires AnswerSide(st) && Same(st, st') && st'.router.request == st.router.request
    ensures AnswerSide(st')
  {
  }

  lemma DownloadStepKeeps(st: Download, e: DownloadEvent)
    requires DownloadInv(st)
    ensures DownloadInv(DownloadStep(st, e))
  {
    StepWire(st, e);
    StepClient(st, e);
    StepAnswer(st, e);
  }

  lemma {:induction false} DownloadRunKeeps(st: Download, es: seq<DownloadEvent>)
    requires DownloadInv(st)
    ensures DownloadInv(DownloadRun(st, es))
    decreases |es|
  {
    if es == [] {
    } else {
      DownloadStepKeeps(st, es[0]);
      DownloadRunKeeps(DownloadStep(st, es[0]), es[1..]);
    }
  }

  lemma SameTarget(st: Download, e: DownloadEvent)
    ensures var st' := DownloadStep(st, e); (st'.text, st'.status, st'.body) == (st.text, st.status, st.body)
  {
    if !e.RequestDoes? { StepSame(st, e); }
  }

  lemma {:induction false} SameResponse(st: Download, es: seq<DownloadEvent>)
    ensures var end := DownloadRun(st, es); (end.text, end.status, end.body) == (st.text, st.status, st.body)
    decreases |es|
  {
    if es == [] {
    } else {
      SameTarget(st, es[0]);
      SameResponse(DownloadStep(st, es[0]), es[1..]);
    }
  }

  /** What holds at every moment, and of the answer. */
  predicate Delivered(st: Download)
  {
    && st.router.sock.client.Some?
    && st.Client().body <= st.body && st.router.sock.dones <= 1
    && (!st.sendFailed ==> st.Client().status == StatusNow(st))
    && (st.Client().errorPage <==> st.sendFailed || EndedByError(st.ended))
    && (st.router.sock.dones == 1 && !st.clientGone ==> st.ended.Some? || st.sendFailed)
    && (st.ended.Some? || st.sendFailed ==> st.router.sock.dones == 1)
    && (st.answer.Some? <==> st.router.request == R.Returned)
    && (st.answer.Some? ==> AnswerOk(st, st.answer.value))
  }

  lemma InvDelivered(st: Download)
    requires DownloadInv(st)
    ensures Delivered(st)
  {
    DeliveredIsPrefix(st);
  }

  /** For every target response, every chunking, every interleaving of connector, reader and
      request goroutine, and every failure of either side: the client has a prefix of the
      target's body. It is released at most once, by the end of the reader or a handled
      failure of the request, and always by either; only a failure adds an error page. When
      the handler returns after a normal close to a client that stayed, the client has exactly
      the target's status and body if and only if no failing send or read of the request was
      handled. */
  lemma DownloadDelivers(status: int, reason: string, httpMethod: string, sourceUrl: string, headers: string,
                         body: Bytes, es: seq<DownloadEvent>)
    requires MIN_INT64 <= status <= MAX_INT64
    requires '\n' !in reason && Token(httpMethod) && Token(sourceUrl)
    ensures var wire := ConnectorResponseText(status, reason, httpMethod, sourceUrl, headers);
            && wire.Some?
            && var st := DownloadRun(DownloadStart(wire.value, status, body), es);
               Delivered(st) && (st.status, st.body) == (status, body)
  {
    ResponseSurvivesBothDecodes(status, reason, httpMethod, sourceUrl, headers);
    var wire := ConnectorResponseText(status, reason, httpMethod, sourceUrl, headers).value;
    var start := DownloadStart(wire, status, body);
    DownloadStartOk(wire, status, body);
    DownloadRunKeeps(start, es);
    SameResponse(start, es);
    InvDelivered(DownloadRun(start, es));
  }

  lemma DownloadStartOk(text: string, status: int, body: Bytes)
    requires ParseResponse(text).Some? && ParseResponse(text).value.status == status
    ensures DownloadInv(DownloadStart(text, status, body))
  {
    R.StepInv(R.START, R.Set);
  }

  // ---------- when a send fails ----------

  /** Once the reader has ended, every further send of the request fails and is handled. */
  lemma SendAfterEndFails(st: Download, e: R.Event)
    requires DownloadInv(st) && st.ended.Some?
    requires (e.SendText? && st.router.request.Sending?) || (e.SendData? && st.router.request == R.Sending(true))
    ensures DownloadStep(st, RequestDoes(e)).sendFailed
  {
  }

  /** A normal close has arrived, the request has nothing left to send, and the client has
      everything. */
  predicate Settled(st: Download)
  {
    && DownloadInv(st) && st.ended == Some(ByClose(CLOSE_NORMAL)) && !st.sendFailed
    && (st.router.request == R.Waiting || st.router.request == R.Returned) && Whole(st, st.Client())
    && (st.answer.Some? ==> Whole(st, st.answer.value.client))
  }

  lemma SettledNow(st: Download)
    requires DownloadInv(st) && st.ended == Some(ByClose(CLOSE_NORMAL)) && !st.clientGone
    requires st.router.request == R.Waiting && !st.sendFailed
    ensures Settled(st)
  {
    AnswerNow(st);
  }

  lemma SettledStep(st: Download, e: DownloadEvent)
    requires Settled(st)
    ensures Settled(DownloadStep(st, e))
  {
    DownloadStepKeeps(st, e);
    if e.RequestDoes? {
      if NotReader(e.e) { RequestRead(st.router, e.e); }
    } else {
      StepSame(st, e);
      SettledSame(st, e);
    }
  }

  lemma SettledSame(st: Download, e: DownloadEvent)
    requires st.ended.Some? && !e.RequestDoes?
    ensures (DownloadStep(st, e).router, DownloadStep(st, e).ended) == (st.router, st.ended)
  {
  }

  lemma {:induction false} StaysSettled(st: Download, es: seq<DownloadEvent>)
    requires Settled(st)
    ensures var end := DownloadRun(st, es);
            end.answer.Some? ==> end.answer.value.client == R.Client(Some(st.status), st.body, false)
    decreases |es|
  {
    if es == [] {
    } else {
      SettledStep(st, es[0]);
      SameTarget(st, es[0]);
      StaysSettled(DownloadStep(st, es[0]), es[1..]);
    }
  }

  /** If, in any run, the normal close finds the request with nothing left to send, the client
      is left with exactly the target's status and body, whatever happens until the handler
      returns. */
  lemma NothingLeftToSend(text: string, status: int, body: Bytes, es: seq<DownloadEvent>, more: seq<DownloadEvent>)
    requires ParseResponse(text).Some? && ParseResponse(text).value.status == status
    requires var st := DownloadRun(DownloadStart(text, status, body), es);
             && st.ended == Some(ByClose(CLOSE_NORMAL)) && !st.clientGone
             && st.router.request == R.Waiting && !st.sendFailed
    ensures var end := DownloadRun(DownloadRun(DownloadStart(text, status, body), es), more);
            end.answer.Some? ==> end.answer.value.client == R.Client(Some(status), body, false)
  {
    var start := DownloadStart(text, status, body);
    DownloadStartOk(text, status, body);
    DownloadRunKeeps(start, es);
    SameResponse(start, es);
    SettledNow(DownloadRun(start, es));
    StaysSettled(DownloadRun(start, es), more);
  }

  lemma {:induction false} RunConcat(st: Download, a: seq<DownloadEvent>, b: seq<DownloadEvent>)
    ensures DownloadRun(st, a + b) == DownloadRun(DownloadRun(st, a), b)
    decreases |a|
  {
    if a == [] {
      assert a + b == b;
    } else {
      assert (a + b)[1..] == a[1..] + b;
      RunConcat(DownloadStep(st, a[0]), a[1..], b);
    }
  }

  lemma RunOne(st: Download, e: DownloadEvent)
    ensures DownloadRun(st, [e]) == DownloadStep(st, e)
  {
    assert [e][1..] == [];
  }

  lemma RunTwo(st: Download, a: seq<DownloadEvent>, mid: Download, b: seq<DownloadEvent>, end: Download)
    requires DownloadRun(st, a) == mid && DownloadRun(mid, b) == end
    ensures DownloadRun(st, a + b) == end
  {
    RunConcat(st, a, b);
  }

  /** The request goroutine has sent the head and has more to send. */
  predicate StillSending(st: Download)
  {
    && !st.clientGone && !st.sendFailed && st.answer.None? && st.router.request == R.Sending(true)
    && R.Inv(st.router) && !st.router.sock.panicked && st.router.sock.client.Some?
    && (st.router.readerEnded <==> st.ended.Some?)
  }

  lemma HeadGoesOut(text: string, status: int, body: Bytes, timeout: bool) returns (end: Download)
    ensures DownloadRun(DownloadStart(text, status, body), [RequestDoes(R.SendText(true, timeout))]) == end
    ensures end == DownloadStart(text, status, body).(router := end.router) && StillSending(end)
    ensures end.router.sock.client == Some(R.Client(None, [], false))
  {
    var st := DownloadStart(text, status, body);
    R.StepInv(R.START, R.Set);
    R.StepInv(st.router, R.SendText(true, timeout));
    RunOne(st, RequestDoes(R.SendText(true, timeout)));
    end := DownloadStep(st, RequestDoes(R.SendText(true, timeout)));
  }

  lemma TargetAnswers(st: Download) returns (end: Download)
    requires st.target == Ready && !st.broken && st.net == [] && st.rest == st.body != []
    ensures DownloadRun(st, [Begin] + [Chunk(|st.body|)] + [End]) == end
    ensures end.net == [TextFrame(st.text), BinaryFrame(st.body), CloseFrame(CLOSE_NORMAL)]
    ensures end == st.(target := end.target, rest := end.rest, headSent := end.headSent, closeSent := end.closeSent, net := end.net)
  {
    var st1 := st.(target := Streaming, headSent := true, net := [TextFrame(st.text)]);
    var st2 := st1.(rest := [], net := [TextFrame(st.text), BinaryFrame(st.body)]);
    end := st2.(target := Sent, net := [TextFrame(st.text), BinaryFrame(st.body), CloseFrame(CLOSE_NORMAL)],
                closeSent := Some(CLOSE_NORMAL));
    assert st.body[..|st.body|] == st.body && st.body[|st.body|..] == [];
    RunOne(st, Begin);
    RunOne(st1, Chunk(|st.body|));
    RunOne(st2, End);
    RunTwo(st, [Begin], st1, [Chunk(|st.body|)], st2);
    RunTwo(st, [Begin] + [Chunk(|st.body|)], st2, [End], end);
  }

  /** One frame is read. */
  lemma FrameRead(st: Download) returns (end: Download)
    requires StillSending(st) && st.ended.None? && st.net != []
    requires !st.net[0].TextFrame? || ParseResponse(st.net[0].msg).Some?
    requires !st.net[0].CloseFrame? || st.net[0].statusCode == CLOSE_NORMAL
    ensures DownloadRun(st, [Handle]) == end && StillSending(end) && end.net == st.net[1..]
    ensures end.ended == if st.net[0].CloseFrame? then Some(ByClose(CLOSE_NORMAL)) else None
    ensures end.Client() == match st.net[0]
                            case TextFrame(msg) => st.Client().WriteHeader(ParseResponse(msg).value.status)
                            case BinaryFrame(buf) => st.Client().Write(buf)
                            case CloseFrame(_) => st.Client()
  {
    var e := Reading(st.net[0], true);
    R.StepInv(st.router, e);
    match st.net[0] {
      case TextFrame(msg) => TextRead(st.router, msg, ParseResponse(msg).value.status);
      case BinaryFrame(buf) => BinaryRead(st.router, buf, true);
      case CloseFrame(code) => CloseRead(st.router, code);
    }
    ReaderReturnsNothing(st.router, e);
    RunOne(st, Handle);
    end := Taken(st).Read(e);
  }

  lemma WholeRead(st: Download, status: int) returns (end: Download)
    requires StillSending(st) && st.ended.None? && st.Client() == R.Client(None, [], false)
    requires st.net == [TextFrame(st.text), BinaryFrame(st.body), CloseFrame(CLOSE_NORMAL)]
    requires ParseResponse(st.text).Some? && ParseResponse(st.text).value.status == status
    ensures DownloadRun(st, [Handle] + [Handle] + [Handle]) == end && StillSending(end)
    ensures end.ended == Some(ByClose(CLOSE_NORMAL)) && end.Client() == R.Client(Some(status), st.body, false)
  {
    var st1 := FrameRead(st);
    var st2 := FrameRead(st1);
    end := FrameRead(st2);
    assert [] + st.body == st.body;
    RunTwo(st, [Handle], st1, [Handle], st2);
    RunTwo(st, [Handle] + [Handle], st2, [Handle], end);
  }

  lemma SendFails(st: Download, e: R.Event) returns (end: Download)
    requires StillSending(st) && st.ended.Some? && e.SendData? && st.Client().status.Some?
    ensures DownloadRun(st, [RequestDoes(e)]) == end && end.ended == st.ended && !end.clientGone && end.answer.None?
    ensures end.router.request == R.Waiting && end.router.sock.dones == 1 && !end.router.sock.panicked
    ensures end.router.sock.client == Some(st.Client().(errorPage := true))
  {
    RunOne(st, RequestDoes(e));
    R.StepInv(st.router, e);
    end := DownloadStep(st, RequestDoes(e));
  }

  lemma Returns(st: Download) returns (end: Download)
    requires st.router.request == R.Waiting && st.router.sock.dones == 1 && !st.router.sock.panicked && st.router.sock.client.Some?
    ensures DownloadRun(st, [RequestDoes(R.Return)]) == end
    ensures end.answer == Some(Answer(st.Client(), st.ended, st.clientGone))
  {
    RunOne(st, RequestDoes(R.Return));
    end := DownloadStep(st, RequestDoes(R.Return));
  }

  /** An answer that is complete before the request is: the next send meets the closed
      session, and the client gets an error page behind the target's whole response. */
  lemma EarlyAnswerGetsErrorPage(text: string, status: int, body: Bytes, timeout: bool)
    requires ParseResponse(text).Some? && ParseResponse(text).value.status == status && body != []
    ensures var es := [RequestDoes(R.SendText(true, timeout)), Begin, Chunk(|body|), End, Handle, Handle, Handle,
                       RequestDoes(R.SendData(true, false, timeout)), RequestDoes(R.Return)];
            DownloadRun(DownloadStart(text, status, body), es).answer
            == Some(Answer(R.Client(Some(status), body, true), Some(ByClose(CLOSE_NORMAL)), false))
  {
    var st0 := DownloadStart(text, status, body);
    var data := R.SendData(true, false, timeout);
    var st1 := HeadGoesOut(text, status, body, timeout);
    var st4 := TargetAnswers(st1);
    var st7 := WholeRead(st4, status);
    var st8 := SendFails(st7, data);
    var st9 := Returns(st8);
    var es := [RequestDoes(R.SendText(true, timeout))];
    RunTwo(st0, es, st1, [Begin] + [Chunk(|body|)] + [End], st4);
    es := es + ([Begin] + [Chunk(|body|)] + [End]);
    RunTwo(st0, es, st4, [Handle] + [Handle] + [Handle], st7);
    es := es + ([Handle] + [Handle] + [Handle]);
    RunTwo(st0, es, st7, [RequestDoes(data)], st8);
    es := es + [RequestDoes(data)];
    RunTwo(st0, es, st8, [RequestDoes(R.Return)], st9);
    assert es + [RequestDoes(R.Return)]
        == [RequestDoes(R.SendText(true, timeout)), Begin, Chunk(|body|), End, Handle, Handle, Handle,
            RequestDoes(data), RequestDoes(R.Return)];
  }

  // ---------- the loop is the machine's connector ----------

  /** The data read are what the target's body yields next; a read without data ends the loop
      where the body does. */
  predicate Answers(rest: Bytes, input: seq<BodyRead>)
  {
    input == [] ||
    var r := input[0];
    && r.data <= rest
    && if r.data != [] || r.end.More? then Answers(rest[|r.data|..], input[1..]) else r.end.Eof? ==> rest == []
  }

  function Dying(good: nat): seq<DownloadEvent> { if good == 0 then [LinkDies] else [] }

  function ServeScript(input: seq<BodyRead>, good: nat): seq<DownloadEvent>
  {
    if input == [] then []
    else
      var r := input[0];
      if r.data != [] then
        if good == 0 then [LinkDies, Chunk(|r.data|)] else [Chunk(|r.data|)] + ServeScript(input[1..], good - 1)
      else
        match r.end
        case More => ServeScript(input[1..], good)
        case Eof => Dying(good) + [End]
        case Fails => Dying(good) + [Fail]
  }

  predicate Put(st: Download, end: Download, frames: seq<Frame>, target: Sender)
  {
    end.net == st.net + frames && end.target == target
  }

  /** One event, after the link has died if no write is left. */
  lemma LastEvent(st: Download, good: nat, e: DownloadEvent)
    requires (st.broken ==> good == 0) && (st.target == Streaming || (st.target == Ready && e == Fail))
    requires e == End || e == Fail
    requires e == End ==> st.rest == []
    ensures Put(st, DownloadRun(st, Dying(good) + [e]), CloseSent(good, e == End), if e == End then Sent else Stopped)
  {
    var st' := if good == 0 then DownloadStep(st, LinkDies) else st;
    assert Dying(good) + [e] == if good == 0 then [LinkDies, e] else [e];
    assert [LinkDies, e][1..] == [e] && [e][1..] == [];
    assert DownloadRun(st', [e]) == DownloadStep(st', e);
    assert st.net + [] == st.net;
  }

  lemma LostChunk(st: Download, n: nat)
    requires st.target == Streaming && 0 < n <= |st.rest|
    ensures Put(st, DownloadRun(st, [LinkDies, Chunk(n)]), [], Stopped)
  {
    var st' := DownloadStep(st, LinkDies);
    assert [LinkDies, Chunk(n)][1..] == [Chunk(n)] && [Chunk(n)][1..] == [];
    assert DownloadRun(st', [Chunk(n)]) == DownloadStep(st', Chunk(n));
    assert st.net + [] == st.net;
  }

  /** For every way the reads and writes go, the frames of the loop and how it is left are
      those of the machine's connector. */
  lemma {:induction false} LoopIsTarget(st: Download, input: seq<BodyRead>, good: nat)
    requires st.target == Streaming && (st.broken ==> good == 0) && Answers(st.rest, input)
    ensures var (frames, o) := Served(input, good);
            Put(st, DownloadRun(st, ServeScript(input, good)), frames, SenderAfter(o))
    decreases |input|
  {
    if input == [] {
      assert st.net + [] == st.net;
    } else {
      var r := input[0];
      if r.data == [] {
        if r.end.More? { LoopIsTarget(st, input[1..], good); } else { LastEvent(st, good, if r.end.Eof? then End else Fail); }
      } else if good == 0 {
        LostChunk(st, |r.data|);
      } else {
        var st' := DownloadStep(st, Chunk(|r.data|));
        LoopIsTarget(st', input[1..], good - 1);
        ChunkServed(st, st', input, good);
      }
    }
  }

  lemma ChunkServed(st: Download, st': Download, input: seq<BodyRead>, good: nat)
    requires st.target == Streaming && !st.broken && Answers(st.rest, input)
    requires input != [] && input[0].data != [] && good > 0 && st' == DownloadStep(st, Chunk(|input[0].data|))
    requires var (frames, o) := Served(input[1..], good - 1);
             Put(st', DownloadRun(st', ServeScript(input[1..], good - 1)), frames, SenderAfter(o))
    ensures var (frames, o) := Served(input, good);
            Put(st, DownloadRun(st, ServeScript(input, good)), frames, SenderAfter(o))
  {
    var r := input[0];
    assert ServeScript(input, good)[1..] == ServeScript(input[1..], good - 1);
    assert st.rest[..|r.data|] == r.data;
    assert Served(input, good) == Prepend([BinaryFrame(r.data)], Served(input[1..], good - 1));
    assert st.net + ([BinaryFrame(r.data)] + Served(input[1..], good - 1).0)
        == st.net + [BinaryFrame(r.data)] + Served(input[1..], good - 1).0;
  }

  function FireScript(answered: bool, input: seq<BodyRead>, good: nat): seq<DownloadEvent>
  {
    if !answered then Dying(good) + [Fail]
    else Dying(good) + [Begin] + ServeScript(input, if good > 0 then good - 1 else 0)
  }

  /** The status message goes out if a write is left. */
  lemma BegunOnLink(start: Download, good: nat) returns (begun: Download)
    requires start.target == Ready && !start.broken && !start.headSent && start.net == []
    ensures DownloadRun(start, Dying(good) + [Begin]) == begun
    ensures begun.target == Streaming && begun.rest == start.rest && (begun.broken ==> good == 0)
    ensures begun.net == if good > 0 then [TextFrame(start.text)] else []
  {
    var st := if good == 0 then start.(broken := true) else start;
    begun := DownloadStep(st, Begin);
    RunOne(start, LinkDies);
    RunOne(st, Begin);
    if good == 0 {
      RunTwo(start, [LinkDies], st, [Begin], begun);
    } else {
      assert Dying(good) + [Begin] == [Begin];
    }
  }

  /** `FireRequestFromConnectorToTargetService` as a whole. */
  lemma FireIsTarget(text: string, status: int, body: Bytes, answered: bool, input: seq<BodyRead>, good: nat)
    requires Answers(body, input)
    ensures var (frames, o) := ResponseSent(text, answered, input, good);
            var start := DownloadStart(text, status, body);
            Put(start, DownloadRun(start, FireScript(answered, input, good)), frames, SenderAfter(o))
  {
    var start := DownloadStart(text, status, body);
    if answered {
      var left: nat := if good > 0 then good - 1 else 0;
      var begun := BegunOnLink(start, good);
      LoopIsTarget(begun, input, left);
      RunConcat(start, Dying(good) + [Begin], ServeScript(input, left));
      assert start.net + (begun.net + Served(input, left).0) == begun.net + Served(input, left).0;
    } else {
      LastEvent(start, good, Fail);
    }
  }
}
