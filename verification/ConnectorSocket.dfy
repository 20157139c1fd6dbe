/** The life of one connector socket (connector/connector_socket.go): the handlers that
    `runForever` calls, the pipe that feeds the target request, and what the socket asks of
    its connector. */
module ConnectorSocket {
  import opened Text
  import opened Counting
  import opened CrankerProtocol
  import opened Frames
  import Url

  /** The io.Pipe feeding the target request: whether it was made, what the target has read,
      whether the writer is open, whether the target still reads. */
  datatype Pipe = Pipe(made: bool, content: Bytes, open: bool, reading: bool)
  {
    /** `taken` bytes are read before the target stops reading, all of them if it does not. */
    function Write(payload: Bytes, taken: nat): Pipe
    {
      if !open || !reading then this
      else if taken >= |payload| then this.(content := content + payload)
      else this.(content := content + payload[..taken], reading := false)
    }
  }

  const NO_PIPE := Pipe(false, [], false, false)

  /** A call into the rest of the connector. */
  datatype Effect = RemoveSocket | ConnectedSuccessfully | WhenConsumed | ScheduleRetry

  /** What one handler asks of the connector. */
  datatype Ask = Nothing | OnRequest | OnIdleClose | OnIdleError | OnRetry
  {
    function Effects(): seq<Effect>
    {
      match this
      case Nothing => []
      case OnRequest => [RemoveSocket, ConnectedSuccessfully, WhenConsumed]
      case OnIdleClose => [RemoveSocket, WhenConsumed]
      case OnIdleError => [RemoveSocket, ScheduleRetry]
      case OnRetry => [WhenConsumed]
    }

    predicate Removes() { OnRequest? || OnIdleClose? || OnIdleError? }

    predicate Consumes() { OnRequest? || OnIdleClose? || OnRetry? }
  }

  /** The two predicates read the lists of calls right. */
  lemma AskCalls(a: Ask)
    ensures a.Removes() <==> RemoveSocket in a.Effects()
    ensures a.Consumes() <==> WhenConsumed in a.Effects()
    ensures a.OnIdleError? <==> ScheduleRetry in a.Effects()
    ensures a.OnRequest? <==> ConnectedSuccessfully in a.Effects()
  {
  }

  /** The request to the target: whether it was started, its callback has run, it is complete,
      it was cancelled. */
  datatype Target = Target(fired: bool, answered: bool, requestComplete: bool, aborted: bool)

  datatype Socket = Socket(
    session: bool,
    requested: bool,        // requestToTarget != nil
    newSocketAdded: bool,
    hadError: bool,
    pipe: Pipe,
    target: Target,
    panicked: bool)
  {
    /** `sendRequestToTarget`. */
    function SendRequest(req: Request): Socket
    {
      if req.BodyPending() then this.(pipe := Pipe(true, [], true, true), target := target.(fired := true))
      else if req.HasNoBody() then this.(target := target.(fired := true))
      else this
    }

    /** `onRequestReceived`, `newRequestToTarget` and `sendRequestToTarget`. Resolving a
        destination that url.Parse rejects panics. */
    function FirstText(req: Request, resolves: bool): Socket
    {
      var s := this.(newSocketAdded := true);
      if resolves then s.(requested := true).SendRequest(req) else s.(panicked := true)
    }

    /** Closing a pipe that was never made panics. */
    function LaterText(req: Request): Socket
    {
      if !req.BodyEnded() then this
      else if !pipe.made then this.(panicked := true)
      else this.(pipe := pipe.(open := false))
    }

    /** Parsing a malformed message panics. */
    function OnParsed(parsed: Option<Request>, resolves: bool): (Socket, Ask)
    {
      if parsed.None? then (this.(panicked := true), Nothing)
      else if !requested then (FirstText(parsed.value, resolves), OnRequest)
      else (LaterText(parsed.value), Nothing)
    }

    function OnText(msg: string): (Socket, Ask) { OnParsed(ParseRequest(msg), Resolves(ParseRequest(msg))) }

    function OnBinary(payload: Bytes, taken: nat): Socket
    {
      if !pipe.made then this.(panicked := true) else this.(pipe := pipe.Write(payload, taken))
    }

    function OnClose(statusCode: int): (Socket, Ask)
    {
      (this.(session := false, newSocketAdded := true,
             target := target.(aborted :=
               target.aborted || (!target.requestComplete && requested && statusCode != CLOSE_INTERNAL_SERVER_ERR))),
       if newSocketAdded then Nothing else OnIdleClose)
    }

    /** The callback of the target request. */
    function OnTargetDone(isSucceeded: bool): Socket
    {
      this.(target := target.(answered := true, requestComplete := isSucceeded))
    }

    /** Also called when the dial fails. */
    function OnError(): (Socket, Ask)
    {
      if hadError then (this, Nothing)
      else if newSocketAdded then (this.(hadError := true), Nothing)
      else (this.(hadError := true, session := false), OnIdleError)
    }

    function OnRetryTimer(): (Socket, Ask) { (this.(newSocketAdded := true), OnRetry) }
  }

  predicate Resolves(parsed: Option<Request>) { parsed.Some? && Url.Parses(parsed.value.dest) }

  const NEW_SOCKET := Socket(false, false, false, false, NO_PIPE, Target(false, false, false, false), false)

  // ---------- the life of a socket ----------

  /** The backoff goroutine of OnWebsocketError: it first looks whether the connector has
      cancelled the parent context, then arms the timer. */
  datatype Retry = NoRetry | Asked | Armed | Dropped | Fired

  datatype Phase = Dialing | Reading | Ended

  datatype Life = Life(sock: Socket, phase: Phase, retry: Retry)
  {
    /** Still counted as idle: neither its removal nor its replacement was asked for. */
    predicate Idle() { !sock.newSocketAdded && !sock.hadError }

    /** Its replacement waits for the backoff. */
    predicate InBackoff() { retry == Asked || retry == Armed }

    /** Its replacement was not asked for. */
    predicate Unreplaced() { Idle() || InBackoff() || retry == Dropped }

    predicate PhaseOk()
    {
      && (phase == Dialing ==> sock == NEW_SOCKET)
      && (phase == Reading ==> sock.session)
      && (phase != Ended ==> retry == NoRetry && !sock.hadError)
      && (phase == Ended ==> !Idle() && (sock.session <==> sock.hadError && retry == NoRetry))
      && (retry != NoRetry ==> sock.hadError && phase == Ended)
      && (sock.newSocketAdded <==> !Unreplaced())
    }

    predicate RequestOk()
    {
      && (sock.requested ==> sock.newSocketAdded)
      && (phase != Ended && sock.newSocketAdded ==> sock.requested || sock.panicked)
      && (sock.panicked ==> phase == Reading)
      && (sock.target.aborted ==> sock.requested && phase == Ended) && (sock.target.fired ==> sock.requested)
      && (sock.pipe.made ==> sock.target.fired)
      && (sock.target.requestComplete ==> sock.target.answered) && (sock.target.answered ==> sock.target.fired)
    }

    predicate Ok() { PhaseOk() && RequestOk() }

    function After(s: Socket, p: Phase, a: Ask): Life
    {
      Life(s, p, if a.OnIdleError? then Asked else if a.OnRetry? then Fired else retry)
    }
  }

  datatype Event =
    | DialFails | DialSucceeds
    | Text(msg: string) | Binary(payload: Bytes, taken: nat)
    | Close(statusCode: int) | Error
    | RetryCheck(cancelled: bool) | Timer
    | TargetDone(isSucceeded: bool)

  const BORN := Life(NEW_SOCKET, Dialing, NoRetry)

  /** One event and what it asks; after a panic, or when the event cannot happen in the
      phase the socket is in, nothing changes. */
  function Step(l: Life, e: Event): (Life, Ask)
  {
    if l.sock.panicked then (l, Nothing)
    else
      match e
      case DialFails => if l.phase == Dialing then Failed(l) else (l, Nothing)
      case DialSucceeds =>
        (if l.phase == Dialing then l.(sock := l.sock.(session := true), phase := Reading) else l, Nothing)
      case Text(msg) =>
        if l.phase == Reading then
          var (s, a) := l.sock.OnText(msg);
          (l.After(s, Reading, a), a)
        else (l, Nothing)
      case Binary(payload, taken) =>
        (if l.phase == Reading then l.(sock := l.sock.OnBinary(payload, taken)) else l, Nothing)
      case Close(code) =>
        if l.phase == Reading then
          var (s, a) := l.sock.OnClose(code);
          (l.After(s, Ended, a), a)
        else (l, Nothing)
      case Error => if l.phase == Reading then Failed(l) else (l, Nothing)
      case RetryCheck(cancelled) =>
        (if l.retry == Asked then l.(retry := if cancelled then Dropped else Armed) else l, Nothing)
      case Timer =>
        if l.retry == Armed then
          var (s, a) := l.sock.OnRetryTimer();
          (l.After(s, Ended, a), a)
        else (l, Nothing)
      case TargetDone(isSucceeded) =>
        (if l.sock.target.fired && !l.sock.target.answered then l.(sock := l.sock.OnTargetDone(isSucceeded)) else l, Nothing)
  }

  function Failed(l: Life): (Life, Ask)
  {
    var (s, a) := l.sock.OnError();
    (l.After(s, Ended, a), a)
  }

  /** What a move from `l` to `l'` may ask, in terms of the socket being idle or in backoff. */
  predicate Asks(l: Life, l': Life, a: Ask)
  {
    && (a.OnRequest? || a.OnIdleClose? ==> l.Idle() && !l'.Idle() && !l'.InBackoff())
    && (a.OnIdleError? ==> l.Idle() && !l'.Idle() && l'.InBackoff())
    && (a.OnRetry? ==> l.InBackoff() && !l'.Idle() && !l'.InBackoff())
    && (a.Nothing? ==> l'.Idle() == l.Idle() && (l'.InBackoff() == l.InBackoff() || l'.retry == Dropped))
    && (a.Consumes() <==> l.Unreplaced() && !l'.Unreplaced()) && (l'.Unreplaced() ==> l.Unreplaced())
    && (a.OnIdleError? <==> l.retry == NoRetry && l'.retry != NoRetry) && (l'.retry == NoRetry ==> l.retry == NoRetry)
    && !(l.Idle() && l.InBackoff())
  }

  lemma StepAsks(l: Life, e: Event)
    requires l.Ok()
    ensures Asks(l, Step(l, e).0, Step(l, e).1)
    ensures Step(l, e).0.retry == Dropped && l.retry != Dropped ==> e == RetryCheck(true)
  {
    if l.sock.panicked {
      SameAsks(l, l);
    } else {
      match e
      case Text(msg) => if l.phase == Reading { TextAsks(l, ParseRequest(msg), Resolves(ParseRequest(msg))); } else { SameAsks(l, l); }
      case Binary(payload, taken) => if l.phase == Reading { BinaryAsks(l, payload, taken); } else { SameAsks(l, l); }
      case Close(code) => if l.phase == Reading { CloseAsks(l, code); } else { SameAsks(l, l); }
      case DialFails => if l.phase == Dialing { FailedAsks(l); } else { SameAsks(l, l); }
      case Error => if l.phase == Reading { FailedAsks(l); } else { SameAsks(l, l); }
      case DialSucceeds => SameAsks(l, Step(l, e).0);
      case RetryCheck(_) =>
      case Timer =>
      case TargetDone(_) => SameAsks(l, Step(l, e).0);
    }
  }

  lemma SameAsks(l: Life, l': Life)
    requires l.PhaseOk() && l'.Idle() == l.Idle() && l'.retry == l.retry
    ensures Asks(l, l', Nothing)
  {
  }

  lemma TextAsks(l: Life, parsed: Option<Request>, resolves: bool)
    requires l.PhaseOk() && l.RequestOk() && l.phase == Reading && !l.sock.panicked
    ensures var (s, a) := l.sock.OnParsed(parsed, resolves);
            Asks(l, l.After(s, Reading, a), a) && l.After(s, Reading, a).retry == NoRetry
  {
    var (s, a) := l.sock.OnParsed(parsed, resolves);
    if a == Nothing { SameAsks(l, l.After(s, Reading, a)); }
  }

  lemma BinaryAsks(l: Life, payload: Bytes, taken: nat)
    requires l.PhaseOk() && l.phase == Reading && !l.sock.panicked
    ensures Asks(l, l.(sock := l.sock.OnBinary(payload, taken)), Nothing)
  {
    SameAsks(l, l.(sock := l.sock.OnBinary(payload, taken)));
  }

  lemma FailedAsks(l: Life)
    requires l.PhaseOk() && l.phase != Ended && !l.sock.panicked
    ensures Asks(l, Failed(l).0, Failed(l).1) && Failed(l).0.retry != Dropped
  {
    if l.sock.newSocketAdded {
      NotedError(l);
      SameAsks(l, Failed(l).0);
    } else {
      IdleError(l);
    }
  }

  /** The socket has been replaced already. */
  lemma NotedError(l: Life)
    requires l.PhaseOk() && l.phase != Ended && l.sock.newSocketAdded
    ensures Failed(l).1 == Nothing && Failed(l).0.retry == NoRetry
    ensures !l.Idle() && !Failed(l).0.Idle()
  {
  }

  lemma IdleError(l: Life)
    requires l.PhaseOk() && l.phase != Ended && !l.sock.newSocketAdded
    ensures Failed(l).1 == OnIdleError && Failed(l).0.retry == Asked
    ensures l.Idle() && !Failed(l).0.Idle()
  {
  }

  lemma CloseAsks(l: Life, code: int)
    requires l.PhaseOk() && l.phase == Reading
    ensures var (s, a) := l.sock.OnClose(code);
            Asks(l, l.After(s, Ended, a), a) && l.After(s, Ended, a).retry == NoRetry
  {
  }

  /** A reading socket gets its first message that parses. */
  predicate ReceivesRequest(l: Life, e: Event)
  {
    l.phase == Reading && !l.sock.panicked && !l.sock.requested && e.Text? && ParseRequest(e.msg).Some?
  }

  lemma AsksOnRequest(l: Life, e: Event)
    ensures Step(l, e).1 == OnRequest <==> ReceivesRequest(l, e)
  {
  }

  function Run(l: Life, es: seq<Event>): Life
    decreases |es|
  {
    if es == [] then l else Run(Step(l, es[0]).0, es[1..])
  }

  lemma TextKeepsOk(l: Life, parsed: Option<Request>, resolves: bool)
    requires l.Ok() && l.phase == Reading && !l.sock.panicked
    ensures var (s, a) := l.sock.OnParsed(parsed, resolves); l.After(s, Reading, a).Ok()
  {
  }

  lemma CloseKeepsOk(l: Life, code: int)
    requires l.Ok() && l.phase == Reading && !l.sock.panicked
    ensures var (s, a) := l.sock.OnClose(code); l.After(s, Ended, a).Ok()
  {
  }

  lemma FailedKeepsOk(l: Life)
    requires l.Ok() && l.phase != Ended && !l.sock.panicked
    ensures Failed(l).0.Ok()
  {
  }

  lemma StepKeepsOk(l: Life, e: Event)
    requires l.Ok()
    ensures Step(l, e).0.Ok()
  {
    if !l.sock.panicked {
      match e
      case Text(msg) => if l.phase == Reading { TextKeepsOk(l, ParseRequest(msg), Resolves(ParseRequest(msg))); }
      case Close(code) => if l.phase == Reading { CloseKeepsOk(l, code); }
      case DialFails => if l.phase == Dialing { FailedKeepsOk(l); }
      case Error => if l.phase == Reading { FailedKeepsOk(l); }
      case _ =>
    }
  }

  lemma {:induction false} RunKeepsOk(l: Life, es: seq<Event>)
    requires l.Ok()
    ensures Run(l, es).Ok()
    decreases |es|
  {
    if es == [] {
    } else {
      StepKeepsOk(l, es[0]);
      RunKeepsOk(Step(l, es[0]).0, es[1..]);
    }
  }

  /** The calls made by the events, in order. */
  function CallsOf(l: Life, es: seq<Event>): seq<Effect>
    decreases |es|
  {
    if es == [] then [] else Step(l, es[0]).1.Effects() + CallsOf(Step(l, es[0]).0, es[1..])
  }

  function Calls(fx: seq<Effect>, f: Effect): nat { multiset(fx)[f] }

  lemma PlusCalls(a: Ask, rest: seq<Effect>)
    ensures Calls(a.Effects() + rest, RemoveSocket) == Tally(a.Removes()) + Calls(rest, RemoveSocket)
    ensures Calls(a.Effects() + rest, WhenConsumed) == Tally(a.Consumes()) + Calls(rest, WhenConsumed)
    ensures Calls(a.Effects() + rest, ScheduleRetry) == Tally(a.OnIdleError?) + Calls(rest, ScheduleRetry)
  {
    AskCalls(a);
  }

  /** Between any two moments, as many calls as the socket has changed. */
  lemma {:induction false} CallsCounted(l: Life, es: seq<Event>)
    requires l.Ok()
    ensures var l', fx := Run(l, es), CallsOf(l, es);
            && Calls(fx, RemoveSocket) == Tally(l.Idle()) - Tally(l'.Idle())
            && Calls(fx, WhenConsumed) == Tally(l.Unreplaced()) - Tally(l'.Unreplaced())
            && Calls(fx, ScheduleRetry) == Tally(l.retry == NoRetry) - Tally(l'.retry == NoRetry)
    decreases |es|
  {
    if es == [] {
    } else {
      var (next, a) := Step(l, es[0]);
      StepKeepsOk(l, es[0]);
      StepAsks(l, es[0]);
      PlusCalls(a, CallsOf(next, es[1..]));
      CallsCounted(next, es[1..]);
    }
  }

  /** For every sequence of events: the removal is asked for at most once, and exactly once
      when the socket has ended; the replacement at most once, and when it has ended exactly
      once unless its backoff is still running or was dropped by a shutdown. Only a socket
      that ended with a request on it aborts its target request. */
  lemma EveryLife(es: seq<Event>)
    ensures var l, fx := Run(BORN, es), CallsOf(BORN, es);
            && Calls(fx, RemoveSocket) <= 1 && Calls(fx, WhenConsumed) <= 1
            && (l.phase == Ended ==> Calls(fx, RemoveSocket) == 1)
            && (l.phase == Ended ==> (Calls(fx, WhenConsumed) == 1 <==> l.retry == NoRetry || l.retry == Fired))
            && (l.sock.target.aborted ==> l.sock.requested && l.phase == Ended)
  {
    RunKeepsOk(BORN, es);
    CallsCounted(BORN, es);
  }

  // ---------- which request is fired ----------

  /** The first message that parses among the texts read. */
  function FirstRequest(l: Life, es: seq<Event>): Option<Request>
    decreases |es|
  {
    if es == [] then None
    else if l.phase == Reading && !l.sock.panicked && es[0].Text? && ParseRequest(es[0].msg).Some? then ParseRequest(es[0].msg)
    else FirstRequest(Step(l, es[0]).0, es[1..])
  }

  /** Whether there is a request, whether it was fired, whether it has a pipe. */
  function Flags(s: Socket): (bool, bool, bool) { (s.requested, s.target.fired, s.pipe.made) }

  /** A first message that is fired has a pipe if it announces a body. */
  function FirstFlags(req: Request, resolves: bool): (bool, bool, bool)
  {
    (resolves, resolves && req.endMarker in ["_1", "_2"], resolves && req.endMarker == "_1")
  }

  lemma TextFires(l: Life, parsed: Option<Request>, resolves: bool)
    requires l.Ok() && l.phase == Reading && !l.sock.panicked
    ensures var s' := l.sock.OnParsed(parsed, resolves).0;
            if parsed.None? then Flags(s') == Flags(l.sock) && s'.panicked
            else if l.sock.requested then
              && Flags(s') == Flags(l.sock)
              && (s'.panicked <==> parsed.value.endMarker == "_3" && !l.sock.pipe.made)
            else Flags(s') == FirstFlags(parsed.value, resolves) && s'.panicked == !resolves
  {
  }

  lemma OthersFireNothing(l: Life, e: Event)
    requires l.Ok() && !l.sock.panicked && !e.Text?
    ensures Flags(Step(l, e).0.sock) == Flags(l.sock)
    ensures Step(l, e).0.sock.panicked <==> l.phase == Reading && e.Binary? && !l.sock.pipe.made
  {
  }

  /** What one event does to the flags of a socket that has a request, and of one that has none. */
  lemma StepFires(l: Life, e: Event)
    requires l.Ok()
    ensures var s' := Step(l, e).0.sock;
            if ReceivesRequest(l, e) then
              var resolves := Resolves(ParseRequest(e.msg));
              Flags(s') == FirstFlags(ParseRequest(e.msg).value, resolves) && s'.panicked == !resolves
            else Flags(s') == Flags(l.sock)
    ensures l.sock.panicked ==> Step(l, e).0.sock.panicked
  {
    if l.sock.panicked {
    } else if e.Text? {
      if l.phase == Reading { TextFires(l, ParseRequest(e.msg), Resolves(ParseRequest(e.msg))); }
    } else {
      OthersFireNothing(l, e);
    }
  }

  /** What breaks a reading socket: a message that does not parse, a first one whose
      destination does not, a "_3" or a binary frame without a pipe. */
  predicate Breaks(s: Socket, e: Event)
  {
    match e
    case Binary(_, _) => !s.pipe.made
    case Text(msg) =>
      var parsed := ParseRequest(msg);
      || parsed.None?
      || (!s.requested && !Url.Parses(parsed.value.dest))
      || (s.requested && parsed.value.endMarker == "_3" && !s.pipe.made)
    case _ => false
  }

  lemma PanicsIff(l: Life, e: Event)
    requires l.Ok() && !l.sock.panicked
    ensures Step(l, e).0.sock.panicked <==> l.phase == Reading && Breaks(l.sock, e)
  {
    if e.Text? {
      if l.phase == Reading { TextFires(l, ParseRequest(e.msg), Resolves(ParseRequest(e.msg))); }
    } else {
      OthersFireNothing(l, e);
    }
  }

  lemma {:induction false} FlagsStay(l: Life, es: seq<Event>)
    requires l.Ok() && (l.sock.requested || l.sock.panicked)
    ensures Flags(Run(l, es).sock) == Flags(l.sock)
    decreases |es|
  {
    if es == [] {
    } else {
      StepKeepsOk(l, es[0]);
      StepFires(l, es[0]);
      FlagsStay(Step(l, es[0]).0, es[1..]);
    }
  }

  lemma {:induction false} FiredFrom(l: Life, es: seq<Event>)
    requires l.Ok() && !l.sock.requested
    ensures var first := if l.sock.panicked then None else FirstRequest(l, es);
            Flags(Run(l, es).sock) == if first.Some? then FirstFlags(first.value, Resolves(first)) else (false, false, false)
    decreases |es|
  {
    if es == [] {
    } else if l.sock.panicked {
      FlagsStay(l, es);
    } else {
      StepKeepsOk(l, es[0]);
      StepFires(l, es[0]);
      if ReceivesRequest(l, es[0]) {
        FlagsStay(Step(l, es[0]).0, es[1..]);
      } else {
        if Step(l, es[0]).0.sock.panicked { NoneAfterPanic(Step(l, es[0]).0, es[1..]); }
        FiredFrom(Step(l, es[0]).0, es[1..]);
      }
    }
  }

  lemma {:induction false} NoneAfterPanic(l: Life, es: seq<Event>)
    requires l.sock.panicked
    ensures FirstRequest(l, es) == None
    decreases |es|
  {
    if es == [] {
    } else {
      NoneAfterPanic(l, es[1..]);
    }
  }

  /** Over every life: a target request is started exactly for the first message that parses,
      if that announces a body or none and its destination parses; it has a pipe exactly if
      that announces a body; no later message starts any. */
  lemma FiredIff(es: seq<Event>)
    ensures var s, first := Run(BORN, es).sock, FirstRequest(BORN, es);
            && (s.requested <==> first.Some? && Url.Parses(first.value.dest))
            && (s.target.fired <==> first.Some? && first.value.endMarker in ["_1", "_2"] && Url.Parses(first.value.dest))
            && (s.pipe.made <==> first.Some? && first.value.endMarker == "_1" && Url.Parses(first.value.dest))
  {
    FiredFrom(BORN, es);
  }

  /** Once the pipe is closed or the target has stopped reading, no event changes what the
      target has got. */
  lemma {:induction false} SealedContent(l: Life, es: seq<Event>)
    requires l.Ok() && l.sock.pipe.made && (!l.sock.pipe.open || !l.sock.pipe.reading)
    ensures var pipe := Run(l, es).sock.pipe;
            pipe.made && pipe.content == l.sock.pipe.content && (!pipe.open || !pipe.reading)
    decreases |es|
  {
    if es == [] {
    } else {
      StepKeepsOk(l, es[0]);
      SealedStep(l, es[0]);
      SealedContent(Step(l, es[0]).0, es[1..]);
    }
  }

  lemma SealedStep(l: Life, e: Event)
    requires l.Ok() && l.sock.pipe.made && (!l.sock.pipe.open || !l.sock.pipe.reading)
    ensures var pipe := Step(l, e).0.sock.pipe;
            pipe.made && pipe.content == l.sock.pipe.content && (!pipe.open || !pipe.reading)
  {
    if e.Text? { TextOnlyCloses(l.sock, ParseRequest(e.msg), Resolves(ParseRequest(e.msg))); }
  }

  lemma TextOnlyCloses(s: Socket, parsed: Option<Request>, resolves: bool)
    requires s.requested && s.pipe.made
    ensures var pipe := s.OnParsed(parsed, resolves).0.pipe;
            pipe == s.pipe || pipe == s.pipe.(open := false)
  {
  }

  lemma TextAnswersNothing(s: Socket, parsed: Option<Request>, resolves: bool)
    ensures var t, t' := s.target, s.OnParsed(parsed, resolves).0.target;
            t'.answered == t.answered && t'.requestComplete == t.requestComplete
  {
  }

  /** The first answer of the callback after the target request was started. */
  function FirstAnswer(l: Life, es: seq<Event>): Option<bool>
    decreases |es|
  {
    if es == [] then None
    else if l.sock.target.fired && !l.sock.panicked && es[0].TargetDone? then Some(es[0].isSucceeded)
    else FirstAnswer(Step(l, es[0]).0, es[1..])
  }

  lemma StepAnswers(l: Life, e: Event)
    requires l.Ok()
    ensures var l' := Step(l, e).0;
            if l.sock.target.fired && !l.sock.panicked && !l.sock.target.answered && e.TargetDone? then
              l'.sock.target.answered && l'.sock.target.requestComplete == e.isSucceeded
            else (l'.sock.target.answered, l'.sock.target.requestComplete) == (l.sock.target.answered, l.sock.target.requestComplete)
  {
    if e.Text? { TextAnswersNothing(l.sock, ParseRequest(e.msg), Resolves(ParseRequest(e.msg))); }
  }

  lemma {:induction false} AnswerStays(l: Life, es: seq<Event>)
    requires l.Ok() && l.sock.target.answered
    ensures Run(l, es).sock.target.answered && Run(l, es).sock.target.requestComplete == l.sock.target.requestComplete
    decreases |es|
  {
    if es == [] {
    } else {
      StepKeepsOk(l, es[0]);
      StepAnswers(l, es[0]);
      AnswerStays(Step(l, es[0]).0, es[1..]);
    }
  }

  lemma {:induction false} CompleteFrom(l: Life, es: seq<Event>)
    requires l.Ok() && !l.sock.target.answered
    ensures Run(l, es).sock.target.requestComplete <==> FirstAnswer(l, es) == Some(true)
    decreases |es|
  {
    if es == [] {
    } else {
      StepKeepsOk(l, es[0]);
      StepAnswers(l, es[0]);
      if l.sock.target.fired && !l.sock.panicked && es[0].TargetDone? {
        AnswerStays(Step(l, es[0]).0, es[1..]);
      } else {
        CompleteFrom(Step(l, es[0]).0, es[1..]);
      }
    }
  }

  /** Over every life: the request is complete exactly when the first answer of its callback
      is a success. */
  lemma CompleteIff(es: seq<Event>)
    ensures Run(BORN, es).sock.target.requestComplete <==> FirstAnswer(BORN, es) == Some(true)
  {
    CompleteFrom(BORN, es);
  }

  /** A later text closes the pipe if its marker is "_3", and does nothing else. */
  lemma TextClosesPipeIff(l: Life, msg: string)
    requires l.Ok() && l.phase == Reading && !l.sock.panicked && l.sock.pipe.made && ParseRequest(msg).Some?
    requires l.sock.requested
    ensures Step(l, Text(msg)).0 == l.(sock := l.sock.(pipe :=
              if ParseRequest(msg).value.endMarker == "_3" then l.sock.pipe.(open := false) else l.sock.pipe))
  {
  }

  /** A close aborts the target request exactly when there is one that is not complete and
      the router did not report an error of its own. */
  lemma CloseAbortsIff(l: Life, code: int)
    requires l.Ok() && l.phase == Reading && !l.sock.panicked
    ensures Step(l, Close(code)).0.sock.target.aborted
        <==> l.sock.requested && !l.sock.target.requestComplete && code != 1011
  {
  }

  /** A request that completed while its socket was open is never aborted. */
  lemma CompleteIsNeverAborted(es: seq<Event>, more: seq<Event>)
    requires var l := Run(BORN, es); l.sock.target.requestComplete && l.phase != Ended
    ensures !Run(Run(BORN, es), more).sock.target.aborted
  {
    RunKeepsOk(BORN, es);
    StaysUnaborted(Run(BORN, es), more);
  }

  lemma {:induction false} StaysUnaborted(l: Life, es: seq<Event>)
    requires l.Ok() && !l.sock.target.aborted && (l.phase == Ended || l.sock.target.requestComplete)
    ensures !Run(l, es).sock.target.aborted
    decreases |es|
  {
    if es == [] {
    } else {
      StepKeepsOk(l, es[0]);
      StepUnaborted(l, es[0]);
      StaysUnaborted(Step(l, es[0]).0, es[1..]);
    }
  }

  lemma StepUnaborted(l: Life, e: Event)
    requires l.Ok() && !l.sock.target.aborted && (l.phase == Ended || l.sock.target.requestComplete)
    ensures var l' := Step(l, e).0; !l'.sock.target.aborted && (l'.phase == Ended || l'.sock.target.requestComplete)
  {
  }

  // ---------- the class ----------

  /** What ReadMessage returns. */
  datatype Read = ReadText(msg: string) | ReadBinary(payload: Bytes, taken: nat) | ReadOther | ReadClose(statusCode: int) | ReadFailure

  class ConnectorSocket {
    var session: bool
    var requestToTarget: bool
    var newSocketAdded: bool
    var hadError: bool
    var targetRequestContent: Pipe
    var fired: bool
    var answered: bool
    var requestComplete: bool
    var aborted: bool
    var panicked: bool
    ghost var asked: seq<Effect>  // calls into the connector, in order

    function State(): Socket
      reads this
    {
      Socket(session, requestToTarget, newSocketAdded, hadError, targetRequestContent,
             Target(fired, answered, requestComplete, aborted), panicked)
    }

    constructor ()
      ensures State() == NEW_SOCKET && asked == []
    {
      session, requestToTarget, newSocketAdded, hadError := false, false, false, false;
      targetRequestContent, fired, aborted, panicked, asked := NO_PIPE, false, false, false, [];
      answered, requestComplete := false, false;
    }

    method OnRequestReceived()
      modifies this`newSocketAdded, this`asked
      ensures newSocketAdded
      ensures asked == old(asked) + [RemoveSocket, ConnectedSuccessfully, WhenConsumed]
    {
      asked := asked + [RemoveSocket];
      asked := asked + [ConnectedSuccessfully];
      asked := asked + [WhenConsumed];
      assert asked == old(asked) + [RemoveSocket, ConnectedSuccessfully, WhenConsumed];
      newSocketAdded := true;
    }

    method SendRequestToTarget(req: Request)
      modifies this`targetRequestContent, this`fired
      ensures State() == old(State()).SendRequest(req)
    {
      if !req.BodyPending() && !req.HasNoBody() { return; }
      if req.BodyPending() {
        targetRequestContent := Pipe(true, [], true, true);
      }
      fired := true;
    }

    method OnFirstText(req: Request)
      modifies this
      ensures State() == old(State()).FirstText(req, Url.Parses(req.dest)) && asked == old(asked) + OnRequest.Effects()
    {
      OnRequestReceived();
      if !Url.Parses(req.dest) {
        panicked := true;
        return;
      }
      requestToTarget := true;
      SendRequestToTarget(req);
    }

    method OnWebsocketText(msg: string)
      modifies this
      ensures (State(), asked) == (old(State()).OnText(msg).0, old(asked) + old(State()).OnText(msg).1.Effects())
    {
      assert asked == asked + Nothing.Effects();
      var parsed := ParseRequest(msg);
      if parsed.None? {
        panicked := true;
      } else if !requestToTarget {
        OnFirstText(parsed.value);
      } else if parsed.value.BodyEnded() {
        if !targetRequestContent.made {
          panicked := true;
        } else {
          targetRequestContent := targetRequestContent.(open := false);
        }
      }
    }

    method OnWebsocketBinary(payload: Bytes, taken: nat)
      modifies this
      ensures State() == old(State()).OnBinary(payload, taken) && asked == old(asked)
    {
      if !targetRequestContent.made {
        panicked := true;
        return;
      }
      var pipe := targetRequestContent;
      if pipe.open && pipe.reading {
        if taken >= |payload| {
          targetRequestContent := pipe.(content := pipe.content + payload);
        } else {
          targetRequestContent := pipe.(content := pipe.content + payload[..taken], reading := false);
        }
      }
    }

    method OnWebsocketClose(statusCode: int)
      modifies this
      ensures (State(), asked) == (old(State()).OnClose(statusCode).0, old(asked) + old(State()).OnClose(statusCode).1.Effects())
    {
      assert asked == asked + Nothing.Effects();
      session := false;
      if !newSocketAdded {
        asked := asked + [RemoveSocket];
        asked := asked + [WhenConsumed];
        assert asked == old(asked) + OnIdleClose.Effects();
        newSocketAdded := true;
      }
      if !requestComplete && requestToTarget && statusCode != CLOSE_INTERNAL_SERVER_ERR {
        aborted := true;
      }
    }

    method OnTargetDone(isSucceeded: bool)
      modifies this
      ensures State() == old(State()).OnTargetDone(isSucceeded) && asked == old(asked)
    {
      answered := true;
      requestComplete := isSucceeded;
    }

    method OnWebsocketError()
      modifies this
      ensures (State(), asked) == (old(State()).OnError().0, old(asked) + old(State()).OnError().1.Effects())
    {
      assert asked == asked + Nothing.Effects();
      if hadError { return; }
      hadError := true;
      if !newSocketAdded {
        asked := asked + [RemoveSocket];
        asked := asked + [ScheduleRetry];
        assert asked == old(asked) + OnIdleError.Effects();
        session := false;
      }
    }

    /** The read loop: it ends with the first close or failure, or with a panic. */
    method RunForever(input: seq<Read>)
      modifies this
      ensures (State(), asked) == Plus(old(asked), Consumed(old(State()), input))
    {
      var i, over := 0, false;
      while i < |input| && !panicked && !over
        invariant i <= |input|
        invariant Plus(asked, Continued((State(), Nothing, over), input[i..])) == Plus(old(asked), Consumed(old(State()), input))
      {
        ghost var h := Handled(State(), input[i]);
        PlusPlus(asked, h.1.Effects(), Continued(h, input[i + 1..]));
        assert input[i..][1..] == input[i + 1..];
        over := HandleRead(input[i]);
        i := i + 1;
      }
      assert asked + [] == asked;
    }

    method HandleRead(r: Read) returns (over: bool)
      modifies this
      ensures (State(), asked, over)
           == (Handled(old(State()), r).0, old(asked) + Handled(old(State()), r).1.Effects(), Handled(old(State()), r).2)
    {
      assert asked == asked + Nothing.Effects();
      over := false;
      match r
      case ReadText(msg) => OnWebsocketText(msg);
      case ReadBinary(payload, taken) => OnWebsocketBinary(payload, taken);
      case ReadOther =>
      case ReadClose(code) => OnWebsocketClose(code); over := true;
      case ReadFailure => OnWebsocketError(); over := true;
    }
  }

  /** The final state and all the calls made. */
  function Consumed(s: Socket, input: seq<Read>): (Socket, seq<Effect>)
    decreases |input|, 0
  {
    if input == [] || s.panicked then (s, [])
    else Plus(Handled(s, input[0]).1.Effects(), Continued(Handled(s, input[0]), input[1..]))
  }

  function Plus(before: seq<Effect>, after: (Socket, seq<Effect>)): (Socket, seq<Effect>) { (after.0, before + after.1) }

  lemma PlusPlus(before: seq<Effect>, more: seq<Effect>, after: (Socket, seq<Effect>))
    ensures Plus(before, Plus(more, after)) == Plus(before + more, after)
  {
    assert before + (more + after.1) == before + more + after.1;
  }

  function Continued(h: (Socket, Ask, bool), rest: seq<Read>): (Socket, seq<Effect>)
    decreases |rest|, 1
  {
    if h.2 then (h.0, []) else Consumed(h.0, rest)
  }

  function Handled(s: Socket, r: Read): (Socket, Ask, bool)
  {
    match r
    case ReadText(msg) => (s.OnText(msg).0, s.OnText(msg).1, false)
    case ReadBinary(payload, taken) => (s.OnBinary(payload, taken), Nothing, false)
    case ReadOther => (s, Nothing, false)
    case ReadClose(code) => (s.OnClose(code).0, s.OnClose(code).1, true)
    case ReadFailure => (s.OnError().0, s.OnError().1, true)
  }

  // ---------- the read loop as a life ----------

  function AsEvent(r: Read): Option<Event>
  {
    match r
    case ReadText(msg) => Some(Text(msg))
    case ReadBinary(payload, taken) => Some(Binary(payload, taken))
    case ReadOther => None
    case ReadClose(code) => Some(Close(code))
    case ReadFailure => Some(Error)
  }

  function AsEvents(input: seq<Read>): seq<Event>
  {
    if input == [] then []
    else (if AsEvent(input[0]).Some? then [AsEvent(input[0]).value] else []) + AsEvents(input[1..])
  }

  lemma AfterNothing(l: Life, s: Socket)
    ensures l.After(s, l.phase, Nothing) == l.(sock := s)
  {
  }

  lemma HandledIsStep(l: Life, r: Read)
    requires l.phase == Reading && !l.sock.panicked && AsEvent(r).Some?
    ensures var (s, a, over) := Handled(l.sock, r);
            Step(l, AsEvent(r).value) == (l.After(s, if over then Ended else Reading, a), a)
  {
    match r
    case ReadText(msg) =>
    case ReadBinary(payload, taken) => AfterNothing(l, l.sock.OnBinary(payload, taken));
    case ReadClose(code) =>
    case ReadFailure =>
  }

  lemma EndedStep(l: Life, r: Read)
    requires (l.phase == Ended || l.sock.panicked) && AsEvent(r).Some?
    ensures Step(l, AsEvent(r).value) == (l, Nothing)
  {
  }

  lemma {:induction false} EndedIgnores(l: Life, input: seq<Read>)
    requires l.phase == Ended || l.sock.panicked
    ensures Run(l, AsEvents(input)) == l && CallsOf(l, AsEvents(input)) == []
  {
    if input == [] {
    } else if AsEvent(input[0]).Some? {
      var es := AsEvents(input);
      assert es[1..] == AsEvents(input[1..]);
      EndedStep(l, input[0]);
      EndedIgnores(l, input[1..]);
      assert Nothing.Effects() + [] == [];
    } else {
      assert AsEvents(input) == AsEvents(input[1..]);
      EndedIgnores(l, input[1..]);
    }
  }

  /** The loop does to the socket what the life machine does, with the same calls in the
      same order. */
  lemma {:induction false} LoopIsLife(l: Life, input: seq<Read>)
    requires l.phase == Reading
    ensures Consumed(l.sock, input) == (Run(l, AsEvents(input)).sock, CallsOf(l, AsEvents(input)))
    decreases |input|
  {
    if input == [] {
    } else if l.sock.panicked {
      EndedIgnores(l, input);
    } else if AsEvent(input[0]).None? {
      assert AsEvents(input) == AsEvents(input[1..]);
      LoopIsLife(l, input[1..]);
      assert [] + Consumed(l.sock, input[1..]).1 == Consumed(l.sock, input[1..]).1;
    } else {
      var es := AsEvents(input);
      assert es[1..] == AsEvents(input[1..]);
      var (s, a, over) := Handled(l.sock, input[0]);
      var next := Step(l, es[0]).0;
      HandledIsStep(l, input[0]);
      assert a.Effects() + [] == a.Effects();
      if over { EndedIgnores(next, input[1..]); } else { LoopIsLife(next, input[1..]); }
    }
  }

  const CONNECTED := BORN.(sock := NEW_SOCKET.(session := true), phase := Reading)

  /** Whatever is read, the loop asks for at most one removal and one replacement, now or
      after a backoff; when it has ended without a panic, for exactly one of each. */
  lemma ReadLoopAsksOnce(input: seq<Read>)
    ensures var (s, fx) := Consumed(CONNECTED.sock, input);
            var replacements := Calls(fx, WhenConsumed) + Calls(fx, ScheduleRetry);
            && Calls(fx, RemoveSocket) <= 1 && replacements <= 1
            && (Run(CONNECTED, AsEvents(input)).phase == Ended ==> Calls(fx, RemoveSocket) == 1 == replacements)
  {
    LoopIsLife(CONNECTED, input);
    RunKeepsOk(CONNECTED, AsEvents(input));
    CallsCounted(CONNECTED, AsEvents(input));
    NoTimer(CONNECTED, input);
  }

  /** The backoff goroutine is not part of the loop. */
  lemma {:induction false} NoTimer(l: Life, input: seq<Read>)
    requires l.retry == NoRetry || l.retry == Asked
    ensures var l' := Run(l, AsEvents(input)); l'.retry == NoRetry || l'.retry == Asked
    decreases |input|
  {
    if input == [] {
    } else if AsEvent(input[0]).None? {
      assert AsEvents(input) == AsEvents(input[1..]);
      NoTimer(l, input[1..]);
    } else {
      var es := AsEvents(input);
      assert es[1..] == AsEvents(input[1..]);
      ReadSetsNoTimer(l, input[0]);
      NoTimer(Step(l, es[0]).0, input[1..]);
    }
  }

  lemma ReadSetsNoTimer(l: Life, r: Read)
    requires (l.retry == NoRetry || l.retry == Asked) && AsEvent(r).Some?
    ensures var l' := Step(l, AsEvent(r).value).0; l'.retry == NoRetry || l'.retry == Asked
  {
  }
}
