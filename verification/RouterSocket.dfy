/** The life of a router socket (router/router_socket/router_socket.go): the reader
    goroutine's handlers and the request goroutine share `session`, `handleDone` and
    `isRemoved`; the request waits until `handleDone.Done` has run. */
module RouterSocket {
  import opened Text
  import opened CrankerProtocol
  import opened Frames

  /** What the client has been sent: the first status written counts. `errorPage` marks an
      error text appended by the router. */
  datatype Client = Client(status: Option<int>, body: Bytes, errorPage: bool)
  {
    function WriteHeader(code: int): Client { if status.None? then this.(status := Some(code)) else this }

    function Write(buf: Bytes): Client { WriteHeader(200).(body := body + buf) }
  }

  datatype Socket = Socket(
    session: bool,
    client: Option<Client>,  // respWriter
    handleDone: bool,        // the wait group still to be released
    isRegister: bool, isRemoved: bool,
    dones: nat,              // handleDone.Done calls
    removals: nat,           // RemoveWebsocket calls
    panicked: bool)
  {
    function SetResponse(): Socket { this.(client := Some(Client(None, [], false)), handleDone := true) }

    function Release(): Socket { if handleDone then this.(handleDone := false, dones := dones + 1) else this }

    function CloseSession(): Socket { this.(session := false) }

    function RemoveBad(): Socket
    {
      if isRemoved then this else CloseSession().(removals := removals + 1, isRemoved := true)
    }

    function Status(code: int): Socket
    {
      if client.Some? then this.(client := Some(client.value.WriteHeader(code))) else this
    }

    function OnClose(statusCode: int): Socket
    {
      var s := this.(session := false);
      var t := (if statusCode == CLOSE_INTERNAL_SERVER_ERR then s.Status(502)
                else if statusCode == CLOSE_POLICY_VIOLATION then s.Status(400) else s).Release();
      if isRegister && !isRemoved then t.(removals := t.removals + 1, isRemoved := true) else t
    }

    /** A malformed response message panics in the parser. */
    function OnText(msg: string): Socket
    {
      if client.None? then this
      else
        var parsed := ParseResponse(msg);
        if parsed.None? then this.(panicked := true) else Status(parsed.value.status)
    }

    /** Writing before `SetResponse` is a call on a nil writer. */
    function OnBinary(buf: Bytes, writeOk: bool): Socket
    {
      if client.None? then this.(panicked := true)
      else if writeOk then this.(client := Some(client.value.Write(buf)))
      else Release().CloseSession()
    }

    /** OnSendOrReceiveDataError. */
    function OnDataError(timeout: bool): Socket
    {
      var s := RemoveBad();
      (if s.client.None? then s
       else s.(client := Some(s.client.value.WriteHeader(if timeout then 504 else 502).(errorPage := true)))).Release()
    }
  }

  function Registered(): Socket { Socket(true, None, false, true, false, 0, 0, false) }

  class RouterSocket {
    var session: bool
    var respWriter: Option<Client>
    var handleDone: bool
    const isRegister: bool
    var isRemoved: bool
    var panicked: bool
    ghost var dones: nat
    ghost var removals: nat

    ghost function State(): Socket
      reads this
    {
      Socket(session, respWriter, handleDone, isRegister, isRemoved, dones, removals, panicked)
    }

    constructor (isRegister: bool)
      ensures State() == Registered().(isRegister := isRegister)
    {
      this.isRegister := isRegister;
      session, respWriter, handleDone, isRemoved, panicked, dones, removals := true, None, false, false, false, 0, 0;
    }

    method SetResponse()
      modifies this
      ensures State() == old(State()).SetResponse()
    {
      respWriter := Some(Client(None, [], false));
      handleDone := true;
    }

    method Release()
      modifies this`handleDone, this`dones
      ensures State() == old(State()).Release()
    {
      if handleDone {
        dones := dones + 1;
        handleDone := false;
      }
    }

    method WriteHeader(code: int)
      modifies this`respWriter
      ensures State() == old(State()).Status(code)
    {
      if respWriter.Some? {
        respWriter := Some(respWriter.value.WriteHeader(code));
      }
    }

    method CloseSocketSession()
      modifies this`session
      ensures State() == old(State()).CloseSession()
    {
      if session {
        session := false;
      }
    }

    method RemoveBadWebsocket()
      modifies this
      ensures State() == old(State()).RemoveBad()
    {
      if !isRemoved {
        CloseSocketSession();
        removals := removals + 1;
        isRemoved := true;
      }
    }

    method OnWebsocketClose(statusCode: int)
      modifies this
      ensures State() == old(State()).OnClose(statusCode)
    {
      session := false;
      if statusCode == CLOSE_INTERNAL_SERVER_ERR {
        WriteHeader(502);
      } else if statusCode == CLOSE_POLICY_VIOLATION {
        WriteHeader(400);
      }
      Release();
      if isRegister && !isRemoved {
        removals := removals + 1;
        isRemoved := true;
      }
    }

    method OnWebsocketText(msg: string)
      modifies this
      ensures State() == old(State()).OnText(msg)
    {
      if respWriter.Some? {
        var parsed := ParseResponse(msg);
        if parsed.None? {
          panicked := true;
        } else {
          WriteHeader(parsed.value.status);
        }
      }
    }

    method OnWebsocketBinary(buf: Bytes, writeOk: bool)
      modifies this
      ensures State() == old(State()).OnBinary(buf, writeOk)
    {
      if respWriter.None? {
        panicked := true;
      } else if writeOk {
        respWriter := Some(respWriter.value.Write(buf));
      } else {
        Release();
        CloseSocketSession();
      }
    }

    method OnSendOrReceiveDataError(timeout: bool)
      modifies this
      ensures State() == old(State()).OnDataError(timeout)
    {
      RemoveBadWebsocket();
      if respWriter.Some? {
        respWriter := Some(respWriter.value.WriteHeader(if timeout then 504 else 502).(errorPage := true));
      }
      Release();
    }

    /** The read loop with a source of ReadMessage results: it ends with the first close or
        failure, or with a panic. */
    method RunForever(input: seq<Read>)
      modifies this
      ensures State() == Consumed(old(State()), input)
    {
      var i := 0;
      while i < |input| && !panicked
        invariant i <= |input|
        invariant Consumed(State(), input[i..]) == Consumed(old(State()), input)
      {
        var r := input[i];
        assert input[i..][1..] == input[i + 1..];
        i := i + 1;
        match r
        case ReadText(msg) => OnWebsocketText(msg);
        case ReadBinary(buf, writeOk) => OnWebsocketBinary(buf, writeOk);
        case ReadOther =>
        case ReadClose(code) => OnWebsocketClose(code); return;
        case ReadFailure(timeout) => OnSendOrReceiveDataError(timeout); return;
      }
    }
  }

  /** What ReadMessage returns. */
  datatype Read =
    | ReadText(msg: string) | ReadBinary(buf: Bytes, writeOk: bool) | ReadOther
    | ReadClose(statusCode: int) | ReadFailure(timeout: bool)

  function Consumed(s: Socket, input: seq<Read>): Socket
    decreases |input|
  {
    if input == [] || s.panicked then s
    else
      match input[0]
      case ReadText(msg) => Consumed(s.OnText(msg), input[1..])
      case ReadBinary(buf, writeOk) => Consumed(s.OnBinary(buf, writeOk), input[1..])
      case ReadOther => Consumed(s, input[1..])
      case ReadClose(code) => s.OnClose(code)
      case ReadFailure(timeout) => s.OnDataError(timeout)
  }

  // ---------- request goroutine and reader goroutine interleaved ----------

  /** The request goroutine of `ReverseProxy.Handle`. `Sending(false)` has not sent the
      request message yet. */
  datatype Request = Before | Sending(headSent: bool) | Waiting | Returned

  datatype Sys = Sys(sock: Socket, request: Request, readerEnded: bool)

  datatype Event =
    // request goroutine
    | Set                                   // sendRequestOverWebsocket: SetResponse
    | SendText(ok: bool, timeout: bool)
    | SendData(ok: bool, readErr: bool, timeout: bool)  // a chunk; whether its Read also returned an error
    | ReadBodyFails(timeout: bool)
    | AllSent
    | Return                                // handleDone.Wait is over
    // reader goroutine
    | Text(msg: string) | Binary(buf: Bytes, writeOk: bool) | Close(statusCode: int) | Error(timeout: bool)
    // others
    | PingFails | FarmStop

  const START := Sys(Registered(), Before, false)

  /** A chunk cannot be sent although reading it gave no error: the code then panics with the
      nil read error. The module is declared for Go 1.16, where `recover` answers nil to
      panic(nil), so the failure is not handled. */
  predicate Swallowed(st: Sys, e: Event)
  {
    e.SendData? && st.request == Sending(true) && st.sock.session && !e.ok && !e.readErr
  }

  /** A send on the nil session of a dead socket panics and is handled like a send error. */
  predicate FailsHandled(st: Sys, e: Event)
  {
    || (e.SendText? && st.request.Sending? && (!st.sock.session || !e.ok))
    || (e.SendData? && st.request == Sending(true) && (!st.sock.session || (!e.ok && e.readErr)))
    || (e.ReadBodyFails? && st.request == Sending(true))
  }

  function Step(st: Sys, e: Event): Sys
  {
    if st.sock.panicked then st
    else if FailsHandled(st, e) then Sys(st.sock.OnDataError(e.timeout), Waiting, st.readerEnded)
    else if Swallowed(st, e) then st.(request := Waiting)
    else
      match e
      case Set => if st.request == Before then st.(sock := st.sock.SetResponse(), request := Sending(false)) else st
      case SendText(_, _) => if st.request.Sending? then st.(request := Sending(true)) else st
      case SendData(_, _, _) => st
      case ReadBodyFails(_) => st
      case AllSent => if st.request == Sending(true) then st.(request := Waiting) else st
      case Return => if st.request == Waiting && st.sock.dones > 0 then st.(request := Returned) else st
      case Text(msg) => if st.readerEnded then st else st.(sock := st.sock.OnText(msg))
      case Binary(buf, writeOk) => if st.readerEnded then st else st.(sock := st.sock.OnBinary(buf, writeOk))
      case Close(code) => if st.readerEnded then st else st.(sock := st.sock.OnClose(code), readerEnded := true)
      case Error(timeout) => if st.readerEnded then st else st.(sock := st.sock.OnDataError(timeout), readerEnded := true)
      case PingFails => if st.sock.session then st.(sock := st.sock.RemoveBad()) else st
      case FarmStop => st.(sock := st.sock.CloseSession())
  }

  function Run(st: Sys, es: seq<Event>): Sys
    decreases |es|
  {
    if es == [] then st else Run(Step(st, es[0]), es[1..])
  }

  // ---------- the read loop as the reader goroutine ----------

  function AsEvents(input: seq<Read>): seq<Event>
  {
    if input == [] then []
    else
      (match input[0]
       case ReadText(msg) => [Text(msg)]
       case ReadBinary(buf, writeOk) => [Binary(buf, writeOk)]
       case ReadOther => []
       case ReadClose(code) => [Close(code)]
       case ReadFailure(timeout) => [Error(timeout)])
      + AsEvents(input[1..])
  }

  predicate ReaderOnly(es: seq<Event>)
  {
    forall i :: 0 <= i < |es| ==> es[i].Text? || es[i].Binary? || es[i].Close? || es[i].Error?
  }

  lemma {:induction false} ReadsOnly(input: seq<Read>)
    ensures ReaderOnly(AsEvents(input))
  {
    if input == [] {
    } else {
      ReadsOnly(input[1..]);
    }
  }

  lemma {:induction false} NothingRead(st: Sys, es: seq<Event>)
    requires (st.readerEnded || st.sock.panicked) && ReaderOnly(es)
    ensures Run(st, es) == st
    decreases |es|
  {
    if es == [] {
    } else {
      assert es[0].Text? || es[0].Binary? || es[0].Close? || es[0].Error?;
      NothingRead(st, es[1..]);
    }
  }

  /** The read loop does to the socket what the reader goroutine of the interleaved machine
      does: it handles every message until the first close, failure or panic. */
  lemma {:induction false} LoopIsReader(st: Sys, input: seq<Read>)
    requires !st.readerEnded
    ensures Run(st, AsEvents(input)).sock == Consumed(st.sock, input)
    ensures Run(st, AsEvents(input)).request == st.request
    decreases |input|
  {
    if input == [] {
    } else if st.sock.panicked {
      ReadsOnly(input);
      NothingRead(st, AsEvents(input));
    } else if input[0].ReadOther? {
      assert AsEvents(input) == AsEvents(input[1..]);
      LoopIsReader(st, input[1..]);
    } else {
      var es := AsEvents(input);
      assert es[1..] == AsEvents(input[1..]);
      var st' := Step(st, es[0]);
      if st'.readerEnded {
        ReadsOnly(input[1..]);
        NothingRead(st', es[1..]);
      } else {
        LoopIsReader(st', input[1..]);
      }
    }
  }

  predicate Inv(st: Sys)
  {
    && st.sock.isRegister
    && (st.request == Before <==> st.sock.client.None?)
    && (st.request == Before ==> st.sock.dones == 0 && !st.sock.handleDone)
    && (st.request != Before ==> st.sock.dones == if st.sock.handleDone then 0 else 1)
    && st.sock.removals == (if st.sock.isRemoved then 1 else 0)
    && (st.sock.isRemoved || st.readerEnded ==> !st.sock.session)
    && (st.readerEnded && st.sock.handleDone ==> st.request == Sending(false))
    && (st.request == Returned ==> st.sock.dones == 1)
  }

  lemma StepInv(st: Sys, e: Event)
    requires Inv(st)
    ensures Inv(Step(st, e))
  {
    if st.sock.panicked || Swallowed(st, e) {
    } else if FailsHandled(st, e) {
      DataErrorInv(st, e.timeout, Waiting, st.readerEnded);
    } else if !st.readerEnded {
      match e
      case Binary(buf, writeOk) => BinaryInv(st, buf, writeOk);
      case Close(code) => CloseInv(st, code);
      case Error(timeout) => DataErrorInv(st, timeout, st.request, true);
      case _ =>
    }
  }

  lemma DataErrorInv(st: Sys, timeout: bool, request: Request, ended: bool)
    requires Inv(st) && (request == st.request || (request == Waiting && st.request.Sending?))
    requires st.readerEnded ==> ended
    ensures Inv(Sys(st.sock.OnDataError(timeout), request, ended))
  {
  }

  lemma BinaryInv(st: Sys, buf: Bytes, writeOk: bool)
    requires Inv(st)
    ensures Inv(st.(sock := st.sock.OnBinary(buf, writeOk)))
  {
  }

  lemma CloseInv(st: Sys, code: int)
    requires Inv(st)
    ensures Inv(st.(sock := st.sock.OnClose(code), readerEnded := true))
  {
  }

  lemma {:induction false} RunInv(st: Sys, es: seq<Event>)
    requires Inv(st)
    ensures Inv(Run(st, es))
    decreases |es|
  {
    if es == [] {
    } else {
      StepInv(st, es[0]);
      RunInv(Step(st, es[0]), es[1..]);
    }
  }

  /** In every interleaving, the socket dying before `SetResponse` included: Done runs at
      most once, the farm is told at most once, the request never returns unreleased, and
      when the request has nothing more to send and the reader has ended, it is released. */
  lemma ReleasedExactlyOnce(es: seq<Event>)
    ensures var st := Run(START, es);
            && st.sock.dones <= 1 && st.sock.removals <= 1
            && (st.request == Returned ==> st.sock.dones == 1)
            && (st.request == Waiting && st.readerEnded ==> st.sock.dones == 1)
            && (st.readerEnded ==> st.sock.removals == 1)
  {
    RunInv(START, es);
    EndedRemoved(START, es);
  }

  lemma {:induction false} EndedRemoved(st: Sys, es: seq<Event>)
    requires Inv(st) && (st.readerEnded ==> st.sock.isRemoved)
    ensures Run(st, es).readerEnded ==> Run(st, es).sock.isRemoved && Run(st, es).sock.removals == 1
    decreases |es|
  {
    if es == [] {
    } else {
      StepInv(st, es[0]);
      EndedRemoved(Step(st, es[0]), es[1..]);
    }
  }

  /** A close or read error handled after `SetResponse` has released the wait. */
  lemma TerminalReadReleases(st: Sys, e: Event)
    requires Inv(st) && !st.sock.panicked && st.request != Before && !st.readerEnded
    requires e.Close? || e.Error?
    ensures Step(st, e).sock.dones == 1
    ensures st.sock.client.value.status.None? ==> Step(st, e).sock.client.value.status == Reported(e)
  {
  }

  /** The status a client gets that had none when its socket ended. */
  function Reported(e: Event): Option<int>
    requires e.Close? || e.Error?
  {
    if e.Error? then Some(if e.timeout then 504 else 502)
    else if e.statusCode == 1011 then Some(502)
    else if e.statusCode == 1008 then Some(400)
    else None
  }

  /** The status of a response message reaches a client that has none, and nothing else does. */
  lemma StatusReachesClient(st: Sys, msg: string)
    requires Inv(st) && !st.sock.panicked && st.request != Before && !st.readerEnded && ParseResponse(msg).Some?
    ensures var was := st.sock.client.value;
            Step(st, Text(msg)) == st.(sock := st.sock.(client :=
              Some(Client(Some(if was.status.Some? then was.status.value else ParseResponse(msg).value.status), was.body, was.errorPage))))
  {
  }

  /** Exactly what panics the reader: a chunk before `SetResponse`, or after it a message
      without a second line or without a space in its first. */
  lemma ReaderPanicsIff(st: Sys, e: Event)
    requires !st.sock.panicked
    ensures Step(st, e).sock.panicked <==>
            && !st.readerEnded
            && (|| (e.Binary? && st.sock.client.None?)
                || (e.Text? && st.sock.client.Some? &&
                    (|Split(e.msg, '\n')| < 2 || ' ' !in Split(e.msg, '\n')[0])))
  {
    if e.Text? { ParseResponseDefined(e.msg); }
  }

  /** A chunk reaches the client, under status 200 if none was written; a failed write has
      released the wait and closed the session. */
  lemma ChunkWrittenOrReleased(st: Sys, buf: Bytes, writeOk: bool)
    requires Inv(st) && !st.sock.panicked && st.request != Before && !st.readerEnded
    ensures var was, end := st.sock.client.value, Step(st, Binary(buf, writeOk)).sock;
            if writeOk then
              && end.client == Some(Client(Some(if was.status.Some? then was.status.value else 200), was.body + buf, was.errorPage))
              && (end.dones, end.session) == (st.sock.dones, st.sock.session)
            else end.client == Some(was) && end.dones == 1 && !end.session
  {
  }

  /** A failing ping closes the session and tells the farm, once; a stopping farm only closes. */
  lemma SessionEnds(st: Sys)
    requires Inv(st) && !st.sock.panicked && st.sock.session
    ensures var s := Step(st, PingFails).sock; !s.session && s.removals == 1 && s.dones == st.sock.dones
    ensures var s := Step(st, FarmStop).sock; !s.session && s == st.sock.(session := false)
  {
  }

  /** A socket that was not registered is not removed when it closes. */
  lemma UnregisteredCloses(code: int)
    ensures var s := Registered().(isRegister := false).OnClose(code); s.removals == 0 && !s.session
  {
  }

  /** What a client may still be told after `was`: a status stays, a body only grows, an
      error page is not taken back. */
  predicate Extends(was: Client, now: Client)
  {
    && (was.status.Some? ==> now.status == was.status)
    && was.body <= now.body
    && (was.errorPage ==> now.errorPage)
  }

  lemma StepExtends(st: Sys, e: Event)
    requires Inv(st) && st.sock.client.Some?
    ensures Step(st, e).sock.client.Some? && Extends(st.sock.client.value, Step(st, e).sock.client.value)
  {
  }

  /** Whichever goroutine writes next, nothing the client was sent is revoked. */
  lemma {:induction false} ResponseOnlyGrows(st: Sys, es: seq<Event>)
    requires Inv(st) && st.sock.client.Some?
    ensures Run(st, es).sock.client.Some? && Extends(st.sock.client.value, Run(st, es).sock.client.value)
    decreases |es|
  {
    if es == [] {
    } else {
      StepInv(st, es[0]);
      StepExtends(st, es[0]);
      ResponseOnlyGrows(Step(st, es[0]), es[1..]);
    }
  }

  /** A failed send has released the wait when it has been handled, except for exactly the
      swallowed one, which leaves an unreleased wait unreleased. */
  lemma SendFailureReleasesIff(st: Sys, e: Event)
    requires Inv(st) && !st.sock.panicked && st.sock.handleDone
    requires FailsHandled(st, e) || Swallowed(st, e)
    ensures Step(st, e).request == Waiting
    ensures Step(st, e).sock.dones == 1 <==> !Swallowed(st, e)
  {
  }

  /** A failing send releases the wait while the reader goes on. */
  lemma FailedSendReleasesFirst(msg: string, timeout: bool)
    requires ParseResponse(msg).Some?
    ensures var st := Run(START, [Set, SendText(true, timeout), Text(msg), SendData(false, true, timeout)]);
            st.sock.dones == 1 && !st.readerEnded && st.sock.client.Some? && st.sock.client.value.errorPage
  {
    var s1 := Step(START, Set);
    var s2 := Step(s1, SendText(true, timeout));
    var s3 := Step(s2, Text(msg));
    var es: seq<Event> := [Set, SendText(true, timeout), Text(msg), SendData(false, true, timeout)];
    assert es[1..] == [SendText(true, timeout), Text(msg), SendData(false, true, timeout)];
    assert es[1..][1..] == [Text(msg), SendData(false, true, timeout)];
    assert es[1..][1..][1..] == [SendData(false, true, timeout)];
    assert [SendData(false, true, timeout)][1..] == [];
    assert Run(s3, [SendData(false, true, timeout)]) == Step(s3, SendData(false, true, timeout));
    assert Run(s2, es[1..][1..]) == Run(s3, [SendData(false, true, timeout)]);
  }

  /** The swallowed failure is reachable: the request then waits for the reader to end. */
  lemma SwallowedFailureHappens()
    ensures var st := Run(START, [Set, SendText(true, false), SendData(false, false, false)]);
            && st.request == Waiting && st.sock.dones == 0 && !st.readerEnded
            && Step(st, Return) == st
            && Step(st, Close(1006)).sock.dones == 1
  {
    var s1 := Step(START, Set);
    var s2 := Step(s1, SendText(true, false));
    var s3 := Step(s2, SendData(false, false, false));
    var es: seq<Event> := [Set, SendText(true, false), SendData(false, false, false)];
    assert es[1..] == [SendText(true, false), SendData(false, false, false)];
    assert es[1..][1..] == [SendData(false, false, false)];
    assert Run(s2, [SendData(false, false, false)]) == s3;
    assert Run(s1, es[1..]) == s3;
  }
}
