/** The connector's sliding window (connector/connector.go, ws_cli_farm_conn_info.go and the
    availableConns counter of util/connection_monitor.go) as a value: every socket ever
    created with its life, the per-URI counters, the attempts of each window slot.
    A consume step (decrement, check, reconnect, increment) is atomic. */
module Connector {
  import opened Counting
  import C = ConnectorSocket

  datatype Uri = Register(router: string) | Deregister(router: string)

  datatype Mode = NotStarted | Running | ShuttingDown | ShutDown

  /** A socket with the URI it dials and the ConnectionInfo (slot) it belongs to. */
  datatype Entry = Entry(uri: Uri, slot: nat, life: C.Life)
  {
    predicate Active() { life.Idle() || life.InBackoff() }
  }

  datatype Conn = Conn(
    window: nat, routers: seq<string>, mode: Mode,
    cancelled: bool,           // ParentCancel has run
    deregistered: nat,         // routers a deregister dial was started for
    counts: map<Uri, int>,     // connectorSockets of the WebsocketClientFarm
    available: int,            // availableConns
    attempts: seq<nat>,        // curConnAttempts of each ConnectionInfo
    entries: seq<Entry>)       // every socket ever dialed, in order
  {
    function CountOf(uri: Uri): int { CountIn(counts, uri) }

    function AddWebsocket(uri: Uri): Conn { this.(counts := counts[uri := CountOf(uri) + 1]) }

    function RemoveWebsocket(uri: Uri): Conn
    {
      if uri in counts then this.(counts := counts[uri := counts[uri] - 1]) else this
    }

    predicate IsSafeToAdd(uri: Uri) { uri.Register? && 2 * window > CountOf(uri) }

    function NewSlot(): Conn { this.(attempts := attempts + [0]) }

    function ConnectToRouter(uri: Uri, slot: nat): Conn
      requires slot < |attempts|
    {
      if mode == ShutDown then this
      else this.(attempts := attempts[slot := attempts[slot] + 1],
                 entries := entries + [Entry(uri, slot, C.BORN)])
    }

    /** A connection of the window: dial, count, report. */
    function Launch(uri: Uri, slot: nat): Conn
      requires slot < |attempts|
    {
      var st := ConnectToRouter(uri, slot).AddWebsocket(uri);
      st.(available := st.available + 1)
    }

    predicate Stopping() { mode == ShuttingDown || mode == ShutDown }

    /** The whenConsumedAction closure. */
    function WhenConsumed(uri: Uri, slot: nat): Conn
      requires slot < |attempts|
    {
      var st := this.(available := available - 1);
      if !Stopping() && IsSafeToAdd(uri) then st.Launch(uri, slot) else st
    }

    function ConnectedSuccessfully(slot: nat): Conn
      requires slot < |attempts|
    {
      this.(attempts := attempts[slot := 0])
    }

    /** What a handler calls before whenConsumedAction. */
    function Prepared(a: C.Ask, uri: Uri, slot: nat): Conn
      requires slot < |attempts|
    {
      var st := if a.Removes() then RemoveWebsocket(uri) else this;
      if a.OnRequest? then st.ConnectedSuccessfully(slot) else st
    }

    /** The calls of one handler, in their order. */
    function Answer(a: C.Ask, uri: Uri, slot: nat): Conn
      requires slot < |attempts|
    {
      var st := Prepared(a, uri, slot);
      if a.Consumes() then st.WhenConsumed(uri, slot) else st
    }

    ghost predicate Slotted()
    {
      forall i :: 0 <= i < |entries| ==> entries[i].slot < |attempts| && entries[i].life.Ok()
    }
  }

  function CountIn(counts: map<Uri, int>, uri: Uri): int { if uri in counts then counts[uri] else 0 }

  /** No counter is greater. */
  ghost predicate Shrunk(was: map<Uri, int>, now: map<Uri, int>) { forall u :: CountIn(now, u) <= CountIn(was, u) }

  // ---------- Start ----------

  /** `n` window slots for one router URI. */
  function Slots(st: Conn, uri: Uri, n: nat): Conn
  {
    if n == 0 then st
    else OneSlot(Slots(st, uri, n - 1), uri)
  }

  function OneSlot(st: Conn, uri: Uri): Conn { st.NewSlot().Launch(uri, |st.attempts|) }

  function StartUpTo(st: Conn, k: nat): Conn
    requires k <= |st.routers|
  {
    if k == 0 then st else Slots(StartUpTo(st, k - 1), Register(st.routers[k - 1]), st.window)
  }

  function Started(st: Conn): Conn { StartUpTo(st, |st.routers|).(mode := Running) }

  function New(window: nat, routers: seq<string>): Conn
  {
    Conn(window, routers, NotStarted, false, 0, map[], 0, [], [])
  }

  // ---------- runs ----------

  datatype Event =
    | Deliver(i: nat, e: C.Event)  // an event of the i-th socket
    | BeginShutDown | CancelContext | DeregisterNext | FinishShutDown

  /** The backoff goroutine reads the connector's own context. */
  function Actual(st: Conn, e: C.Event): C.Event { if e.RetryCheck? then C.RetryCheck(st.cancelled) else e }

  function Delivered(st: Conn, i: nat, e: C.Event): Conn
    requires st.Slotted() && i < |st.entries|
  {
    var x := st.entries[i];
    var (life, a) := C.Step(x.life, Actual(st, e));
    st.(entries := st.entries[i := x.(life := life)]).Answer(a, x.uri, x.slot)
  }

  /** The k-th deregister dial. */
  function OneDown(st: Conn, k: nat): Conn
    requires 0 < k <= |st.routers|
  {
    st.NewSlot().(deregistered := k).ConnectToRouter(Deregister(st.routers[k - 1]), |st.attempts|)
  }

  ghost function Step(st: Conn, e: Event): Conn
    requires st.Slotted()
  {
    match e
    case Deliver(i, ev) => if i < |st.entries| then Delivered(st, i, ev) else st
    case BeginShutDown => if st.Stopping() then st else st.(mode := ShuttingDown)
    case CancelContext => if st.mode == ShuttingDown then st.(cancelled := true) else st
    case DeregisterNext =>
      if st.mode == ShuttingDown && st.cancelled && st.deregistered < |st.routers| then
        OneDown(st, st.deregistered + 1)
      else st
    case FinishShutDown =>
      if st.mode == ShuttingDown && st.deregistered == |st.routers| then st.(mode := ShutDown) else st
  }

  lemma LaunchSlotted(st: Conn, uri: Uri, slot: nat)
    requires st.Slotted() && slot < |st.attempts|
    ensures st.ConnectToRouter(uri, slot).Slotted() && st.Launch(uri, slot).Slotted()
  {
  }

  lemma AnswerSlotted(st: Conn, a: C.Ask, uri: Uri, slot: nat)
    requires st.Slotted() && slot < |st.attempts|
    ensures st.Answer(a, uri, slot).Slotted()
    ensures |st.Answer(a, uri, slot).attempts| == |st.attempts|
  {
    var mid := st.Prepared(a, uri, slot);
    assert mid.Slotted();
    if a.Consumes() { ConsumedSlotted(mid, uri, slot); }
  }

  lemma ConsumedSlotted(st: Conn, uri: Uri, slot: nat)
    requires st.Slotted() && slot < |st.attempts|
    ensures st.WhenConsumed(uri, slot).Slotted() && |st.WhenConsumed(uri, slot).attempts| == |st.attempts|
  {
    LaunchSlotted(st.(available := st.available - 1), uri, slot);
  }

  lemma StepSlotted(st: Conn, e: Event)
    requires st.Slotted()
    ensures Step(st, e).Slotted()
  {
    if e.Deliver? && e.i < |st.entries| {
      var x := st.entries[e.i];
      C.StepKeepsOk(x.life, Actual(st, e.e));
      var st' := st.(entries := st.entries[e.i := x.(life := C.Step(x.life, Actual(st, e.e)).0)]);
      AnswerSlotted(st', C.Step(x.life, Actual(st, e.e)).1, x.uri, x.slot);
    } else if e.DeregisterNext? && st.deregistered < |st.routers| {
      LaunchSlotted(st.NewSlot().(deregistered := st.deregistered + 1), Deregister(st.routers[st.deregistered]), |st.attempts|);
    }
  }

  ghost function Run(st: Conn, es: seq<Event>): Conn
    requires st.Slotted()
    decreases |es|
  {
    if es == [] then st
    else
      StepSlotted(st, es[0]);
      Run(Step(st, es[0]), es[1..])
  }

  // ---------- counting sockets ----------

  datatype Kind = IdleAt(uri: Uri) | BackoffAt(uri: Uri) | ActiveAt(uri: Uri) | AllActive | ActiveIn(slot: nat) | OfSlot(slot: nat)

  predicate Has(k: Kind, x: Entry)
  {
    match k
    case IdleAt(u) => x.uri == u && x.life.Idle()
    case BackoffAt(u) => x.uri == u && x.life.InBackoff()
    case ActiveAt(u) => x.uri == u && x.Active()
    case AllActive => x.Active()
    case ActiveIn(slot) => x.slot == slot && x.Active()
    case OfSlot(slot) => x.slot == slot
  }

  function Count(xs: seq<Entry>, k: Kind): nat
  {
    if xs == [] then 0 else Count(xs[..|xs| - 1], k) + Tally(Has(k, xs[|xs| - 1]))
  }

  lemma CountSnoc(xs: seq<Entry>, x: Entry, k: Kind)
    ensures Count(xs + [x], k) == Count(xs, k) + Tally(Has(k, x))
  {
    assert (xs + [x])[..|xs|] == xs;
  }

  lemma {:induction false} CountUpdate(xs: seq<Entry>, i: nat, x: Entry, k: Kind)
    requires i < |xs|
    ensures Count(xs[i := x], k) == Count(xs, k) - Tally(Has(k, xs[i])) + Tally(Has(k, x))
  {
    var n := |xs| - 1;
    if i == n {
      assert xs[i := x][..n] == xs[..n];
    } else {
      assert xs[i := x][..n] == xs[..n][i := x];
      CountUpdate(xs[..n], i, x, k);
    }
  }

  lemma {:induction false} IdleOrInBackoff(xs: seq<Entry>, u: Uri)
    requires forall i :: 0 <= i < |xs| ==> xs[i].life.Ok()
    ensures Count(xs, ActiveAt(u)) == Count(xs, IdleAt(u)) + Count(xs, BackoffAt(u))
  {
    if xs == [] {
    } else {
      IdleOrInBackoff(xs[..|xs| - 1], u);
    }
  }

  // ---------- the window, before shutdown ----------

  predicate CountedAt(st: Conn, u: Uri) { st.CountOf(u) == Count(st.entries, IdleAt(u)) }

  /** Every socket's URI has a counter, and only register URIs have one. */
  ghost predicate Tracked(st: Conn)
  {
    && (forall i :: 0 <= i < |st.entries| ==> st.entries[i].uri in st.counts)
    && (forall u :: u in st.counts ==> u.Register?)
  }

  /** The farm's counters are the idle sockets, availableConns is the idle sockets and those
      in backoff. */
  ghost predicate Counted(st: Conn)
  {
    Tracked(st) && (forall u :: CountedAt(st, u)) && st.available == Count(st.entries, AllActive)
  }

  ghost predicate Live(st: Conn) { st.Slotted() && Counted(st) && !st.cancelled && !st.Stopping() }

  /** From `st` to `end` a URI gets n more sockets that are idle or in backoff. */
  ghost predicate Grown(st: Conn, end: Conn, uri: Uri, n: int)
  {
    && (end.window, end.routers, end.mode, end.cancelled) == (st.window, st.routers, st.mode, st.cancelled)
    && (forall u :: Count(end.entries, ActiveAt(u)) == Count(st.entries, ActiveAt(u)) + (if u == uri then n else 0))
    && end.available == st.available + n
  }

  lemma Launched(st: Conn, uri: Uri, slot: nat)
    requires st.mode != ShutDown && slot < |st.attempts|
    ensures st.Launch(uri, slot).entries == st.entries + [Entry(uri, slot, C.BORN)]
    ensures st.Launch(uri, slot).counts == st.counts[uri := st.CountOf(uri) + 1]
    ensures st.Launch(uri, slot).available == st.available + 1
    ensures var end := st.Launch(uri, slot);
            (end.window, end.routers, end.mode, end.cancelled) == (st.window, st.routers, st.mode, st.cancelled)
  {
  }

  lemma BornCounts(xs: seq<Entry>, uri: Uri, slot: nat, u: Uri)
    ensures Count(xs + [Entry(uri, slot, C.BORN)], IdleAt(u)) == Count(xs, IdleAt(u)) + Tally(u == uri)
    ensures Count(xs + [Entry(uri, slot, C.BORN)], ActiveAt(u)) == Count(xs, ActiveAt(u)) + Tally(u == uri)
  {
    var x := Entry(uri, slot, C.BORN);
    CountSnoc(xs, x, IdleAt(u));
    CountSnoc(xs, x, ActiveAt(u));
  }

  lemma LaunchCountsAt(st: Conn, uri: Uri, slot: nat, u: Uri)
    requires CountedAt(st, u) && st.mode != ShutDown && slot < |st.attempts|
    ensures CountedAt(st.Launch(uri, slot), u)
    ensures Count(st.Launch(uri, slot).entries, ActiveAt(u)) == Count(st.entries, ActiveAt(u)) + Tally(u == uri)
  {
    Launched(st, uri, slot);
    BornCounts(st.entries, uri, slot, u);
  }

  lemma LaunchTracked(st: Conn, uri: Uri, slot: nat)
    requires Tracked(st) && slot < |st.attempts| && uri.Register?
    ensures Tracked(st.Launch(uri, slot))
  {
  }

  lemma LaunchCounted(st: Conn, uri: Uri, slot: nat)
    requires Counted(st) && st.mode != ShutDown && slot < |st.attempts| && uri.Register?
    ensures Counted(st.Launch(uri, slot)) && Grown(st, st.Launch(uri, slot), uri, 1)
  {
    LaunchTracked(st, uri, slot);
    LaunchGrows(st, uri, slot);
    CountSnoc(st.entries, Entry(uri, slot, C.BORN), AllActive);
    Launched(st, uri, slot);
    forall u ensures CountedAt(st.Launch(uri, slot), u) { LaunchCountsAt(st, uri, slot, u); }
  }

  lemma LaunchGrows(st: Conn, uri: Uri, slot: nat)
    requires Counted(st) && st.mode != ShutDown && slot < |st.attempts|
    ensures Grown(st, st.Launch(uri, slot), uri, 1)
  {
    Launched(st, uri, slot);
    forall u ensures Count(st.Launch(uri, slot).entries, ActiveAt(u)) == Count(st.entries, ActiveAt(u)) + Tally(u == uri) {
      LaunchCountsAt(st, uri, slot, u);
    }
  }

  /** The state in which whenConsumedAction decides, if it is called: the socket has moved to
      x', and what the handler does before is done. */
  function Decide(st: Conn, i: nat, x': Entry, a: C.Ask): Conn
    requires i < |st.entries| && x'.slot < |st.attempts|
  {
    var st' := st.(entries := st.entries[i := x']).Prepared(a, x'.uri, x'.slot);
    st'.(available := st'.available - Tally(a.Consumes()))
  }

  function AtDecision(st: Conn, i: nat, e: C.Event): Conn
    requires st.Slotted() && i < |st.entries|
  {
    var (life, a) := C.Step(st.entries[i].life, Actual(st, e));
    Decide(st, i, st.entries[i].(life := life), a)
  }

  /** The branch logged as an unexpected error: a consumed socket is not replaced. */
  predicate Refused(st: Conn, i: nat, e: C.Event)
    requires st.Slotted() && i < |st.entries|
  {
    && C.Step(st.entries[i].life, Actual(st, e)).1.Consumes()
    && !AtDecision(st, i, e).IsSafeToAdd(st.entries[i].uri)
  }

  /** What a socket's move asks of the counters. */
  predicate Moves(x: Entry, x': Entry, a: C.Ask)
  {
    && (x'.uri, x'.slot) == (x.uri, x.slot)
    && (a.Removes() <==> x.life.Idle() && !x'.life.Idle()) && (x'.life.Idle() ==> x.life.Idle())
    && (a.Consumes() <==> x.Active() && !x'.Active()) && (x'.Active() ==> x.Active())
  }

  lemma StepMoves(x: Entry, e: C.Event)
    requires x.life.Ok() && e != C.RetryCheck(true)
    ensures Moves(x, x.(life := C.Step(x.life, e).0), C.Step(x.life, e).1)
  {
    C.StepAsks(x.life, e);
  }

  lemma DecisionCountsAt(st: Conn, i: nat, x': Entry, a: C.Ask, u: Uri)
    requires Tracked(st) && CountedAt(st, u) && i < |st.entries| && st.entries[i].slot < |st.attempts|
    requires Moves(st.entries[i], x', a)
    ensures CountedAt(Decide(st, i, x', a), u)
    ensures Count(Decide(st, i, x', a).entries, ActiveAt(u))
         == Count(st.entries, ActiveAt(u)) - Tally(u == st.entries[i].uri && a.Consumes())
  {
    CountUpdate(st.entries, i, x', IdleAt(u));
    CountUpdate(st.entries, i, x', ActiveAt(u));
  }

  lemma DecisionTracked(st: Conn, i: nat, x': Entry, a: C.Ask)
    requires Tracked(st) && i < |st.entries| && x'.slot < |st.attempts| && x'.uri == st.entries[i].uri
    ensures Tracked(Decide(st, i, x', a))
  {
  }

  lemma DecisionCounted(st: Conn, i: nat, x': Entry, a: C.Ask)
    requires Counted(st) && i < |st.entries| && st.entries[i].slot < |st.attempts|
    requires Moves(st.entries[i], x', a)
    ensures Counted(Decide(st, i, x', a))
    ensures Grown(st, Decide(st, i, x', a), st.entries[i].uri, 0 - Tally(a.Consumes()))
  {
    var mid := Decide(st, i, x', a);
    DecisionTracked(st, i, x', a);
    CountUpdate(st.entries, i, x', AllActive);
    forall u
      ensures CountedAt(mid, u)
      ensures Count(mid.entries, ActiveAt(u)) == Count(st.entries, ActiveAt(u)) - Tally(u == st.entries[i].uri && a.Consumes())
    {
      DecisionCountsAt(st, i, x', a, u);
    }
  }

  /** From `st` to `end`, the sockets that are idle or in backoff for a URI stay as many,
      unless a replacement is refused; and then there are at least twice the window left. */
  ghost predicate WindowKept(st: Conn, end: Conn, uri: Uri, refused: bool)
  {
    && Counted(end) && Grown(st, end, uri, 0 - Tally(refused))
    && (refused ==> Count(end.entries, ActiveAt(uri)) >= 2 * st.window)
  }

  lemma DecidedKeepsWindow(st: Conn, i: nat, x': Entry, a: C.Ask)
    requires Live(st) && i < |st.entries| && Moves(st.entries[i], x', a) && x'.life.Ok()
    ensures var mid := Decide(st, i, x', a);
            var replaced := a.Consumes() && mid.IsSafeToAdd(x'.uri);
            WindowKept(st, if replaced then mid.Launch(x'.uri, x'.slot) else mid, x'.uri, a.Consumes() && !replaced)
  {
    DecisionCounted(st, i, x', a);
    var mid := Decide(st, i, x', a);
    if a.Consumes() {
      ReplacedCounted(mid, x'.uri, x'.slot);
      IdleOrInBackoff(mid.entries, x'.uri);
    }
  }

  lemma DeliverKeepsWindow(st: Conn, i: nat, e: C.Event)
    requires Live(st) && i < |st.entries|
    ensures Live(Delivered(st, i, e))
    ensures WindowKept(st, Delivered(st, i, e), st.entries[i].uri, Refused(st, i, e))
  {
    var x := st.entries[i];
    var (life, a) := C.Step(x.life, Actual(st, e));
    StepMoves(x, Actual(st, e));
    C.StepKeepsOk(x.life, Actual(st, e));
    DecidedKeepsWindow(st, i, x.(life := life), a);
    DeliveredDecides(st, i, e);
    StepSlotted(st, Deliver(i, e));
  }

  lemma ReplacedCounted(mid: Conn, uri: Uri, slot: nat)
    requires Counted(mid) && mid.mode != ShutDown && slot < |mid.attempts| && uri.Register?
    ensures var end := if mid.IsSafeToAdd(uri) then mid.Launch(uri, slot) else mid;
            && Counted(end) && Grown(mid, end, uri, Tally(mid.IsSafeToAdd(uri)))
            && (!mid.IsSafeToAdd(uri) ==> Count(end.entries, IdleAt(uri)) >= 2 * mid.window)
  {
    if mid.IsSafeToAdd(uri) { LaunchCounted(mid, uri, slot); } else { assert CountedAt(mid, uri); }
  }

  /** After the decision: one more connection, or none. */
  lemma DeliveredDecides(st: Conn, i: nat, e: C.Event)
    requires st.Slotted() && i < |st.entries|
    ensures var x, mid := st.entries[i], AtDecision(st, i, e);
            var replaced := C.Step(x.life, Actual(st, e)).1.Consumes() && !st.Stopping() && mid.IsSafeToAdd(x.uri);
            Delivered(st, i, e) == if replaced then mid.Launch(x.uri, x.slot) else mid
  {
    var x := st.entries[i];
    var (life, a) := C.Step(x.life, Actual(st, e));
    AnswerDecides(st, i, x.(life := life), a);
  }

  lemma AnswerDecides(st: Conn, i: nat, x': Entry, a: C.Ask)
    requires i < |st.entries| && x'.slot < |st.attempts|
    ensures var mid := Decide(st, i, x', a);
            st.(entries := st.entries[i := x']).Answer(a, x'.uri, x'.slot)
            == if a.Consumes() && !st.Stopping() && mid.IsSafeToAdd(x'.uri) then mid.Launch(x'.uri, x'.slot) else mid
  {
  }

  lemma StepKeepsWindow(st: Conn, e: Event, u: Uri)
    requires Live(st) && e != BeginShutDown
    ensures Live(Step(st, e)) && Step(st, e).window == st.window
    ensures var n, n' := Count(st.entries, ActiveAt(u)), Count(Step(st, e).entries, ActiveAt(u));
            n' == n || (n' == n - 1 && n' >= 2 * st.window)
  {
    if e.Deliver? && e.i < |st.entries| { DeliverKeepsWindow(st, e.i, e.e); }
  }

  function Min(a: int, b: int): int { if a < b then a else b }

  lemma {:induction false} RunKeepsWindow(st: Conn, es: seq<Event>, u: Uri)
    requires Live(st) && BeginShutDown !in es
    ensures Live(Run(st, es)) && Run(st, es).window == st.window
    ensures Min(Count(st.entries, ActiveAt(u)), 2 * st.window)
         <= Count(Run(st, es).entries, ActiveAt(u)) <= Count(st.entries, ActiveAt(u))
    decreases |es|
  {
    if es == [] {
    } else {
      StepKeepsWindow(st, es[0], u);
      RunKeepsWindow(Step(st, es[0]), es[1..], u);
    }
  }

  // ---------- Start fills the window ----------

  lemma SlotFills(st: Conn, uri: Uri)
    requires Live(st) && uri.Register?
    ensures Live(OneSlot(st, uri)) && Grown(st, OneSlot(st, uri), uri, 1)
  {
    var st' := st.NewSlot();
    assert Counted(st') by {
      forall u ensures CountedAt(st', u) { assert CountedAt(st, u); }
    }
    LaunchSlotted(st', uri, |st.attempts|);
    LaunchCounted(st', uri, |st.attempts|);
  }

  lemma {:induction false} SlotsFill(st: Conn, uri: Uri, n: nat)
    requires Live(st) && uri.Register?
    ensures Live(Slots(st, uri, n)) && Grown(st, Slots(st, uri, n), uri, n)
  {
    if n == 0 {
    } else {
      SlotsFill(st, uri, n - 1);
      NextSlotFills(st, Slots(st, uri, n - 1), uri, n);
    }
  }

  lemma NextSlotFills(st: Conn, mid: Conn, uri: Uri, n: nat)
    requires n > 0 && Live(mid) && Grown(st, mid, uri, n - 1) && uri.Register?
    ensures Live(OneSlot(mid, uri)) && Grown(st, OneSlot(mid, uri), uri, n)
  {
    SlotFills(mid, uri);
    GrownTwice(st, mid, OneSlot(mid, uri), uri, n - 1, 1);
  }

  lemma GrownTwice(st: Conn, mid: Conn, end: Conn, uri: Uri, m: int, n: int)
    requires Grown(st, mid, uri, m) && Grown(mid, end, uri, n)
    ensures Grown(st, end, uri, m + n)
  {
  }

  function Times(k: nat, n: nat): nat { if k == 0 then 0 else Times(k - 1, n) + n }

  lemma {:induction false} TimesIsProduct(k: nat, n: nat)
    ensures Times(k, n) == n * k
  {
    if k == 0 {
    } else {
      TimesIsProduct(k - 1, n);
    }
  }

  ghost predicate Filled(st: Conn, window: nat, routers: seq<string>, total: nat)
  {
    && Live(st) && st.window == window && st.mode == NotStarted
    && (forall r :: Count(st.entries, ActiveAt(Register(r))) == Total(window, routers, r))
    && st.available == total
  }

  lemma NewIsEmpty(window: nat, routers: seq<string>)
    ensures Filled(New(window, routers), window, [], 0)
  {
  }

  lemma FillOne(st: Conn, window: nat, routers: seq<string>, total: nat, r: string)
    requires Filled(st, window, routers, total)
    ensures Filled(Slots(st, Register(r), window), window, routers + [r], total + window)
    ensures Slots(st, Register(r), window).routers == st.routers
  {
    var end := Slots(st, Register(r), window);
    SlotsFill(st, Register(r), window);
    forall r' ensures Count(end.entries, ActiveAt(Register(r'))) == Total(window, routers + [r], r') {
      assert (routers + [r])[..|routers|] == routers;
    }
  }

  lemma {:induction false} StartFillsUpTo(st: Conn, k: nat)
    requires Filled(st, st.window, [], 0) && k <= |st.routers|
    ensures Filled(StartUpTo(st, k), st.window, st.routers[..k], Times(k, st.window))
    ensures StartUpTo(st, k).routers == st.routers
  {
    if k == 0 {
      assert st.routers[..0] == [];
    } else {
      StartFillsUpTo(st, k - 1);
      FillNext(st, k);
    }
  }

  lemma FillNext(st: Conn, k: nat)
    requires 0 < k <= |st.routers|
    requires Filled(StartUpTo(st, k - 1), st.window, st.routers[..k - 1], Times(k - 1, st.window))
    requires StartUpTo(st, k - 1).routers == st.routers
    ensures Filled(StartUpTo(st, k), st.window, st.routers[..k], Times(k, st.window))
    ensures StartUpTo(st, k).routers == st.routers
  {
    var before, next := StartUpTo(st, k - 1), st.routers[k - 1];
    assert st.routers[..k] == st.routers[..k - 1] + [next];
    assert before.window == st.window;
    FillOne(before, st.window, st.routers[..k - 1], Times(k - 1, st.window), next);
  }

  /** The window of every listing of a router. */
  function Total(window: nat, routers: seq<string>, r: string): nat
  {
    if routers == [] then 0
    else Total(window, routers[..|routers| - 1], r) + (if routers[|routers| - 1] == r then window else 0)
  }

  lemma {:induction false} TotalIsMultiple(window: nat, routers: seq<string>, r: string)
    ensures Total(window, routers, r) == Times(multiset(routers)[r], window)
  {
    if routers == [] {
    } else {
      var front, last := routers[..|routers| - 1], routers[|routers| - 1];
      TotalIsMultiple(window, front, r);
      assert routers == front + [last];
      assert multiset(routers)[r] == multiset(front)[r] + (if last == r then 1 else 0);
    }
  }

  lemma StartFills(window: nat, routers: seq<string>)
    ensures var st := Started(New(window, routers));
            && Live(st) && st.mode == Running && st.window == window
            && (forall r :: Count(st.entries, ActiveAt(Register(r))) == window * multiset(routers)[r])
            && st.available == window * |routers|
  {
    var n := |routers|;
    var full := StartUpTo(New(window, routers), n);
    NewIsEmpty(window, routers);
    StartFillsUpTo(New(window, routers), n);
    assert routers[..n] == routers;
    TimesIsProduct(n, window);
    NowRunning(full);
    forall r ensures Count(full.entries, ActiveAt(Register(r))) == window * multiset(routers)[r] {
      TotalIsMultiple(window, routers, r);
      TimesIsProduct(multiset(routers)[r], window);
    }
  }

  lemma NowRunning(st: Conn)
    requires Live(st)
    ensures Live(st.(mode := Running))
  {
    forall u ensures CountedAt(st.(mode := Running), u) { assert CountedAt(st, u); }
  }

  /** Window conservation. For a router listed k times, in every run before shutdown, the
      sockets the farm counts plus those in backoff stay between min(kW, 2W) and kW; so for
      k <= 2 they are exactly kW. */
  lemma WindowInEveryRun(window: nat, routers: seq<string>, es: seq<Event>, r: string)
    requires BeginShutDown !in es
    ensures Started(New(window, routers)).Slotted()
    ensures var st := Run(Started(New(window, routers)), es);
            var active := st.CountOf(Register(r)) + Count(st.entries, BackoffAt(Register(r)));
            && Min(window * multiset(routers)[r], 2 * window) <= active <= window * multiset(routers)[r]
            && st.available == Count(st.entries, AllActive)
  {
    var st0 := Started(New(window, routers));
    StartFills(window, routers);
    RunKeepsWindow(st0, es, Register(r));
    ActiveIsCounted(Run(st0, es), Register(r));
  }

  lemma ActiveIsCounted(st: Conn, u: Uri)
    requires Live(st)
    ensures Count(st.entries, ActiveAt(u)) == st.CountOf(u) + Count(st.entries, BackoffAt(u))
  {
    IdleOrInBackoff(st.entries, u);
    assert CountedAt(st, u);
  }

  ghost predicate AllListedTwice(window: nat, routers: seq<string>, st: Conn)
  {
    && Live(st) && st.window == window && st.available == window * |routers|
    && (forall u :: Count(st.entries, ActiveAt(u)) <= 2 * window)
  }

  lemma NotRefused(st: Conn, i: nat, e: C.Event)
    requires Live(st) && i < |st.entries|
    requires forall u :: Count(st.entries, ActiveAt(u)) <= 2 * st.window
    ensures !Refused(st, i, e)
  {
    DeliverKeepsWindow(st, i, e);
    assert Count(st.entries, ActiveAt(st.entries[i].uri)) <= 2 * st.window;
  }

  lemma {:induction false} RunNeverRefuses(window: nat, routers: seq<string>, st: Conn, es: seq<Event>)
    requires AllListedTwice(window, routers, st) && BeginShutDown !in es
    ensures AllListedTwice(window, routers, Run(st, es))
    decreases |es|
  {
    if es == [] {
    } else {
      if es[0].Deliver? && es[0].i < |st.entries| {
        NotRefused(st, es[0].i, es[0].e);
        DeliverKeepsWindow(st, es[0].i, es[0].e);
      }
      RunNeverRefuses(window, routers, Step(st, es[0]), es[1..]);
    }
  }

  lemma {:induction false} OnlyRegisters(xs: seq<Entry>, u: Uri)
    requires forall i :: 0 <= i < |xs| ==> xs[i].uri.Register?
    requires u.Deregister?
    ensures Count(xs, ActiveAt(u)) == 0
  {
    if xs == [] {
    } else {
      OnlyRegisters(xs[..|xs| - 1], u);
    }
  }

  /** With an empty window or no router listed more than twice the "unexpected error" branch is never taken and
      availableConns stays at window size times routers. */
  lemma NeverRefusesIfListedTwice(window: nat, routers: seq<string>, es: seq<Event>)
    requires BeginShutDown !in es
    requires window == 0 || forall r :: multiset(routers)[r] <= 2
    ensures Started(New(window, routers)).Slotted()
    ensures var st := Run(Started(New(window, routers)), es);
            && st.available == window * |routers|
            && st.Slotted() && (forall i: nat, e | i < |st.entries| :: !Refused(st, i, e))
  {
    var st0 := Started(New(window, routers));
    StartFills(window, routers);
    forall u ensures Count(st0.entries, ActiveAt(u)) <= 2 * window {
      if u.Register? {
        if window > 0 {
          assert multiset(routers)[u.router] <= 2;
          Scaled(window, multiset(routers)[u.router], 2);
        }
      } else {
        OnlyRegisters(st0.entries, u);
      }
    }
    RunNeverRefuses(window, routers, st0, es);
    var st := Run(st0, es);
    forall i: nat, e | i < |st.entries| ensures !Refused(st, i, e) { NotRefused(st, i, e); }
  }

  lemma Scaled(w: nat, a: nat, b: nat)
    requires a <= b
    ensures w * a <= w * b
  {
  }

  // ---------- more than two listings ----------

  ghost predicate AllBorn(st: Conn) { forall i :: 0 <= i < |st.entries| ==> st.entries[i].life == C.BORN }

  lemma {:induction false} SlotsBorn(st: Conn, uri: Uri, n: nat)
    requires AllBorn(st)
    ensures AllBorn(Slots(st, uri, n)) && Slots(st, uri, n).routers == st.routers
  {
    if n == 0 {
    } else {
      SlotsBorn(st, uri, n - 1);
    }
  }

  lemma {:induction false} StartBorn(st: Conn, k: nat)
    requires AllBorn(st) && k <= |st.routers|
    ensures AllBorn(StartUpTo(st, k)) && StartUpTo(st, k).routers == st.routers
  {
    if k == 0 {
    } else {
      StartBorn(st, k - 1);
      SlotsBorn(StartUpTo(st, k - 1), Register(st.routers[k - 1]), st.window);
    }
  }

  lemma {:induction false} Counts(xs: seq<Entry>, k: Kind) returns (i: nat)
    requires Count(xs, k) > 0
    ensures i < |xs| && Has(k, xs[i])
  {
    var n := |xs| - 1;
    if Has(k, xs[n]) {
      i := n;
    } else {
      i := Counts(xs[..n], k);
    }
  }

  lemma {:induction false} BornIsNotInBackoff(xs: seq<Entry>, u: Uri)
    requires forall i :: 0 <= i < |xs| ==> xs[i].life == C.BORN
    ensures Count(xs, BackoffAt(u)) == 0
  {
    if xs == [] {
    } else {
      BornIsNotInBackoff(xs[..|xs| - 1], u);
    }
  }

  /** A connected idle socket is closed while its URI has more idle sockets than twice the
      window: it is not replaced. */
  lemma CloseRefused(st: Conn, i: nat, code: int)
    requires Live(st) && i < |st.entries| && st.CountOf(st.entries[i].uri) > 2 * st.window
    requires st.entries[i].life.Idle() && st.entries[i].life.phase == C.Reading && !st.entries[i].life.sock.panicked
    ensures Refused(st, i, C.Close(code))
  {
    var x := st.entries[i];
    assert C.Step(x.life, Actual(st, C.Close(code))).1 == C.OnIdleClose;
  }

  /** An answered dial changes nothing but the socket itself. */
  lemma DialAnswered(st: Conn, i: nat)
    requires st.Slotted() && i < |st.entries| && st.entries[i].life == C.BORN
    ensures var st' := Delivered(st, i, C.DialSucceeds);
            && (st'.counts, st'.window, |st'.entries|) == (st.counts, st.window, |st.entries|)
            && st'.entries[i].uri == st.entries[i].uri
            && st'.entries[i].life.Idle() && st'.entries[i].life.phase == C.Reading && !st'.entries[i].life.sock.panicked
            && C.Step(st.entries[i].life, C.DialSucceeds).1 == C.Nothing
  {
  }

  /** For a router listed more than twice the branch is taken: one of its sockets connects
      and is closed, and kW - 1 are left. */
  lemma ThirdListingLosesSocket(window: nat, routers: seq<string>, r: string) returns (i: nat)
    requires window > 0 && multiset(routers)[r] > 2
    ensures var st0 := Started(New(window, routers));
            && st0.Slotted() && i < |st0.entries|
            && var st1 := Run(st0, [Deliver(i, C.DialSucceeds)]);
            && st1.Slotted() && i < |st1.entries| && Refused(st1, i, C.Close(1006))
            && Count(Step(st1, Deliver(i, C.Close(1006))).entries, ActiveAt(Register(r))) == window * multiset(routers)[r] - 1
  {
    var st0 := Started(New(window, routers));
    StartFills(window, routers);
    Scaled(window, 3, multiset(routers)[r]);
    i := StartedSocket(window, routers, r);
    RunOne(st0, Deliver(i, C.DialSucceeds));
    ConnectedThenClosed(st0, i, 1006);
  }

  lemma StartedSocket(window: nat, routers: seq<string>, r: string) returns (i: nat)
    requires window * multiset(routers)[r] > 0
    ensures var st := Started(New(window, routers));
            && st.CountOf(Register(r)) == window * multiset(routers)[r]
            && i < |st.entries| && st.entries[i] == Entry(Register(r), st.entries[i].slot, C.BORN)
  {
    var st := Started(New(window, routers));
    StartFills(window, routers);
    StartBorn(New(window, routers), |routers|);
    BornIsNotInBackoff(st.entries, Register(r));
    ActiveIsCounted(st, Register(r));
    i := Counts(st.entries, ActiveAt(Register(r)));
  }

  lemma ConnectedThenClosed(st: Conn, i: nat, code: int)
    requires Live(st) && i < |st.entries| && st.entries[i].life == C.BORN
    requires st.CountOf(st.entries[i].uri) > 2 * st.window
    ensures var u, st1 := st.entries[i].uri, Delivered(st, i, C.DialSucceeds);
            && Live(st1) && i < |st1.entries| && Refused(st1, i, C.Close(code))
            && Count(Delivered(st1, i, C.Close(code)).entries, ActiveAt(u)) == Count(st.entries, ActiveAt(u)) - 1
  {
    DialAnswered(st, i);
    DeliverKeepsWindow(st, i, C.DialSucceeds);
    var st1 := Delivered(st, i, C.DialSucceeds);
    CloseRefused(st1, i, code);
    DeliverKeepsWindow(st1, i, C.Close(code));
  }

  lemma RunOne(st: Conn, e: Event)
    requires st.Slotted()
    ensures Step(st, e).Slotted() && Run(st, [e]) == Step(st, e)
  {
    StepSlotted(st, e);
    assert [e][1..] == [];
  }

  ghost predicate RefusesNext(st: Conn)
  {
    st.Slotted() && exists i: nat, e :: i < |st.entries| && Refused(st, i, e)
  }

  ghost predicate NeverRefuses(window: nat, routers: seq<string>)
  {
    var st0 := Started(New(window, routers));
    && st0.Slotted()
    && forall es: seq<Event> :: BeginShutDown !in es ==> !RefusesNext(Run(st0, es))
  }

  /** Over all runs before shutdown, the "unexpected error" branch is never taken if and only
      if the window is empty or no router is listed more than twice. */
  lemma NeverRefusesIff(window: nat, routers: seq<string>)
    ensures NeverRefuses(window, routers) <==> window == 0 || forall r :: multiset(routers)[r] <= 2
  {
    var st0 := Started(New(window, routers));
    StartFills(window, routers);
    if window == 0 || forall r :: multiset(routers)[r] <= 2 {
      forall es: seq<Event> | BeginShutDown !in es ensures !RefusesNext(Run(st0, es)) {
        NeverRefusesIfListedTwice(window, routers, es);
      }
    } else {
      var r :| multiset(routers)[r] > 2;
      var i := ThirdListingLosesSocket(window, routers, r);
      var es := [Deliver(i, C.DialSucceeds)];
      assert RefusesNext(Run(st0, es));
      assert BeginShutDown !in es;
    }
  }

  // ---------- the attempts of a slot, in every mode ----------

  /** At most one socket is idle or in backoff for a slot, none if it was not dialed since its
      last request. */
  predicate SlotOk(st: Conn, slot: nat)
    requires slot < |st.attempts|
  {
    Count(st.entries, ActiveIn(slot)) <= Min(1, st.attempts[slot])
  }

  ghost predicate AttemptsOk(st: Conn)
  {
    st.Slotted() && forall slot :: 0 <= slot < |st.attempts| ==> SlotOk(st, slot)
  }

  lemma {:induction false} CountNone(xs: seq<Entry>, slot: nat)
    requires forall i :: 0 <= i < |xs| ==> xs[i].slot < slot
    ensures Count(xs, ActiveIn(slot)) == 0 && Count(xs, OfSlot(slot)) == 0
  {
    if xs == [] {
    } else {
      CountNone(xs[..|xs| - 1], slot);
    }
  }

  lemma {:induction false} CountSome(xs: seq<Entry>, i: nat, k: Kind)
    requires i < |xs| && Has(k, xs[i])
    ensures Count(xs, k) >= 1
  {
    if i == |xs| - 1 {
    } else {
      CountSome(xs[..|xs| - 1], i, k);
    }
  }

  lemma SameAttempts(st: Conn, st': Conn)
    requires AttemptsOk(st) && (st'.attempts, st'.entries) == (st.attempts, st.entries)
    ensures AttemptsOk(st')
  {
    forall s | 0 <= s < |st.attempts| ensures SlotOk(st', s) { assert SlotOk(st, s); }
  }

  lemma DialKeepsAttempts(st: Conn, uri: Uri, slot: nat)
    requires AttemptsOk(st) && slot < |st.attempts| && Count(st.entries, ActiveIn(slot)) == 0
    ensures AttemptsOk(st.ConnectToRouter(uri, slot)) && AttemptsOk(st.Launch(uri, slot))
  {
    LaunchSlotted(st, uri, slot);
    var st' := st.ConnectToRouter(uri, slot);
    if st.mode != ShutDown {
      forall s | 0 <= s < |st.attempts| ensures SlotOk(st', s) {
        assert SlotOk(st, s);
        CountSnoc(st.entries, Entry(uri, slot, C.BORN), ActiveIn(s));
      }
    }
    SameAttempts(st', st.Launch(uri, slot));
  }

  lemma SlotKeepsAttempts(st: Conn)
    requires AttemptsOk(st)
    ensures AttemptsOk(st.NewSlot()) && Count(st.entries, ActiveIn(|st.attempts|)) == 0
  {
    CountNone(st.entries, |st.attempts|);
    forall s | 0 <= s < |st.attempts| ensures SlotOk(st.NewSlot(), s) { assert SlotOk(st, s); }
  }

  /** A received request resets the count of a slot none of whose sockets waits any more. */
  lemma DecisionKeepsAttempts(st: Conn, i: nat, x': Entry, a: C.Ask)
    requires AttemptsOk(st) && i < |st.entries| && x'.life.Ok() && x'.slot == st.entries[i].slot
    requires x'.Active() ==> st.entries[i].Active()
    requires a.Consumes() ==> st.entries[i].Active() && !x'.Active()
    ensures AttemptsOk(Decide(st, i, x', a))
    ensures a.Consumes() ==> Count(Decide(st, i, x', a).entries, ActiveIn(x'.slot)) == 0
  {
    var end := Decide(st, i, x', a);
    assert end.entries == st.entries[i := x'] && end.Slotted();
    forall s | 0 <= s < |st.attempts|
      ensures SlotOk(end, s)
      ensures a.Consumes() && s == x'.slot ==> Count(end.entries, ActiveIn(s)) == 0
    {
      assert SlotOk(st, s);
      CountUpdate(st.entries, i, x', ActiveIn(s));
    }
  }

  lemma DeliverKeepsAttempts(st: Conn, i: nat, e: C.Event)
    requires AttemptsOk(st) && i < |st.entries|
    ensures AttemptsOk(Delivered(st, i, e))
  {
    var x := st.entries[i];
    var (life, a) := C.Step(x.life, Actual(st, e));
    C.StepAsks(x.life, Actual(st, e));
    C.StepKeepsOk(x.life, Actual(st, e));
    DecisionKeepsAttempts(st, i, x.(life := life), a);
    DeliveredDecides(st, i, e);
    if a.Consumes() { DialKeepsAttempts(AtDecision(st, i, e), x.uri, x.slot); }
  }

  lemma StepKeepsAttempts(st: Conn, e: Event)
    requires AttemptsOk(st)
    ensures AttemptsOk(Step(st, e))
  {
    if e.Deliver? && e.i < |st.entries| {
      DeliverKeepsAttempts(st, e.i, e.e);
    } else if e.DeregisterNext? && st.deregistered < |st.routers| {
      var st' := st.NewSlot().(deregistered := st.deregistered + 1);
      SlotKeepsAttempts(st);
      SameAttempts(st.NewSlot(), st');
      DialKeepsAttempts(st', Deregister(st.routers[st.deregistered]), |st.attempts|);
    } else if !e.Deliver? {
      SameAttempts(st, Step(st, e));
    }
  }

  lemma {:induction false} RunKeepsAttempts(st: Conn, es: seq<Event>)
    requires AttemptsOk(st)
    ensures AttemptsOk(Run(st, es))
    decreases |es|
  {
    if es == [] {
    } else {
      StepKeepsAttempts(st, es[0]);
      RunKeepsAttempts(Step(st, es[0]), es[1..]);
    }
  }

  lemma SlotAndLaunchKeepAttempts(st: Conn, uri: Uri)
    requires AttemptsOk(st)
    ensures AttemptsOk(OneSlot(st, uri)) && OneSlot(st, uri).routers == st.routers
  {
    SlotKeepsAttempts(st);
    DialKeepsAttempts(st.NewSlot(), uri, |st.attempts|);
  }

  lemma {:induction false} SlotsKeepAttempts(st: Conn, uri: Uri, n: nat)
    requires AttemptsOk(st)
    ensures AttemptsOk(Slots(st, uri, n)) && Slots(st, uri, n).routers == st.routers
  {
    if n == 0 {
    } else {
      SlotsKeepAttempts(st, uri, n - 1);
      var before := Slots(st, uri, n - 1);
      SlotAndLaunchKeepAttempts(before, uri);
    }
  }

  lemma {:induction false} StartKeepsAttempts(st: Conn, k: nat)
    requires AttemptsOk(st) && k <= |st.routers|
    ensures AttemptsOk(StartUpTo(st, k)) && StartUpTo(st, k).routers == st.routers
  {
    if k == 0 {
    } else {
      StartKeepsAttempts(st, k - 1);
      SlotsKeepAttempts(StartUpTo(st, k - 1), Register(st.routers[k - 1]), st.window);
    }
  }

  // ---------- what a slot's counter counts ----------

  function Attempts(st: Conn, slot: nat): nat { if slot < |st.attempts| then st.attempts[slot] else 0 }

  /** The sockets ever dialed for a slot. */
  function Made(st: Conn, slot: nat): nat { Count(st.entries, OfSlot(slot)) }

  /** The event is a request received on a socket of the slot. */
  predicate Requests(st: Conn, e: Event, slot: nat)
  {
    e.Deliver? && e.i < |st.entries| && st.entries[e.i].slot == slot && C.ReceivesRequest(st.entries[e.i].life, e.e)
  }

  /** One more socket counts one more attempt. */
  lemma DialCounts(st: Conn, uri: Uri, at: nat, slot: nat)
    requires at < |st.attempts|
    ensures var end := st.ConnectToRouter(uri, at);
            Attempts(end, slot) - Attempts(st, slot) == Made(end, slot) - Made(st, slot)
  {
    CountSnoc(st.entries, Entry(uri, at, C.BORN), OfSlot(slot));
  }

  lemma DecisionCounts(st: Conn, i: nat, x': Entry, a: C.Ask, slot: nat)
    requires i < |st.entries| && x'.slot == st.entries[i].slot < |st.attempts|
    ensures Made(Decide(st, i, x', a), slot) == Made(st, slot)
    ensures Attempts(Decide(st, i, x', a), slot) == if a.OnRequest? && slot == x'.slot then 0 else Attempts(st, slot)
  {
    CountUpdate(st.entries, i, x', OfSlot(slot));
  }

  lemma DeliverCounts(st: Conn, i: nat, e: C.Event, slot: nat)
    requires st.Slotted() && i < |st.entries|
    ensures var end := Delivered(st, i, e);
            Attempts(end, slot) == (if Requests(st, Deliver(i, e), slot) then 0 else Attempts(st, slot)) + Made(end, slot) - Made(st, slot)
  {
    var x := st.entries[i];
    var (life, a) := C.Step(x.life, Actual(st, e));
    C.AsksOnRequest(x.life, Actual(st, e));
    DecisionCounts(st, i, x.(life := life), a, slot);
    DeliveredDecides(st, i, e);
    ReplacementCounts(AtDecision(st, i, e), Delivered(st, i, e), x.uri, x.slot, slot);
  }

  lemma ReplacementCounts(mid: Conn, end: Conn, uri: Uri, at: nat, slot: nat)
    requires at < |mid.attempts| && (end == mid || end == mid.Launch(uri, at))
    ensures Attempts(end, slot) - Attempts(mid, slot) == Made(end, slot) - Made(mid, slot)
  {
    DialCounts(mid, uri, at, slot);
  }

  lemma OneDownCounts(st: Conn, k: nat, slot: nat)
    requires 0 < k <= |st.routers|
    ensures Attempts(OneDown(st, k), slot) - Attempts(st, slot) == Made(OneDown(st, k), slot) - Made(st, slot)
  {
    DialCounts(st.NewSlot().(deregistered := k), Deregister(st.routers[k - 1]), |st.attempts|, slot);
  }

  lemma OtherStep(st: Conn, e: Event)
    requires st.Slotted() && !e.Deliver? && !e.DeregisterNext?
    ensures (Step(st, e).attempts, Step(st, e).entries) == (st.attempts, st.entries)
  {
  }

  lemma StepCounts(st: Conn, e: Event, slot: nat)
    requires st.Slotted()
    ensures Attempts(Step(st, e), slot) == NextCount(st, e, Step(st, e), slot, Attempts(st, slot))
  {
    if e.Deliver? {
      if e.i < |st.entries| { DeliverCounts(st, e.i, e.e, slot); }
    } else if e.DeregisterNext? {
      if st.deregistered < |st.routers| { OneDownCounts(st, st.deregistered + 1, slot); }
    } else {
      OtherStep(st, e);
    }
  }

  /** A request starts the count again; every new socket of the slot adds one. */
  function NextCount(st: Conn, e: Event, st': Conn, slot: nat, n: int): int
  {
    (if Requests(st, e, slot) then 0 else n) + Made(st', slot) - Made(st, slot)
  }

  /** The dials of a slot since the last event that brought it a request, after `n` before. */
  ghost function DialsSince(st: Conn, es: seq<Event>, slot: nat, n: int): int
    requires st.Slotted()
    decreases |es|
  {
    if es == [] then n
    else
      StepSlotted(st, es[0]);
      DialsSince(Step(st, es[0]), es[1..], slot, NextCount(st, es[0], Step(st, es[0]), slot, n))
  }

  lemma {:induction false} RunCounts(st: Conn, es: seq<Event>, slot: nat)
    requires st.Slotted()
    ensures Attempts(Run(st, es), slot) == DialsSince(st, es, slot, Attempts(st, slot))
    decreases |es|
  {
    if es == [] {
    } else {
      StepSlotted(st, es[0]);
      StepCounts(st, es[0], slot);
      RunCounts(Step(st, es[0]), es[1..], slot);
    }
  }

  lemma OneSlotCounts(st: Conn, uri: Uri, slot: nat)
    requires st.Slotted()
    ensures OneSlot(st, uri).Slotted() && OneSlot(st, uri).routers == st.routers
    ensures Attempts(OneSlot(st, uri), slot) - Attempts(st, slot) == Made(OneSlot(st, uri), slot) - Made(st, slot)
  {
    LaunchSlotted(st.NewSlot(), uri, |st.attempts|);
    DialCounts(st.NewSlot(), uri, |st.attempts|, slot);
  }

  lemma {:induction false} SlotsCount(st: Conn, uri: Uri, n: nat, slot: nat)
    requires st.Slotted() && Attempts(st, slot) == Made(st, slot)
    ensures Slots(st, uri, n).Slotted() && Slots(st, uri, n).routers == st.routers
    ensures Attempts(Slots(st, uri, n), slot) == Made(Slots(st, uri, n), slot)
  {
    if n == 0 {
    } else {
      SlotsCount(st, uri, n - 1, slot);
      OneSlotCounts(Slots(st, uri, n - 1), uri, slot);
    }
  }

  lemma {:induction false} StartCounts(st: Conn, k: nat, slot: nat)
    requires st.Slotted() && Attempts(st, slot) == Made(st, slot) && k <= |st.routers|
    ensures StartUpTo(st, k).Slotted() && StartUpTo(st, k).routers == st.routers
    ensures Attempts(StartUpTo(st, k), slot) == Made(StartUpTo(st, k), slot)
  {
    if k == 0 {
    } else {
      StartCounts(st, k - 1, slot);
      SlotsCount(StartUpTo(st, k - 1), Register(st.routers[k - 1]), st.window, slot);
    }
  }

  /** A received request leaves its slot's counter at 1 if it is replaced and at 0 if not. */
  lemma RequestResets(st: Conn, i: nat, msg: string, slot: nat)
    requires st.Slotted() && i < |st.entries| && C.ReceivesRequest(st.entries[i].life, C.Text(msg))
    ensures var end, k := Delivered(st, i, C.Text(msg)), st.entries[i].slot;
            && end.attempts[k] == |end.entries| - |st.entries|
            && |end.entries| - |st.entries| == (if ReplacedAfter(st, st.entries[i].uri) then 1 else 0)
            && (slot != k ==> Attempts(end, slot) == Attempts(st, slot))
  {
    var x := st.entries[i];
    var (life, a) := C.Step(x.life, C.Text(msg));
    C.AsksOnRequest(x.life, C.Text(msg));
    DeliveredDecides(st, i, C.Text(msg));
    assert a == C.OnRequest;
  }

  /** Once its own removal is counted, there is room for a replacement. */
  predicate ReplacedAfter(st: Conn, uri: Uri)
  {
    && !st.Stopping() && uri.Register?
    && (if uri in st.counts then st.counts[uri] - 1 else 0) < 2 * st.window
  }

  /** In every run, shutdown included: the counter of a slot is the number of its dials since
      the last request that any of its sockets received, and no two waiting sockets share a
      slot; so a socket that fails while idle is retried after at least a second. */
  lemma AttemptsInEveryRun(window: nat, routers: seq<string>, es: seq<Event>, slot: nat)
    ensures Started(New(window, routers)).Slotted() && AttemptsOk(Run(Started(New(window, routers)), es))
    ensures var st0 := Started(New(window, routers));
            Attempts(Run(st0, es), slot) == DialsSince(st0, es, slot, Made(st0, slot))
    ensures var st := Run(Started(New(window, routers)), es);
            forall i :: 0 <= i < |st.entries| && st.entries[i].Active() ==>
              st.entries[i].slot < |st.attempts| && 1000 <= RetryAfterMillis(st.attempts[st.entries[i].slot]) <= 5_000_000
  {
    var st0 := Started(New(window, routers));
    StartKeepsAttempts(New(window, routers), |routers|);
    SameAttempts(StartUpTo(New(window, routers), |routers|), st0);
    RunKeepsAttempts(st0, es);
    StartCounts(New(window, routers), |routers|, slot);
    RunCounts(st0, es, slot);
    RetriedLater(Run(st0, es));
  }

  lemma RetriedLater(st: Conn)
    requires AttemptsOk(st)
    ensures forall i :: 0 <= i < |st.entries| && st.entries[i].Active() ==>
              1000 <= RetryAfterMillis(st.attempts[st.entries[i].slot]) <= 5_000_000
  {
    forall i | 0 <= i < |st.entries| && st.entries[i].Active()
      ensures 1000 <= RetryAfterMillis(st.attempts[st.entries[i].slot]) <= 5_000_000
    {
      var slot := st.entries[i].slot;
      assert SlotOk(st, slot);
      CountSome(st.entries, i, ActiveIn(slot));
      RetryDelay(st.attempts[slot]);
    }
  }

  // ---------- backoff ----------

  function Pow2(n: nat): nat { if n == 0 then 1 else 2 * Pow2(n - 1) }

  function RetryAfterMillis(attempts: nat): int { 500 * Min(10000, Pow2(attempts)) }

  lemma {:induction false} Pow2Grows(m: nat, n: nat)
    requires m <= n
    ensures Pow2(m) <= Pow2(n)
  {
    if m == n {
    } else {
      Pow2Grows(m, n - 1);
    }
  }

  lemma Pow2Of13()
    ensures Pow2(13) == 8192
  {
    assert Pow2(7) == 128;
  }

  lemma RetryDelay(n: nat)
    ensures RetryAfterMillis(n) == Min(500 * Pow2(n), 5_000_000)
    ensures n >= 1 ==> 1000 <= RetryAfterMillis(n) <= 5_000_000
  {
    if n >= 1 { Pow2Grows(1, n); }
  }

  lemma RetryDelayGrows(m: nat, n: nat)
    requires m <= n
    ensures RetryAfterMillis(m) <= RetryAfterMillis(n)
  {
    Pow2Grows(m, n);
  }

  /** The delay has reached its maximum exactly from the 14th attempt on. */
  lemma RetryDelaySettles(n: nat)
    ensures n >= 14 <==> RetryAfterMillis(n) == 5_000_000
  {
    Pow2Of13();
    if n >= 14 { Pow2Grows(14, n); } else { Pow2Grows(n, 13); }
  }

  /** The time spent waiting over the first n consecutive failures. */
  function DelaysUpTo(n: nat): int { if n == 0 then 0 else DelaysUpTo(n - 1) + RetryAfterMillis(n) }

  lemma {:induction false} DelaysSum(n: nat)
    requires n <= 13
    ensures DelaysUpTo(n) == 1000 * (Pow2(n) - 1)
  {
    if n == 0 {
    } else {
      DelaysSum(n - 1);
      RetryDelay(n);
      RetryDelaySettles(n);
    }
  }

  // ---------- shutdown ----------

  function Dials(xs: seq<Entry>): seq<Uri> { seq(|xs|, i requires 0 <= i < |xs| => xs[i].uri) }

  function Deregisters(routers: seq<string>): (r: seq<Uri>)
    ensures |r| == |routers| && forall k :: 0 <= k < |r| ==> r[k] == Deregister(routers[k])
  {
    seq(|routers|, k requires 0 <= k < |routers| => Deregister(routers[k]))
  }

  ghost predicate GoingDown(st: Conn)
  {
    && st.Slotted() && st.Stopping() && st.deregistered <= |st.routers|
    && (st.mode == ShutDown ==> st.deregistered == |st.routers|)
  }

  /** What may differ between two states of a connector going down. */
  ghost predicate DialedOnlyDeregisters(st: Conn, end: Conn)
  {
    && GoingDown(end) && end.routers == st.routers && st.deregistered <= end.deregistered <= |st.routers|
    && Dials(end.entries) == Dials(st.entries) + Deregisters(st.routers[st.deregistered..end.deregistered])
    && Shrunk(st.counts, end.counts)
    && (st.mode == ShutDown ==> end.mode == ShutDown)
  }

  lemma DecisionDialsNothing(st: Conn, i: nat, x': Entry, a: C.Ask)
    requires i < |st.entries| && x'.slot < |st.attempts| && x'.uri == st.entries[i].uri
    ensures var end := Decide(st, i, x', a);
            && (end.mode, end.deregistered, end.routers) == (st.mode, st.deregistered, st.routers)
            && Dials(end.entries) == Dials(st.entries)
            && Shrunk(st.counts, end.counts)
  {
    PreparedDialsNothing(st.(entries := st.entries[i := x']), a, x'.uri, x'.slot);
    assert Dials(st.entries[i := x']) == Dials(st.entries);
  }

  lemma PreparedDialsNothing(st: Conn, a: C.Ask, uri: Uri, slot: nat)
    requires slot < |st.attempts|
    ensures var end := st.Prepared(a, uri, slot);
            && (end.mode, end.deregistered, end.routers) == (st.mode, st.deregistered, st.routers)
            && Dials(end.entries) == Dials(st.entries)
            && Shrunk(st.counts, end.counts)
  {
    RemovalShrinks(st, uri);
  }

  lemma RemovalShrinks(st: Conn, uri: Uri)
    ensures Shrunk(st.counts, st.RemoveWebsocket(uri).counts)
  {
  }

  lemma DeliverGoingDown(st: Conn, i: nat, e: C.Event)
    requires GoingDown(st) && i < |st.entries|
    ensures DialedOnlyDeregisters(st, Delivered(st, i, e))
  {
    var x := st.entries[i];
    var (life, a) := C.Step(x.life, Actual(st, e));
    StepSlotted(st, Deliver(i, e));
    DeliveredDecides(st, i, e);
    DecisionDialsNothing(st, i, x.(life := life), a);
  }

  lemma StepGoingDown(st: Conn, e: Event)
    requires GoingDown(st)
    ensures DialedOnlyDeregisters(st, Step(st, e))
  {
    StepSlotted(st, e);
    if e.Deliver? && e.i < |st.entries| {
      DeliverGoingDown(st, e.i, e.e);
    } else if e.DeregisterNext? {
      DeregisterGoingDown(st);
    }
  }

  lemma DeregisterGoingDown(st: Conn)
    requires GoingDown(st) && Step(st, DeregisterNext).Slotted()
    ensures DialedOnlyDeregisters(st, Step(st, DeregisterNext))
  {
    if st.deregistered < |st.routers| {
      var uri := Deregister(st.routers[st.deregistered]);
      assert Dials(st.entries + [Entry(uri, |st.attempts|, C.BORN)]) == Dials(st.entries) + [uri];
      assert st.routers[st.deregistered..st.deregistered + 1] == [st.routers[st.deregistered]];
    }
  }

  lemma OnlyDeregistersTwice(st: Conn, mid: Conn, end: Conn)
    requires DialedOnlyDeregisters(st, mid) && DialedOnlyDeregisters(mid, end)
    ensures DialedOnlyDeregisters(st, end)
  {
    assert st.routers[st.deregistered..end.deregistered]
        == st.routers[st.deregistered..mid.deregistered] + mid.routers[mid.deregistered..end.deregistered];
  }

  /** Once a shutdown has begun, whatever else happens, the only dials are the deregister
      dials, one per router and in their order, no window counter grows, and a finished shutdown
      stays finished. */
  lemma {:induction false} ShutDownOnlyDeregisters(st: Conn, es: seq<Event>)
    requires GoingDown(st)
    ensures DialedOnlyDeregisters(st, Run(st, es))
    decreases |es|
  {
    if es == [] {
    } else {
      StepGoingDown(st, es[0]);
      ShutDownOnlyDeregisters(Step(st, es[0]), es[1..]);
      OnlyDeregistersTwice(st, Step(st, es[0]), Run(st, es));
    }
  }

  /** A whole shutdown from a running connector dials each router once. */
  lemma ShutDownDialsEachRouterOnce(st: Conn, es: seq<Event>)
    requires st.Slotted() && !st.Stopping() && st.deregistered == 0
    ensures Step(st, BeginShutDown).Slotted()
    ensures var end := Run(Step(st, BeginShutDown), es);
            && end.deregistered <= |st.routers|
            && Dials(end.entries) == Dials(st.entries) + Deregisters(st.routers[..end.deregistered])
            && (end.mode == ShutDown ==> Dials(end.entries) == Dials(st.entries) + Deregisters(st.routers))
  {
    var down := Step(st, BeginShutDown);
    StepSlotted(st, BeginShutDown);
    ShutDownOnlyDeregisters(down, es);
    assert st.routers[..|st.routers|] == st.routers;
  }

  // ---------- the classes ----------

  class WebsocketClientFarm {
    const maxSlidingWindowSize: nat
    var connectorSockets: map<Uri, int>

    constructor (slidingWindowSize: nat)
      ensures maxSlidingWindowSize == 2 * slidingWindowSize && connectorSockets == map[]
    {
      maxSlidingWindowSize, connectorSockets := slidingWindowSize * 2, map[];
    }

    method AddWebsocket(uri: Uri)
      modifies this
      ensures uri in connectorSockets
      ensures connectorSockets[uri] == (if uri in old(connectorSockets) then old(connectorSockets[uri]) else 0) + 1
      ensures connectorSockets - {uri} == old(connectorSockets) - {uri}
    {
      if uri !in connectorSockets { connectorSockets := connectorSockets[uri := 0]; }
      connectorSockets := connectorSockets[uri := connectorSockets[uri] + 1];
    }

    method RemoveWebsocket(uri: Uri)
      modifies this
      ensures connectorSockets.Keys == old(connectorSockets.Keys)
      ensures uri in connectorSockets ==> connectorSockets[uri] == old(connectorSockets[uri]) - 1
      ensures connectorSockets - {uri} == old(connectorSockets) - {uri}
    {
      if uri in connectorSockets {
        connectorSockets := connectorSockets[uri := connectorSockets[uri] - 1];
      }
    }

    /** The deregister path is never safe. */
    function IsSafeToAddWebsocket(uri: Uri): (safe: bool)
      reads this
      ensures safe ==> uri.Register?
      ensures uri.Register? && uri in connectorSockets ==> (safe <==> connectorSockets[uri] < maxSlidingWindowSize)
      ensures uri.Register? && uri !in connectorSockets ==> (safe <==> maxSlidingWindowSize > 0)
    {
      var idleSocketNum := if uri in connectorSockets then connectorSockets[uri] else 0;
      uri.Register? && maxSlidingWindowSize > idleSocketNum
    }
  }

  class ConnectionMonitor {
    var availableConns: int

    constructor ()
      ensures availableConns == 0
    {
      availableConns := 0;
    }

    method OnConnectionAvailable()
      modifies this
      ensures availableConns == old(availableConns) + 1
    {
      availableConns := availableConns + 1;
    }

    method OnConnectionConsumed()
      modifies this
      ensures availableConns == old(availableConns) - 1
    {
      availableConns := availableConns - 1;
    }
  }

  class Connector {
    const slidingWindowSize: nat
    const routerURIs: seq<string>
    const websocketClientFarm: WebsocketClientFarm
    const connMonitor: ConnectionMonitor
    var state: Mode
    var cancelled: bool
    var curConnAttempts: seq<nat>  // of each ConnectionInfo
    var sockets: seq<Entry>
    ghost var deregistered: nat

    ghost function State(): Conn
      reads this, websocketClientFarm, connMonitor
    {
      Conn(slidingWindowSize, routerURIs, state, cancelled, deregistered, websocketClientFarm.connectorSockets,
           connMonitor.availableConns, curConnAttempts, sockets)
    }

    ghost predicate Valid()
      reads this, websocketClientFarm
    {
      && websocketClientFarm.maxSlidingWindowSize == 2 * slidingWindowSize
      && (forall i :: 0 <= i < |sockets| ==> sockets[i].slot < |curConnAttempts|)
    }

    constructor (routers: seq<string>, window: nat)
      ensures Valid() && State() == New(window, routers)
      ensures fresh(websocketClientFarm) && fresh(connMonitor)
    {
      slidingWindowSize, routerURIs := window, routers;
      state, cancelled, curConnAttempts, sockets := NotStarted, false, [], [];
      deregistered := 0;
      websocketClientFarm := new WebsocketClientFarm(window);
      connMonitor := new ConnectionMonitor();
    }

    method ConnectToRouter(uri: Uri, slot: nat)
      requires Valid() && slot < |curConnAttempts|
      modifies this
      ensures Valid() && State() == old(State()).ConnectToRouter(uri, slot)
    {
      if state != ShutDown {
        curConnAttempts := curConnAttempts[slot := curConnAttempts[slot] + 1];
        sockets := sockets + [Entry(uri, slot, C.BORN)];
      }
    }

    /** The three calls that Start and whenConsumedAction make for a new connection. */
    method Launch(uri: Uri, slot: nat)
      requires Valid() && slot < |curConnAttempts|
      modifies this, websocketClientFarm, connMonitor
      ensures Valid() && State() == old(State()).Launch(uri, slot)
    {
      ConnectToRouter(uri, slot);
      ghost var mid := State();
      websocketClientFarm.AddWebsocket(uri);
      connMonitor.OnConnectionAvailable();
      SameCounts(websocketClientFarm.connectorSockets, mid.AddWebsocket(uri).counts, uri);
    }

    method WhenConsumed(uri: Uri, slot: nat)
      requires Valid() && slot < |curConnAttempts|
      modifies this, websocketClientFarm, connMonitor
      ensures Valid() && State() == old(State()).WhenConsumed(uri, slot)
    {
      connMonitor.OnConnectionConsumed();
      if state != ShuttingDown && state != ShutDown {
        if websocketClientFarm.IsSafeToAddWebsocket(uri) { Launch(uri, slot); }
      }
    }

    method RemoveWebsocket(uri: Uri)
      requires Valid()
      modifies websocketClientFarm
      ensures Valid() && State() == old(State()).RemoveWebsocket(uri)
    {
      ghost var before := State();
      websocketClientFarm.RemoveWebsocket(uri);
      SameCounts(websocketClientFarm.connectorSockets, before.RemoveWebsocket(uri).counts, uri);
    }

    /** What the handlers of a socket call, in their order. */
    method Answer(a: C.Ask, uri: Uri, slot: nat)
      requires Valid() && slot < |curConnAttempts|
      modifies this, websocketClientFarm, connMonitor
      ensures Valid() && State() == old(State()).Answer(a, uri, slot)
    {
      if a.Removes() { RemoveWebsocket(uri); }
      if a.OnRequest? {
        curConnAttempts := curConnAttempts[slot := 0];
      }
      if a.Consumes() { WhenConsumed(uri, slot); }
    }

    /** An event of the i-th socket. */
    method Deliver(i: nat, e: C.Event)
      requires Valid() && State().Slotted() && i < |sockets|
      modifies this, websocketClientFarm, connMonitor
      ensures Valid() && State() == Delivered(old(State()), i, e)
    {
      var x := sockets[i];
      var (life, a) := C.Step(x.life, if e.RetryCheck? then C.RetryCheck(cancelled) else e);
      sockets := sockets[i := x.(life := life)];
      Answer(a, x.uri, x.slot);
    }

    method AddSlot(uri: Uri)
      requires Valid()
      modifies this, websocketClientFarm, connMonitor
      ensures Valid() && State() == OneSlot(old(State()), uri)
    {
      curConnAttempts := curConnAttempts + [0];
      Launch(uri, |curConnAttempts| - 1);
    }

    method AddSlots(uri: Uri)
      requires Valid()
      modifies this, websocketClientFarm, connMonitor
      ensures Valid() && State() == Slots(old(State()), uri, slidingWindowSize)
    {
      ghost var before := State();
      var i := 0;
      while i < slidingWindowSize
        invariant i <= slidingWindowSize && Valid()
        invariant State() == Slots(before, uri, i)
      {
        AddSlot(uri);
        i := i + 1;
      }
    }

    method Start()
      requires Valid()
      modifies this, websocketClientFarm, connMonitor
      ensures Valid() && State() == Started(old(State()))
    {
      ghost var before := State();
      var k := 0;
      while k < |routerURIs|
        invariant k <= |routerURIs| && Valid()
        invariant State() == StartUpTo(before, k)
      {
        AddSlots(Register(routerURIs[k]));
        k := k + 1;
      }
      state := Running;
    }

    method DeregisterFrom(k: nat)
      requires Valid() && k < |routerURIs|
      modifies this
      ensures Valid() && State() == OneDown(old(State()), k + 1)
    {
      curConnAttempts := curConnAttempts + [0];
      deregistered := k + 1;
      ConnectToRouter(Deregister(routerURIs[k]), |curConnAttempts| - 1);
    }

    /** The loop of callShutDown. */
    method DeregisterAll()
      requires Valid() && deregistered == 0 && state == ShuttingDown && cancelled
      modifies this
      ensures Valid() && State() == GoneDownTo(old(State()), |routerURIs|)
    {
      ghost var before := State();
      var k := 0;
      while k < |routerURIs|
        invariant k <= |routerURIs| && Valid()
        invariant State() == GoneDownTo(before, k)
      {
        DeregisterFrom(k);
        k := k + 1;
      }
    }

    method CallShutDown()
      requires Valid()
      modifies this
      ensures Valid() && State() == WentDown(old(State()))
    {
      ghost var before := State();
      state := ShuttingDown;
      cancelled := true;
      deregistered := 0;
      GoneDownForgets(before, |routerURIs|);
      DeregisterAll();
      state := ShutDown;
    }
  }

  lemma {:induction false} GoneDownForgets(st: Conn, k: nat)
    requires k <= |st.routers|
    ensures GoneDownTo(st.(mode := ShuttingDown, cancelled := true, deregistered := 0), k) == GoneDownTo(st, k)
    ensures GoneDownTo(st, k).routers == st.routers
  {
    if k == 0 {
    } else {
      GoneDownForgets(st, k - 1);
    }
  }

  lemma SameCounts(a: map<Uri, int>, b: map<Uri, int>, uri: Uri)
    requires a - {uri} == b - {uri}
    requires uri in a <==> uri in b
    requires uri in a ==> a[uri] == b[uri]
    ensures a == b
  {
    assert forall u :: u in a && u != uri ==> u in a - {uri} && (a - {uri})[u] == a[u];
    assert forall u :: u in b && u != uri ==> u in b - {uri} && (b - {uri})[u] == b[u];
  }

  /** callShutDown after the deregister dials of the first k routers. */
  function GoneDownTo(st: Conn, k: nat): (end: Conn)
    requires k <= |st.routers|
    ensures end.routers == st.routers
  {
    if k == 0 then st.(mode := ShuttingDown, cancelled := true, deregistered := 0) else OneDown(GoneDownTo(st, k - 1), k)
  }

  function WentDown(st: Conn): Conn { GoneDownTo(st, |st.routers|).(mode := ShutDown) }

  /** The steps of callShutDown with nothing in between. */
  function ShutDownSteps(k: nat): seq<Event>
  {
    if k == 0 then [BeginShutDown, CancelContext] else ShutDownSteps(k - 1) + [DeregisterNext]
  }

  lemma {:induction false} RunSnoc(st: Conn, es: seq<Event>, e: Event)
    requires st.Slotted()
    ensures Run(st, es).Slotted() && Run(st, es + [e]) == Step(Run(st, es), e)
    decreases |es|
  {
    if es == [] {
      StepSlotted(st, e);
      assert [e][1..] == [];
    } else {
      StepSlotted(st, es[0]);
      RunSnoc(Step(st, es[0]), es[1..], e);
      assert (es + [e])[1..] == es[1..] + [e];
    }
  }

  lemma DownBegins(st: Conn)
    requires st.Slotted() && !st.Stopping()
    ensures Run(st, [BeginShutDown, CancelContext]) == st.(mode := ShuttingDown, cancelled := true)
  {
    var one := Step(st, BeginShutDown);
    assert [BeginShutDown, CancelContext][1..] == [CancelContext];
    assert [CancelContext][1..] == [];
    assert Run(one, [CancelContext]) == Step(one, CancelContext);
  }

  lemma {:induction false} GoneDownIsARun(st: Conn, k: nat)
    requires st.Slotted() && !st.Stopping() && st.deregistered == 0 && k <= |st.routers|
    ensures GoneDownTo(st, k) == Run(st, ShutDownSteps(k))
    ensures (GoneDownTo(st, k).mode, GoneDownTo(st, k).cancelled, GoneDownTo(st, k).deregistered) == (ShuttingDown, true, k)
    ensures GoneDownTo(st, k).routers == st.routers
  {
    if k == 0 {
      DownBegins(st);
    } else {
      GoneDownIsARun(st, k - 1);
      OneMoreDown(st, GoneDownTo(st, k - 1), k);
    }
  }

  lemma OneMoreDown(st: Conn, mid: Conn, k: nat)
    requires st.Slotted() && 0 < k <= |st.routers| && mid == Run(st, ShutDownSteps(k - 1)) && mid.routers == st.routers
    requires (mid.mode, mid.cancelled, mid.deregistered) == (ShuttingDown, true, k - 1)
    ensures var end := OneDown(mid, k);
            && end == Run(st, ShutDownSteps(k)) && end.routers == st.routers
            && (end.mode, end.cancelled, end.deregistered) == (ShuttingDown, true, k)
  {
    RunSnoc(st, ShutDownSteps(k - 1), DeregisterNext);
    NextDown(mid, k);
  }

  lemma NextDown(st: Conn, k: nat)
    requires st.Slotted() && 0 < k <= |st.routers| && (st.mode, st.cancelled, st.deregistered) == (ShuttingDown, true, k - 1)
    ensures Step(st, DeregisterNext) == OneDown(st, k)
    ensures (OneDown(st, k).mode, OneDown(st, k).cancelled, OneDown(st, k).deregistered) == (ShuttingDown, true, k)
  {
  }

  lemma FinishEnds(st: Conn)
    requires st.Slotted() && st.mode == ShuttingDown && st.deregistered == |st.routers|
    ensures Step(st, FinishShutDown) == st.(mode := ShutDown)
  {
  }

  /** callShutDown, called once, is one of the runs that the shutdown theorem is about. */
  lemma WentDownIsARun(st: Conn)
    requires st.Slotted() && !st.Stopping() && st.deregistered == 0
    ensures WentDown(st) == Run(st, ShutDownSteps(|st.routers|) + [FinishShutDown])
  {
    var n := |st.routers|;
    GoneDownIsARun(st, n);
    RunSnoc(st, ShutDownSteps(n), FinishShutDown);
    var down := GoneDownTo(st, n);
    FinishEnds(down);
    assert WentDown(st) == down.(mode := ShutDown);
  }
}
