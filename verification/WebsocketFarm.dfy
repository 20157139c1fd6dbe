/** router/router_socket/websocket_farm.go, router/darklaunch_manager and the gray-testing
    toggle as objects that update their maps in place. Each method computes the function of
    the same name in FarmState; the `IterableChan` objects in the maps are their values. */
module WebsocketFarm {
  import opened Text
  import opened IterableChan
  import opened DarkLaunch
  import opened FarmState

  class GrayToggle {
    var on: bool

    constructor ()
      ensures !on
    {
      on := false;
    }
  }

  class DarkLaunchManager {
    var currentIps: set<string>
    var currentServices: set<string>
    var listener: WebsocketFarm?

    constructor ()
      ensures currentIps == {} && currentServices == {} && listener == null
    {
      currentIps, currentServices, listener := {}, {}, null;
    }

    predicate IsDarkModeOn()
      reads this
    {
      currentServices != {} || currentIps != {}
    }

    predicate IsDark(s: Socket)
      reads this
    {
      IsDarkModeOn() && (s.ip in currentIps || s.route in currentServices)
    }

    method AddIp(ip: string) returns (ok: bool)
      requires listener != null && listener.manager == this && listener.Ok()
      modifies this`currentIps, listener
      ensures (listener.State(), ok) == old(listener.State()).AddIp(ip)
    {
      ok := IsValidIp(ip);
      if ok {
        currentIps := currentIps + {ip};
        listener.AfterDarkAdded(IpIs(ip), IpIs(ip));
      }
    }

    method AddService(service: string) returns (ok: bool)
      requires listener != null && listener.manager == this && listener.Ok()
      modifies this`currentServices, listener
      ensures (listener.State(), ok) == old(listener.State()).AddService(service)
    {
      ok := IsValidService(service);
      if ok {
        currentServices := currentServices + {service};
        listener.AfterDarkAdded(IpIs(service), RouteIs(service));
      }
    }

    method RemoveIp(ip: string) returns (ok: bool)
      requires listener != null && listener.manager == this && listener.Ok()
      modifies this`currentIps, listener, listener.toggle
      ensures (listener.State(), ok) == old(listener.State()).RemoveIp(ip)
    {
      ok := ip in currentIps;
      if ok {
        currentIps := currentIps - {ip};
        listener.AfterDarkRevoked(IpIs(ip), IpIs(ip));
      }
    }

    method RemoveService(service: string) returns (ok: bool)
      requires listener != null && listener.manager == this && listener.Ok()
      modifies this`currentServices, listener, listener.toggle
      ensures (listener.State(), ok) == old(listener.State()).RemoveService(service)
    {
      ok := service in currentServices;
      if ok {
        currentServices := currentServices - {service};
        listener.AfterDarkRevoked(RouteIs(service), RouteIs(service));
      }
    }
  }

  class WebsocketFarm {
    var sockets: Pools
    var darkSockets: Pools
    var catchall: Queue<Socket>
    var darkCatchall: Queue<Socket>
    ghost var pending: multiset<Offer>   // Offer goroutines that have not landed
    ghost var handed: multiset<Socket>   // every socket returned to a request
    const manager: DarkLaunchManager
    const toggle: GrayToggle

    ghost function State(): Farm
      reads this, manager, toggle
    {
      Farm(sockets, darkSockets, catchall, darkCatchall,
           manager.currentIps, manager.currentServices, toggle.on, pending, handed)
    }

    ghost predicate Linked()
      reads manager
    {
      manager.listener == this
    }

    ghost predicate Ok()
      reads this, manager, toggle
    {
      Linked() && State().Ok()
    }

    constructor (manager: DarkLaunchManager, toggle: GrayToggle)
      requires manager.currentIps == {} && manager.currentServices == {} && !toggle.on
      modifies manager`listener
      ensures State() == Init()
      ensures this.manager == manager && this.toggle == toggle
    {
      this.manager, this.toggle := manager, toggle;
      sockets, darkSockets := map[], map[];
      catchall, darkCatchall := EmptyQueue(0), EmptyQueue(0);
      pending, handed := multiset{}, multiset{};
      new;
      manager.listener := this;
    }

    /** The catchall route is spelled "*" here, so the literal route "*" goes there too. */
    method AddWebsocket(s: Socket)
      requires Ok()
      modifies this
      ensures State() == old(State()).AddWebsocket(s)
    {
      var route := if s.route == "" then "*" else s.route;
      var dark := manager.IsDark(s);
      if dark {
        if route != "*" && route !in darkSockets {
          darkSockets := darkSockets[route := EmptyQueue(0)];
        }
      } else {
        if route != "*" && route !in sockets {
          sockets := sockets[route := EmptyQueue(0)];
        }
      }
      pending := pending + multiset{Offer(dark, s)};
    }

    method RemoveWebsocket(s: Socket)
      requires Ok()
      modifies this
      ensures State() == old(State()).RemoveWebsocket(s)
    {
      if manager.IsDark(s) {
        if s.route == "" {
          darkCatchall := darkCatchall.Removed(s);
        } else if s.route in darkSockets {
          darkSockets := darkSockets[s.route := darkSockets[s.route].Removed(s)];
        }
      } else {
        if s.route == "" {
          catchall := catchall.Removed(s);
        } else if s.route in sockets {
          sockets := sockets[s.route := sockets[s.route].Removed(s)];
        }
      }
    }

    method AcquireSocket(target: string, patience: nat) returns (socket: Option<Socket>)
      requires Ok()
      modifies this
      ensures (State(), socket) == old(State()).AcquireSocket(target, patience)
    {
      var sockets', catchAll, dark := sockets, catchall, false;
      if manager.IsDarkModeOn() && toggle.on {
        sockets', catchAll, dark := darkSockets, darkCatchall, true;
      }
      var route := ResolveRoute(target);
      if route in sockets' {
        var (q, r) := sockets'[route].PolledWithin(patience);
        Put(dark, route, q);
        socket := r;
      } else {
        var (q, r) := catchAll.PolledWithin(patience);
        Put(dark, "", q);
        socket := r;
      }
      handed := if socket.Some? then handed + multiset{socket.value} else handed;
    }

    /** The polled queue is one of the four groups'. */
    method Put(dark: bool, route: string, q: Queue<Socket>)
      modifies this`sockets, this`darkSockets, this`catchall, this`darkCatchall
      ensures State() == old(State()).WithPool(dark, route, q)
    {
      if route == "" {
        if dark { darkCatchall := q; } else { catchall := q; }
      } else {
        if dark { darkSockets := darkSockets[route := q]; } else { sockets := sockets[route := q]; }
      }
    }

    /** Every alive normal socket has its session closed, once; every normal queue is left
        empty and the dark pools as they were. */
    method Stop() returns (closed: seq<Socket>)
      requires Ok()
      modifies this
      ensures State() == old(State()).Stop()
      ensures Distinct(closed)
      ensures var st := old(State()); forall s: Socket :: s in closed <==> st.Alive(false, s)
      ensures catchall.ch == [] && forall r :: r in sockets ==> sockets[r].ch == [] && sockets[r].alive == {}
      ensures darkSockets == old(darkSockets) && darkCatchall == old(darkCatchall)
    {
      ghost var st := State();
      var first, rest;
      catchall, first := DrainQueue(catchall);
      sockets, rest := DrainQueues(sockets);
      closed := first + rest;
      ClosedOnce(st, first, rest);
    }

    // ---------- darkListener ----------

    /** AfterDarkIpAdded and AfterDarkServiceAdded. */
    method AfterDarkAdded(route: Match, catchAll: Match)
      requires State().Ok()
      modifies this
      ensures State() == old(State()).Mark(route, catchAll)
    {
      PoolsKeyed(sockets);
      MarkSockets(route);
      MarkCatchall(catchAll);
    }

    method MarkCatchall(m: Match)
      modifies this`catchall, this`pending
      ensures State() == old(State()).MarkCatchall(m)
    {
      var hits := OfferHits(catchall.alive, m, true);
      catchall := RemoveAll(catchall, hits, Hit(catchall.alive, m));
    }

    /** AfterDarkIpRevoked and AfterDarkServiceRevoked. */
    method AfterDarkRevoked(route: Match, catchAll: Match)
      requires State().(gray := false).Ok()
      modifies this, toggle
      ensures State() == old(State()).Unmark(route, catchAll)
    {
      toggle.on := false;
      PoolsKeyed(darkSockets);
      UnmarkSockets(route);
      UnmarkCatchall(catchAll);
    }

    method UnmarkCatchall(m: Match)
      modifies this`darkCatchall, this`pending
      ensures State() == old(State()).UnmarkCatchall(m)
    {
      var hits := OfferHits(darkCatchall.alive, m, false);
      darkCatchall := RemoveAll(darkCatchall, hits, Hit(darkCatchall.alive, m));
    }

    method MarkSockets(m: Match)
      requires Keyed(sockets)
      modifies this`sockets, this`darkSockets, this`pending
      ensures State() == old(State()).MarkRoutes(old(sockets).Keys, m)
    {
      ghost var st := State();
      ghost var done: set<string> := {};
      var todo := sockets.Keys;
      MarkNothing(st, m);
      while todo != {}
        invariant State() == st.MarkRoutes(done, m)
        invariant done !! todo && done + todo == st.sockets.Keys
      {
        var r :| r in todo;
        MarkOneMore(st, done, r, m);
        MarkQueue(r, m);
        todo, done := todo - {r}, done + {r};
      }
      assert done == st.sockets.Keys;
    }

    method UnmarkSockets(m: Match)
      requires Keyed(darkSockets)
      modifies this`darkSockets, this`pending
      ensures State() == old(State()).UnmarkRoutes(old(darkSockets).Keys, m)
    {
      ghost var st := State();
      ghost var done: set<string> := {};
      var todo := darkSockets.Keys;
      UnmarkNothing(st, m);
      while todo != {}
        invariant State() == st.UnmarkRoutes(done, m)
        invariant done !! todo && done + todo == st.darkSockets.Keys
      {
        var r :| r in todo;
        UnmarkOneMore(st, done, r, m);
        UnmarkQueue(r, m);
        todo, done := todo - {r}, done + {r};
      }
      assert done == st.darkSockets.Keys;
    }

    /** One round of the outer loop of the added-callbacks. */
    method MarkQueue(r: string, m: Match)
      requires r in sockets && forall s :: s in sockets[r].alive ==> s.route == r
      modifies this`sockets, this`darkSockets, this`pending
      ensures State() == old(State()).MarkRoutes({r}, m)
    {
      ghost var st := State();
      var queue := sockets[r];
      var toBeRemoved := OfferToDark(queue.alive, r, m);
      queue := RemoveAll(queue, toBeRemoved, Hit(queue.alive, m));
      sockets := sockets[r := queue];
      assert queue == Purged(st.sockets[r], m);
      MarkOne(st, r, m);
      assert (sockets, darkSockets, pending)
          == (st.MarkRoutes({r}, m).sockets, st.MarkRoutes({r}, m).darkSockets, st.MarkRoutes({r}, m).pending);
    }

    method LoadOrStoreDark(route: string)
      modifies this`darkSockets
      ensures darkSockets == WithQueue(old(darkSockets), route)
    {
      if route !in darkSockets {
        darkSockets := darkSockets[route := EmptyQueue(0)];
      }
    }

    method OfferToDark(alive: set<Socket>, r: string, m: Match) returns (toBeRemoved: seq<Socket>)
      requires forall s :: s in alive ==> s.route == r
      modifies this`darkSockets, this`pending
      ensures Listed(toBeRemoved, Hit(alive, m))
      ensures pending == old(pending) + Offers(true, Hit(alive, m))
      ensures darkSockets == if Hit(alive, m) == {} then old(darkSockets) else WithQueue(old(darkSockets), r)
    {
      toBeRemoved := [];
      var todo := alive;
      while todo != {}
        invariant todo <= alive
        invariant Listed(toBeRemoved, Hit(alive - todo, m))
        invariant pending == old(pending) + Offers(true, Hit(alive - todo, m))
        invariant darkSockets == if toBeRemoved == [] then old(darkSockets) else WithQueue(old(darkSockets), r)
      {
        var s :| s in todo;
        HitOneMore(alive, todo, s, m, true);
        if m.Hits(s) {
          LoadOrStoreDark(s.route);
          pending := pending + multiset{Offer(true, s)};
          toBeRemoved := toBeRemoved + [s];
        }
        todo := todo - {s};
      }
      assert alive - todo == alive;
      ListedEmpty(toBeRemoved, Hit(alive, m));
    }

    /** One round of the outer loop of the revoked-callbacks. */
    method UnmarkQueue(r: string, m: Match)
      requires r in darkSockets && forall s :: s in darkSockets[r].alive ==> s.route == r
      modifies this`darkSockets, this`pending
      ensures State() == old(State()).UnmarkRoutes({r}, m)
    {
      ghost var st := State();
      var queue := darkSockets[r];
      var toBeRemoved := OfferBack(queue.alive, r, m);
      queue := RemoveAll(queue, toBeRemoved, Hit(queue.alive, m));
      darkSockets := darkSockets[r := queue];
      assert queue == Purged(st.darkSockets[r], m);
      UnmarkOne(st, r, m);
      assert (darkSockets, pending) == (st.UnmarkRoutes({r}, m).darkSockets, st.UnmarkRoutes({r}, m).pending);
    }

    /** The destination is looked up in `darkSockets`, where the queue of the socket's own
        route always is; the branch that would replace a normal queue is never taken. */
    method OfferBack(alive: set<Socket>, r: string, m: Match) returns (toBeRemoved: seq<Socket>)
      requires r in darkSockets && forall s :: s in alive ==> s.route == r
      modifies this`pending
      ensures Listed(toBeRemoved, Hit(alive, m))
      ensures pending == old(pending) + Offers(true, Hit(alive, m))
    {
      toBeRemoved := [];
      var todo := alive;
      while todo != {}
        invariant todo <= alive
        invariant Listed(toBeRemoved, Hit(alive - todo, m))
        invariant pending == old(pending) + Offers(true, Hit(alive - todo, m))
      {
        var s :| s in todo;
        HitOneMore(alive, todo, s, m, true);
        if m.Hits(s) {
          if s.route !in darkSockets {
            assert false;
          } else {
            pending := pending + multiset{Offer(true, s)};
          }
          toBeRemoved := toBeRemoved + [s];
        }
        todo := todo - {s};
      }
      assert alive - todo == alive;
    }

    /** The range loop over a catchall queue. */
    method OfferHits(alive: set<Socket>, m: Match, dark: bool) returns (toBeRemoved: seq<Socket>)
      modifies this`pending
      ensures Listed(toBeRemoved, Hit(alive, m))
      ensures pending == old(pending) + Offers(dark, Hit(alive, m))
    {
      toBeRemoved := [];
      var todo := alive;
      while todo != {}
        invariant todo <= alive
        invariant Listed(toBeRemoved, Hit(alive - todo, m))
        invariant pending == old(pending) + Offers(dark, Hit(alive - todo, m))
      {
        var s :| s in todo;
        HitOneMore(alive, todo, s, m, dark);
        if m.Hits(s) {
          pending := pending + multiset{Offer(dark, s)};
          toBeRemoved := toBeRemoved + [s];
        }
        todo := todo - {s};
      }
      assert alive - todo == alive;
    }
  }

  function WithQueue(g: Pools, route: string): Pools { if route in g then g else g[route := EmptyQueue(0)] }

  /** A slice with each member of a set once. */
  ghost predicate Listed(xs: seq<Socket>, all: set<Socket>)
  {
    multiset(xs) == multiset(all)
  }

  lemma ListedEmpty(xs: seq<Socket>, all: set<Socket>)
    requires Listed(xs, all)
    ensures xs == [] <==> all == {}
  {
    assert |multiset(xs)| == |multiset(all)|;
  }

  method RemoveAll(queue: Queue<Socket>, toBeRemoved: seq<Socket>, ghost hits: set<Socket>) returns (q: Queue<Socket>)
    requires Listed(toBeRemoved, hits) && hits <= queue.alive
    ensures q == queue.(alive := queue.alive - hits, length := queue.length - |hits|)
  {
    q := queue;
    for i := 0 to |toBeRemoved|
      invariant q == queue.(alive := queue.alive - Members(toBeRemoved[..i]), length := queue.length - i)
    {
      var s := toBeRemoved[i];
      assert toBeRemoved[..i + 1] == toBeRemoved[..i] + [s];
      assert s !in Members(toBeRemoved[..i]) by {
        assert toBeRemoved == toBeRemoved[..i] + [s] + toBeRemoved[i + 1..];
        assert multiset(toBeRemoved)[s] == multiset(hits)[s] <= 1;
      }
      assert s in multiset(toBeRemoved);
      q := q.Removed(s);
    }
    assert toBeRemoved[..|toBeRemoved|] == toBeRemoved;
    assert Members(toBeRemoved) == hits by {
      forall s ensures s in Members(toBeRemoved) <==> s in hits { assert s in multiset(toBeRemoved) <==> s in multiset(hits); }
    }
    assert |toBeRemoved| == |multiset(toBeRemoved)| == |multiset(hits)| == |hits|;
  }

  ghost function Members(xs: seq<Socket>): set<Socket> { set s | s in xs }

  /** The sockets polled out, in their order. */
  method DrainQueue(queue: Queue<Socket>) returns (q: Queue<Socket>, closed: seq<Socket>)
    requires queue.Valid()
    ensures q == Drained(queue) && closed == queue.Contents()
  {
    q, closed := queue, [];
    while |q.ch| != 0
      invariant q.Valid() && q.capacity == queue.capacity
      invariant closed + q.Contents() == queue.Contents()
      decreases |q.ch|
    {
      PollRefines(q);
      PolledShrinks(q);
      if q.alive == {} { NothingQueued(q); }
      var (rest, socket) := q.Polled();
      q := rest;
      if socket.None? {
        assert closed + [] == closed;
        break;
      }
      assert closed + ([socket.value] + q.Contents()) == closed + [socket.value] + q.Contents();
      closed := closed + [socket.value];
    }
    assert q.alive == {} && closed + [] == closed;
  }

  lemma NothingQueued(q: Queue<Socket>)
    requires q.Valid() && q.alive == {}
    ensures q.Contents() == []
  {
    if q.Contents() != [] { LiveMembers(q.ch, q.alive, q.Contents()[0]); }
  }

  lemma DistinctConcat(a: seq<Socket>, b: seq<Socket>)
    requires Distinct(a) && Distinct(b) && forall s :: s in a ==> s !in b
    ensures Distinct(a + b)
  {
    var all := a + b;
    forall i, j | 0 <= i < j < |all| ensures all[i] != all[j] {
      if i < |a| <= j { assert all[i] in a && all[j] in b; }
    }
  }

  lemma AliveHome(g: Pools, r: string, s: Socket)
    requires PoolsOk(g) && r in g && s in g[r].alive
    ensures Home(s) == r
  {
    assert QueueOk(g[r], r) && s in g[r].ch;
  }

  predicate Distinct(xs: seq<Socket>) { forall i, j :: 0 <= i < j < |xs| ==> xs[i] != xs[j] }

  ghost predicate InQueues(queues: Pools, keys: set<string>, s: Socket)
  {
    exists r :: r in keys && r in queues && s in queues[r].alive
  }

  method DrainQueues(queues: Pools) returns (g: Pools, closed: seq<Socket>)
    requires PoolsOk(queues)
    ensures g == map r | r in queues :: Drained(queues[r])
    ensures Distinct(closed) && forall s :: s in closed <==> InQueues(queues, queues.Keys, s)
  {
    g, closed := queues, [];
    var todo := queues.Keys;
    while todo != {}
      invariant todo <= queues.Keys == g.Keys
      invariant forall r :: r in queues ==> g[r] == if r in todo then queues[r] else Drained(queues[r])
      invariant Distinct(closed) && forall s :: s in closed <==> InQueues(queues, queues.Keys - todo, s)
    {
      var r :| r in todo;
      var q, more := DrainQueue(g[r]);
      OneMoreDrained(queues, queues.Keys - todo, r, closed);
      g := g[r := q];
      closed := closed + more;
      todo := todo - {r};
      assert queues.Keys - todo == queues.Keys - (todo + {r}) + {r};
    }
    assert queues.Keys - {} == queues.Keys;
  }

  lemma QueueHolds(q: Queue<Socket>, s: Socket)
    requires q.Valid()
    ensures s in q.Contents() <==> s in q.alive
  {
    LiveMembers(q.ch, q.alive, s);
  }

  lemma OneMoreDrained(queues: Pools, done: set<string>, r: string, closed: seq<Socket>)
    requires PoolsOk(queues) && r in queues && r !in done
    requires Distinct(closed) && forall s :: s in closed <==> InQueues(queues, done, s)
    ensures var all := closed + queues[r].Contents();
            Distinct(all) && forall s :: s in all <==> InQueues(queues, done + {r}, s)
  {
    var more := queues[r].Contents();
    forall s ensures s in more <==> s in queues[r].alive { QueueHolds(queues[r], s); }
    forall s | s in closed ensures s !in more { HomeOf(queues, done, r, s); }
    LiveDistinct(queues[r].ch, queues[r].alive);
    DistinctConcat(closed, more);
    forall s ensures s in closed + more <==> InQueues(queues, done + {r}, s) {
      assert s in closed + more <==> s in closed || s in more;
      InOneMore(queues, done, r, s);
    }
  }

  lemma InOneMore(queues: Pools, done: set<string>, r: string, s: Socket)
    requires r in queues
    ensures InQueues(queues, done + {r}, s) <==> InQueues(queues, done, s) || s in queues[r].alive
  {
  }

  /** A socket is in the queue of its own route only. */
  lemma HomeOf(queues: Pools, done: set<string>, r: string, s: Socket)
    requires PoolsOk(queues) && r in queues && r !in done && InQueues(queues, done, s)
    ensures s !in queues[r].alive
  {
    var d :| d in done && d in queues && s in queues[d].alive;
    AliveHome(queues, d, s);
    if s in queues[r].alive { AliveHome(queues, r, s); }
  }

  lemma ClosedOnce(st: Farm, first: seq<Socket>, rest: seq<Socket>)
    requires st.Ok() && first == st.catchall.Contents()
    requires Distinct(rest) && forall s :: s in rest <==> InQueues(st.sockets, st.sockets.Keys, s)
    ensures Distinct(first + rest) && forall s: Socket :: s in first + rest <==> st.Alive(false, s)
  {
    LiveDistinct(st.catchall.ch, st.catchall.alive);
    forall s: Socket ensures (s in first ==> Home(s) == "") && (s in rest ==> Home(s) != "")
      ensures s in first || s in rest <==> st.Alive(false, s)
    {
      QueueHolds(st.catchall, s);
      NormalAlive(st, s);
    }
    DistinctConcat(first, rest);
  }

  lemma NormalAlive(st: Farm, s: Socket)
    requires st.Ok()
    ensures st.Alive(false, s) <==> s in st.catchall.alive || InQueues(st.sockets, st.sockets.Keys, s)
    ensures s in st.catchall.alive ==> Home(s) == ""
    ensures InQueues(st.sockets, st.sockets.Keys, s) ==> Home(s) != ""
  {
    if s in st.catchall.alive { assert s in st.catchall.ch; }
    if r :| r in st.sockets && s in st.sockets[r].alive {
      AliveHome(st.sockets, r, s);
    }
  }

  lemma {:induction false} PolledShrinks<T>(q: Queue<T>)
    requires q.ch != []
    ensures |q.Polled().0.ch| < |q.ch|
    decreases |q.ch|
  {
    if q.ch[0] !in q.alive && q.ch[1..] != [] { PolledShrinks(q.Received()); }
  }

  // ---------- the loops add up to the closed forms ----------

  lemma HitOneMore(alive: set<Socket>, todo: set<Socket>, s: Socket, m: Match, dark: bool)
    requires s in todo && todo <= alive
    ensures var was, now := Hit(alive - todo, m), Hit(alive - (todo - {s}), m);
            if m.Hits(s) then
              && now == was + {s} && s !in was
              && Offers(dark, now) == Offers(dark, was) + multiset{Offer(dark, s)}
              && multiset(now) == multiset(was) + multiset{s}
            else now == was
  {
    var was, now := Hit(alive - todo, m), Hit(alive - (todo - {s}), m);
    if m.Hits(s) {
      assert now == was + {s};
      assert (set x | x in now :: Offer(dark, x)) == (set x | x in was :: Offer(dark, x)) + {Offer(dark, s)};
    } else {
      assert now == was;
    }
  }

  lemma PickedFrom(st: Farm, dark: bool, r: string, m: Match)
    requires r in st.Group(dark)
    ensures st.Picked(dark, {r}, m) == Hit(st.Group(dark)[r].alive, m)
  {
  }

  lemma OffersUnion(dark: bool, a: set<Socket>, b: set<Socket>)
    requires a !! b
    ensures Offers(dark, a + b) == Offers(dark, a) + Offers(dark, b)
  {
    var oa, ob := set s | s in a :: Offer(dark, s), set s | s in b :: Offer(dark, s);
    assert (set s | s in a + b :: Offer(dark, s)) == oa + ob;
    assert oa !! ob;
  }

  lemma RoutesUnion(a: set<Socket>, b: set<Socket>)
    ensures Routes(a + b) == Routes(a) + Routes(b)
  {
  }

  ghost predicate Keyed(g: Pools)
  {
    forall r, s :: r in g && s in g[r].alive ==> s.route == r
  }

  lemma PoolsKeyed(g: Pools)
    requires PoolsOk(g)
    ensures Keyed(g)
  {
  }

  lemma PickedUnion(st: Farm, dark: bool, done: set<string>, r: string, m: Match)
    requires Keyed(st.Group(dark)) && r !in done
    ensures st.Picked(dark, done + {r}, m) == st.Picked(dark, done, m) + st.Picked(dark, {r}, m)
    ensures st.Picked(dark, done, m) !! st.Picked(dark, {r}, m)
  {
  }

  lemma PurgeOne(g: Pools, r: string, m: Match)
    requires r in g
    ensures PurgedPools(g, {r}, m) == g[r := Purged(g[r], m)]
  {
  }

  lemma PurgeUnion(g: Pools, done: set<string>, r: string, m: Match)
    requires r in g && r !in done
    ensures PurgedPools(PurgedPools(g, done, m), {r}, m) == PurgedPools(g, done + {r}, m)
    ensures r in PurgedPools(g, done, m) && PurgedPools(g, done, m)[r] == g[r]
  {
  }

  lemma FreshOne(g: Pools, r: string, hits: set<Socket>)
    requires forall s :: s in hits ==> s.route == r
    ensures g + Fresh(Routes(hits) - g.Keys) == if hits == {} then g else WithQueue(g, r)
  {
    if hits == {} {
      assert Routes(hits) == {};
    } else {
      var s :| s in hits;
      assert Routes(hits) == {r} by { assert s.route in Routes(hits); }
    }
  }

  lemma MarkOne(st: Farm, r: string, m: Match)
    requires r in st.sockets && forall s :: s in st.sockets[r].alive ==> s.route == r
    ensures var hits := Hit(st.sockets[r].alive, m);
            st.MarkRoutes({r}, m)
            == st.(sockets := st.sockets[r := Purged(st.sockets[r], m)],
                   darkSockets := if hits == {} then st.darkSockets else WithQueue(st.darkSockets, r),
                   pending := st.pending + Offers(true, hits))
  {
    PurgeOne(st.sockets, r, m);
    FreshOne(st.darkSockets, r, Hit(st.sockets[r].alive, m));
    PickedFrom(st, false, r, m);
  }

  lemma UnmarkOne(st: Farm, r: string, m: Match)
    requires r in st.darkSockets
    ensures st.UnmarkRoutes({r}, m)
         == st.(darkSockets := st.darkSockets[r := Purged(st.darkSockets[r], m)],
                pending := st.pending + Offers(true, Hit(st.darkSockets[r].alive, m)))
  {
    PurgeOne(st.darkSockets, r, m);
    PickedFrom(st, true, r, m);
  }

  lemma FreshUnion(g: Pools, a: set<string>, b: set<string>)
    ensures var g1 := g + Fresh(a - g.Keys);
            g1 + Fresh(b - g1.Keys) == g + Fresh(a + b - g.Keys)
  {
  }

  lemma MarkNothing(st: Farm, m: Match)
    ensures st.MarkRoutes({}, m) == st
  {
    assert st.Picked(false, {}, m) == {};
    assert Fresh(Routes({}) - st.darkSockets.Keys) == map[];
    assert PurgedPools(st.sockets, {}, m) == st.sockets;
  }

  lemma MarkTwice(st: Farm, done: set<string>, r: string, m: Match, a: set<Socket>, b: set<Socket>)
    requires r in st.sockets && r !in done && a !! b
    ensures st.MarkPicked(done, m, a).MarkPicked({r}, m, b) == st.MarkPicked(done + {r}, m, a + b)
  {
    PurgeUnion(st.sockets, done, r, m);
    OffersUnion(true, a, b);
    RoutesUnion(a, b);
    FreshUnion(st.darkSockets, Routes(a), Routes(b));
  }

  lemma MarkOneMore(st: Farm, done: set<string>, r: string, m: Match)
    requires Keyed(st.sockets) && r in st.sockets && r !in done
    ensures st.MarkRoutes(done, m).MarkRoutes({r}, m) == st.MarkRoutes(done + {r}, m)
    ensures var g := st.MarkRoutes(done, m).sockets; r in g && forall s :: s in g[r].alive ==> s.route == r
  {
    var a, b := st.Picked(false, done, m), st.Picked(false, {r}, m);
    PurgeUnion(st.sockets, done, r, m);
    PickedFrom(st, false, r, m);
    PickedFrom(st.MarkRoutes(done, m), false, r, m);
    PickedUnion(st, false, done, r, m);
    MarkTwice(st, done, r, m, a, b);
  }

  lemma UnmarkNothing(st: Farm, m: Match)
    ensures st.UnmarkRoutes({}, m) == st
  {
    assert st.Picked(true, {}, m) == {};
    assert PurgedPools(st.darkSockets, {}, m) == st.darkSockets;
  }

  lemma UnmarkTwice(st: Farm, done: set<string>, r: string, m: Match, a: set<Socket>, b: set<Socket>)
    requires r in st.darkSockets && r !in done && a !! b
    ensures st.UnmarkPicked(done, m, a).UnmarkPicked({r}, m, b) == st.UnmarkPicked(done + {r}, m, a + b)
  {
    PurgeUnion(st.darkSockets, done, r, m);
    OffersUnion(true, a, b);
  }

  lemma UnmarkOneMore(st: Farm, done: set<string>, r: string, m: Match)
    requires Keyed(st.darkSockets) && r in st.darkSockets && r !in done
    ensures st.UnmarkRoutes(done, m).UnmarkRoutes({r}, m) == st.UnmarkRoutes(done + {r}, m)
    ensures var g := st.UnmarkRoutes(done, m).darkSockets; r in g && forall s :: s in g[r].alive ==> s.route == r
  {
    var a, b := st.Picked(true, done, m), st.Picked(true, {r}, m);
    PurgeUnion(st.darkSockets, done, r, m);
    PickedFrom(st, true, r, m);
    PickedFrom(st.UnmarkRoutes(done, m), true, r, m);
    PickedUnion(st, true, done, r, m);
    UnmarkTwice(st, done, r, m, a, b);
  }
}
