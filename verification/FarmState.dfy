/** The router's socket pools as a value, one function per atomic operation of
    router/router_socket/websocket_farm.go and router/darklaunch_manager.
    `Offer` starts a goroutine, so an offer is `pending` until it lands. */
module FarmState {
  import opened Text
  import opened IterableChan
  import opened DarkLaunch

  /** A registered RouterSocket; `id` tells apart sockets of one connector. */
  datatype Socket = Socket(id: nat, route: string, ip: string)

  /** The pool AddWebsocket chooses; "" stands for the catchall one, which the literal route
      "*" is put in as well. */
  function Home(s: Socket): string { if s.route == "*" then "" else s.route }

  /** A pending `Offer` of `s` to its normal or its dark pool. */
  datatype Offer = Offer(dark: bool, s: Socket)

  /** How a dark-launch callback picks sockets. */
  datatype Match = IpIs(ip: string) | RouteIs(route: string)
  {
    predicate Hits(s: Socket) { if IpIs? then s.ip == ip else s.route == route }
  }

  type Pools = map<string, Queue<Socket>>

  datatype Farm = Farm(
    sockets: Pools, darkSockets: Pools, catchall: Queue<Socket>, darkCatchall: Queue<Socket>,
    ips: set<string>, services: set<string>, gray: bool,
    pending: multiset<Offer>, handed: multiset<Socket>)
  {
    predicate IsDarkModeOn() { services != {} || ips != {} }

    predicate IsDark(s: Socket) { IsDarkModeOn() && (s.ip in ips || s.route in services) }

    function Group(dark: bool): Pools { if dark then darkSockets else sockets }

    function Catch(dark: bool): Queue<Socket> { if dark then darkCatchall else catchall }

    function WithGroup(dark: bool, g: Pools): Farm
    {
      if dark then this.(darkSockets := g) else this.(sockets := g)
    }

    function WithCatch(dark: bool, q: Queue<Socket>): Farm
    {
      if dark then this.(darkCatchall := q) else this.(catchall := q)
    }

    predicate HasPool(dark: bool, route: string) { route == "" || route in Group(dark) }

    /** The pool of a route, the catchall one for the empty route. */
    function Pool(dark: bool, route: string): Queue<Socket>
      requires HasPool(dark, route)
    {
      if route == "" then Catch(dark) else Group(dark)[route]
    }

    function WithPool(dark: bool, route: string, q: Queue<Socket>): Farm
    {
      if route == "" then WithCatch(dark, q) else WithGroup(dark, Group(dark)[route := q])
    }

    predicate Alive(dark: bool, s: Socket)
    {
      HasPool(dark, Home(s)) && s in Pool(dark, Home(s)).alive
    }

    // ---------- sockets come and go ----------

    function AddWebsocket(s: Socket): Farm
    {
      var dark := IsDark(s);
      var st := if HasPool(dark, Home(s)) then this else WithPool(dark, Home(s), EmptyQueue(0));
      st.(pending := st.pending + multiset{Offer(dark, s)})
    }

    /** A pending offer gets into its channel, or keeps waiting for room. */
    function Land(o: Offer): Farm
    {
      if o in pending && HasPool(o.dark, Home(o.s)) && Pool(o.dark, Home(o.s)).HasRoom()
      then WithPool(o.dark, Home(o.s), Pool(o.dark, Home(o.s)).Offered(o.s)).(pending := pending - multiset{o})
      else this
    }

    /** The pool is looked up under the route as it is. */
    function RemoveWebsocket(s: Socket): Farm
    {
      var dark := IsDark(s);
      if HasPool(dark, s.route) then WithPool(dark, s.route, Pool(dark, s.route).Removed(s)) else this
    }

    /** The route whose queue `getRouterSocket` polls; "" stands for the catchall one. */
    function Choice(target: string): (bool, string)
    {
      var dark := IsDarkModeOn() && gray;
      var route := ResolveRoute(target);
      (dark, if route in Group(dark) then route else "")
    }

    function AcquireSocket(target: string, patience: nat): (Farm, Option<Socket>)
    {
      var (dark, route) := Choice(target);
      var (q, r) := Pool(dark, route).PolledWithin(patience);
      (WithPool(dark, route, q).(handed := if r.Some? then handed + multiset{r.value} else handed), r)
    }

    function Stop(): Farm
    {
      this.(catchall := Drained(catchall), sockets := map r | r in sockets :: Drained(sockets[r]))
    }

    // ---------- dark launch ----------

    /** The sockets of the given per-route queues that a callback picks. */
    function Picked(dark: bool, keys: set<string>, m: Match): set<Socket>
    {
      set r, s | r in keys && r in Group(dark) && s in Group(dark)[r].alive && m.Hits(s) :: s
    }

    /** AfterDark...Added for the given keys of `sockets`: every picked socket is offered to
        the dark queue of its route, created if missing, and removed from its own. */
    function MarkRoutes(keys: set<string>, m: Match): Farm { MarkPicked(keys, m, Picked(false, keys, m)) }

    function MarkPicked(keys: set<string>, m: Match, picked: set<Socket>): Farm
    {
      this.(
        sockets := PurgedPools(sockets, keys, m),
        darkSockets := darkSockets + Fresh(Routes(picked) - darkSockets.Keys),
        pending := pending + Offers(true, picked))
    }

    function MarkCatchall(m: Match): Farm
    {
      this.(catchall := Purged(catchall, m), pending := pending + Offers(true, Hit(catchall.alive, m)))
    }

    /** AfterDark...Revoked for the given keys of `darkSockets`. The destination is looked
        up among the dark queues again, so it is the very queue the socket is in. */
    function UnmarkRoutes(keys: set<string>, m: Match): Farm { UnmarkPicked(keys, m, Picked(true, keys, m)) }

    function UnmarkPicked(keys: set<string>, m: Match, picked: set<Socket>): Farm
    {
      this.(darkSockets := PurgedPools(darkSockets, keys, m), pending := pending + Offers(true, picked))
    }

    function UnmarkCatchall(m: Match): Farm
    {
      this.(darkCatchall := Purged(darkCatchall, m), pending := pending + Offers(false, Hit(darkCatchall.alive, m)))
    }

    function Mark(route: Match, catchAll: Match): Farm
    {
      MarkRoutes(sockets.Keys, route).MarkCatchall(catchAll)
    }

    function Unmark(route: Match, catchAll: Match): Farm
    {
      this.(gray := false).UnmarkRoutes(darkSockets.Keys, route).UnmarkCatchall(catchAll)
    }

    function AddIp(ip: string): (Farm, bool)
    {
      if IsValidIp(ip) then (this.(ips := ips + {ip}).Mark(IpIs(ip), IpIs(ip)), true) else (this, false)
    }

    /** Per route, the callback compares the service with the socket's ip. */
    function AddService(service: string): (Farm, bool)
    {
      if IsValidService(service)
      then (this.(services := services + {service}).Mark(IpIs(service), RouteIs(service)), true)
      else (this, false)
    }

    function RemoveIp(ip: string): (Farm, bool)
    {
      if ip in ips then (this.(ips := ips - {ip}).Unmark(IpIs(ip), IpIs(ip)), true) else (this, false)
    }

    function RemoveService(service: string): (Farm, bool)
    {
      if service in services
      then (this.(services := services - {service}).Unmark(RouteIs(service), RouteIs(service)), true)
      else (this, false)
    }

    /** PUT /dark-launch/gray/on and /off; forbidden unless dark mode is on. */
    function PutGray(on: bool): Farm { if IsDarkModeOn() then this.(gray := on) else this }

    // ---------- invariant ----------

    ghost predicate Ok()
    {
      && PoolsOk(sockets) && PoolsOk(darkSockets)
      && QueueOk(catchall, "") && QueueOk(darkCatchall, "")
      && (forall o :: o in pending ==> HasPool(o.dark, Home(o.s)))
      && (forall x :: x in services ==> IsValidService(x))
      && (gray ==> IsDarkModeOn())
    }
  }

  /** A valid queue whose every copy, alive or dead, belongs in the pool of the given route. */
  ghost predicate QueueOk(q: Queue<Socket>, route: string)
  {
    q.Valid() && forall s :: s in q.ch ==> Home(s) == route
  }

  ghost predicate PoolsOk(g: Pools) { forall r :: r in g ==> r != "" && r != "*" && QueueOk(g[r], r) }

  function Hit(alive: set<Socket>, m: Match): set<Socket> { set s | s in alive && m.Hits(s) }

  function Purged(q: Queue<Socket>, m: Match): Queue<Socket>
  {
    q.(alive := q.alive - Hit(q.alive, m), length := q.length - |Hit(q.alive, m)|)
  }

  function PurgedPools(g: Pools, keys: set<string>, m: Match): Pools
  {
    map r | r in g :: if r in keys then Purged(g[r], m) else g[r]
  }

  function Drained(q: Queue<Socket>): Queue<Socket> { q.(ch := [], alive := {}, length := 0) }

  function Routes(picked: set<Socket>): set<string> { set s | s in picked :: s.route }

  function Fresh(routes: set<string>): Pools { map r | r in routes :: EmptyQueue<Socket>(0) }

  function Offers(dark: bool, picked: set<Socket>): multiset<Offer>
  {
    multiset(set s | s in picked :: Offer(dark, s))
  }

  /** `resolveRoute`: the text between the first and the second slash. */
  function ResolveRoute(target: string): string
  {
    var parts := Split(target, '/');
    if |parts| >= 2 then parts[1] else ""
  }

  function Init(): Farm
  {
    Farm(map[], map[], EmptyQueue(0), EmptyQueue(0), {}, {}, false, multiset{}, multiset{})
  }

  /** The target is "/" and the route, alone or followed by a slash and anything. */
  predicate Addresses(target: string, route: string)
  {
    '/' !in route && (target == "/" + route || "/" + route + "/" <= target)
  }

  lemma ResolvesRoute(target: string, route: string)
    requires Addresses(target, route)
    ensures ResolveRoute(target) == route
  {
    if target == "/" + route {
      assert target == "" + ['/'] + route;
      SplitCons("", route, '/');
      SplitNone(route, '/');
    } else {
      var rest := target[|route| + 2..];
      assert target == "" + ['/'] + (route + ['/'] + rest);
      SplitCons("", route + ['/'] + rest, '/');
      SplitCons(route, rest, '/');
    }
  }

  lemma NoSlashNoRoute(target: string)
    requires '/' !in target
    ensures ResolveRoute(target) == ""
  {
    SplitNone(target, '/');
  }

  // ---------- the invariant is kept by every operation ----------

  lemma InitOk() ensures Init().Ok() {}

  lemma PurgedOk(q: Queue<Socket>, m: Match, route: string)
    requires QueueOk(q, route)
    ensures QueueOk(Purged(q, m), route)
  {
    assert |q.alive| == |Hit(q.alive, m)| + |q.alive - Hit(q.alive, m)| by {
      assert q.alive == Hit(q.alive, m) + (q.alive - Hit(q.alive, m));
    }
  }

  lemma WithPoolOk(st: Farm, dark: bool, route: string, q: Queue<Socket>)
    requires st.Ok() && QueueOk(q, route) && route != "*"
    ensures st.WithPool(dark, route, q).Ok()
  {
  }

  lemma AddOk(st: Farm, s: Socket)
    requires st.Ok()
    ensures st.AddWebsocket(s).Ok()
  {
    WithPoolOk(st, st.IsDark(s), Home(s), EmptyQueue(0));
  }

  lemma LandOk(st: Farm, o: Offer)
    requires st.Ok() && !st.Alive(o.dark, o.s)
    ensures st.Land(o).Ok()
  {
    if st.HasPool(o.dark, Home(o.s)) && st.Pool(o.dark, Home(o.s)).HasRoom() {
      var q := st.Pool(o.dark, Home(o.s));
      OfferRefines(q, o.s);
      WithPoolOk(st, o.dark, Home(o.s), q.Offered(o.s));
    }
  }

  lemma RemoveOk(st: Farm, s: Socket)
    requires st.Ok()
    ensures st.RemoveWebsocket(s).Ok()
  {
    var dark := st.IsDark(s);
    if st.HasPool(dark, s.route) {
      RemoveRefines(st.Pool(dark, s.route), s);
      WithPoolOk(st, dark, s.route, st.Pool(dark, s.route).Removed(s));
    }
  }

  lemma {:induction false} PolledWithinCopies<T>(q: Queue<T>, patience: nat, s: T)
    requires s in q.PolledWithin(patience).0.ch
    ensures s in q.ch
    decreases |q.ch|
  {
    if q.ch != [] && q.ch[0] !in q.alive && patience > 0 {
      PolledWithinCopies(q.Received(), patience - 1, s);
    }
  }

  lemma AcquireOk(st: Farm, target: string, patience: nat)
    requires st.Ok()
    ensures st.AcquireSocket(target, patience).0.Ok()
  {
    var (dark, route) := st.Choice(target);
    var q := st.Pool(dark, route);
    PollTimeoutRefines(q, patience);
    var q' := q.PolledWithin(patience).0;
    forall s | s in q'.ch ensures Home(s) == route { PolledWithinCopies(q, patience, s); }
    WithPoolOk(st, dark, route, q');
  }

  lemma GrayFollows(st: Farm, on: bool)
    requires st.Ok()
    ensures st.PutGray(on).gray == (on && (st.services != {} || st.ips != {}))
    ensures st.PutGray(on) == st.(gray := st.PutGray(on).gray)
  {
  }

  lemma StopOk(st: Farm)
    requires st.Ok()
    ensures st.Stop().Ok()
  {
  }

  lemma PurgedPoolsOk(g: Pools, keys: set<string>, m: Match)
    requires PoolsOk(g)
    ensures PoolsOk(PurgedPools(g, keys, m))
  {
    forall r | r in g ensures QueueOk(Purged(g[r], m), r) { PurgedOk(g[r], m, r); }
  }

  lemma PickedRoutes(st: Farm, dark: bool, keys: set<string>, m: Match, s: Socket)
    requires PoolsOk(st.Group(dark))
    ensures s in st.Picked(dark, keys, m) <==>
            s.route in keys && s.route in st.Group(dark) && s in st.Group(dark)[s.route].alive && m.Hits(s)
    ensures s in st.Picked(dark, keys, m) ==> s.route != "" && Home(s) == s.route
  {
  }

  lemma FreshOk(g: Pools, picked: set<Socket>)
    requires PoolsOk(g) && forall s :: s in picked ==> s.route != "" && Home(s) == s.route
    ensures PoolsOk(g + Fresh(Routes(picked) - g.Keys))
    ensures forall s :: s in picked ==> s.route in g + Fresh(Routes(picked) - g.Keys)
  {
    forall s | s in picked ensures s.route in Routes(picked) {}
  }

  lemma MarkRoutesOk(st: Farm, keys: set<string>, m: Match)
    requires st.Ok()
    ensures st.MarkRoutes(keys, m).Ok()
  {
    var st' := st.MarkRoutes(keys, m);
    var picked := st.Picked(false, keys, m);
    PurgedPoolsOk(st.sockets, keys, m);
    forall s | s in picked ensures s.route != "" && Home(s) == s.route { PickedRoutes(st, false, keys, m, s); }
    FreshOk(st.darkSockets, picked);
    forall o | o in st'.pending ensures st'.HasPool(o.dark, Home(o.s)) {
      if o !in st.pending { assert o.dark && o.s in picked; }
    }
  }

  lemma MarkCatchallOk(st: Farm, m: Match)
    requires st.Ok()
    ensures st.MarkCatchall(m).Ok()
  {
    PurgedOk(st.catchall, m, "");
  }

  lemma UnmarkRoutesOk(st: Farm, keys: set<string>, m: Match)
    requires st.Ok()
    ensures st.UnmarkRoutes(keys, m).Ok()
  {
    PurgedPoolsOk(st.darkSockets, keys, m);
    forall s | s in st.Picked(true, keys, m) ensures Home(s) == s.route && s.route in st.darkSockets { PickedRoutes(st, true, keys, m, s); }
  }

  lemma UnmarkCatchallOk(st: Farm, m: Match)
    requires st.Ok()
    ensures st.UnmarkCatchall(m).Ok()
  {
    PurgedOk(st.darkCatchall, m, "");
  }

  lemma MarkOk(st: Farm, m1: Match, m2: Match)
    requires st.Ok()
    ensures st.Mark(m1, m2).Ok()
  {
    MarkRoutesOk(st, st.sockets.Keys, m1);
    MarkCatchallOk(st.MarkRoutes(st.sockets.Keys, m1), m2);
  }

  lemma UnmarkOk(st: Farm, m1: Match, m2: Match)
    requires st.(gray := false).Ok()
    ensures st.Unmark(m1, m2).Ok()
  {
    var st0 := st.(gray := false);
    UnmarkRoutesOk(st0, st.darkSockets.Keys, m1);
    UnmarkCatchallOk(st0.UnmarkRoutes(st.darkSockets.Keys, m1), m2);
  }
}
