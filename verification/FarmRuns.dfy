/** What every run of the router's socket farm keeps: each socket is handed to at most one
    request, requests get sockets of their route, and sockets sit in the pool that the
    dark-launch rules ask for. */
module FarmRuns {
  import opened Text
  import opened Counting
  import opened IterableChan
  import opened DarkLaunch
  import opened FarmState

  datatype RuleChange = AddIp(ip: string) | RemoveIp(ip: string) | AddService(service: string) | RemoveService(service: string)

  datatype Event =
    | Add(s: Socket) | Land(o: Offer) | Remove(s: Socket)
    | Acquire(target: string, patience: nat) | Stop
    | Change(c: RuleChange) | PutGray(on: bool)

  function Step(st: Farm, e: Event): Farm
  {
    match e
    case Add(s) => st.AddWebsocket(s)
    case Land(o) => st.Land(o)
    case Remove(s) => st.RemoveWebsocket(s)
    case Acquire(target, patience) => st.AcquireSocket(target, patience).0
    case Stop => st.Stop()
    case Change(c) => Changed(st, c)
    case PutGray(on) => st.PutGray(on)
  }

  function Changed(st: Farm, c: RuleChange): Farm
  {
    match c
    case AddIp(ip) => st.AddIp(ip).0
    case RemoveIp(ip) => st.RemoveIp(ip).0
    case AddService(x) => st.AddService(x).0
    case RemoveService(x) => st.RemoveService(x).0
  }

  function Run(st: Farm, es: seq<Event>): Farm
    decreases |es|
  {
    if es == [] then st else Run(Step(st, es[0]), es[1..])
  }

  // ---------- one socket's view of the farm ----------

  /** Where a socket is: alive in its normal or dark pool, in pending offers to them, handed
      to requests; and whether the rules call it dark. */
  datatype View = View(normal: bool, dark: bool, toNormal: nat, toDark: nat, handed: nat, isDark: bool)
  {
    function Places(): nat { Tally(normal) + Tally(dark) + toNormal + toDark + handed }

    /** It sits in, and is on its way to, only the pool the rules ask for. */
    predicate Placed() { (normal || toNormal > 0 ==> !isDark) && (dark || toDark > 0 ==> isDark) }

    function Offered(toD: bool): View { if toD then this.(toDark := toDark + 1) else this.(toNormal := toNormal + 1) }

    function Landed(inD: bool): View
      requires if inD then toDark > 0 else toNormal > 0
    {
      if inD then this.(toDark := toDark - 1, dark := true) else this.(toNormal := toNormal - 1, normal := true)
    }

    function Gone(fromD: bool): View { if fromD then this.(dark := false) else this.(normal := false) }

    /** An added-callback picks the socket: its alive normal copy moves towards the dark pool. */
    function Marked(hit: bool): View { if hit && normal then Gone(false).Offered(true) else this }

    /** A revoked-callback picks the socket. */
    function Unmarked(hit: bool, catchAll: bool): View { if hit && dark then Gone(true).Offered(!catchAll) else this }

    function Rule(d: bool): View { this.(isDark := d) }
  }

  function Look(st: Farm, s: Socket): View
  {
    View(st.Alive(false, s), st.Alive(true, s), st.pending[Offer(false, s)], st.pending[Offer(true, s)], st.handed[s], st.IsDark(s))
  }

  lemma AliveWithPool(st: Farm, dark: bool, route: string, q: Queue<Socket>, d: bool, s: Socket)
    ensures st.WithPool(dark, route, q).Alive(d, s) ==
            if d == dark && Home(s) == route then s in q.alive else st.Alive(d, s)
  {
  }

  lemma LookWithPool(st: Farm, dark: bool, route: string, q: Queue<Socket>, s: Socket)
    ensures var st' := st.WithPool(dark, route, q);
            && st'.Alive(false, s) == (if !dark && Home(s) == route then s in q.alive else st.Alive(false, s))
            && st'.Alive(true, s) == (if dark && Home(s) == route then s in q.alive else st.Alive(true, s))
            && st'.pending == st.pending && st'.handed == st.handed && st'.ips == st.ips && st'.services == st.services
  {
    AliveWithPool(st, dark, route, q, false, s);
    AliveWithPool(st, dark, route, q, true, s);
  }

  lemma AddLook(st: Farm, added: Socket, s: Socket)
    ensures Look(st.AddWebsocket(added), s) == if s == added then Look(st, s).Offered(st.IsDark(s)) else Look(st, s)
  {
    var dark := st.IsDark(added);
    if !st.HasPool(dark, Home(added)) {
      LookWithPool(st, dark, Home(added), EmptyQueue(0), s);
      OfferLook(st.WithPool(dark, Home(added), EmptyQueue(0)), Offer(dark, added), s);
    } else {
      OfferLook(st, Offer(dark, added), s);
    }
  }

  lemma OfferLook(st: Farm, o: Offer, s: Socket)
    ensures Look(st.(pending := st.pending + multiset{o}), s) == if s == o.s then Look(st, s).Offered(o.dark) else Look(st, s)
  {
  }

  lemma LandedLook(st: Farm, o: Offer, s: Socket)
    requires o in st.pending
    ensures var now := Look(st.(pending := st.pending - multiset{o}), s);
            now == if s != o.s then Look(st, s)
                   else if o.dark then Look(st, s).(toDark := st.pending[o] - 1)
                   else Look(st, s).(toNormal := st.pending[o] - 1)
  {
    assert o == Offer(o.dark, o.s);
  }

  lemma LandLook(st: Farm, o: Offer, s: Socket)
    requires st.Land(o) != st
    ensures o in st.pending
    ensures Look(st.Land(o), s) == if s == o.s then Look(st, s).Landed(o.dark) else Look(st, s)
  {
    var q := st.Pool(o.dark, Home(o.s)).Offered(o.s);
    LookWithPool(st, o.dark, Home(o.s), q, s);
    LandedLook(st.WithPool(o.dark, Home(o.s), q), o, s);
  }

  /** The pool is looked up under the route as it is, and there is none for "*". */
  lemma RemoveLook(st: Farm, removed: Socket, s: Socket)
    requires st.Ok()
    ensures Look(st.RemoveWebsocket(removed), s)
         == if s == removed && s.route != "*" then Look(st, s).Gone(st.IsDark(s)) else Look(st, s)
  {
    var dark := st.IsDark(removed);
    if st.HasPool(dark, removed.route) {
      LookWithPool(st, dark, removed.route, st.Pool(dark, removed.route).Removed(removed), s);
    }
  }

  /** The request's socket was alive in the chosen pool and now is in the request's hands. */
  lemma AcquireLook(st: Farm, target: string, patience: nat, s: Socket)
    requires st.Ok()
    ensures var (st', r) := st.AcquireSocket(target, patience);
            var dark := st.Choice(target).0;
            && (r == Some(s) ==> st.Alive(dark, s))
            && Look(st', s) == if r == Some(s) then Look(st, s).Gone(dark).(handed := st.handed[s] + 1) else Look(st, s)
  {
    var (dark, route) := st.Choice(target);
    ChoiceOk(st, target);
    PollLook(st, dark, route, patience, s);
    var (q, r) := st.Pool(dark, route).PolledWithin(patience);
    HandLook(st.WithPool(dark, route, q), r, s);
  }

  lemma ChoiceOk(st: Farm, target: string)
    requires st.Ok()
    ensures var (dark, route) := st.Choice(target);
            && st.HasPool(dark, route) && QueueOk(st.Pool(dark, route), route)
            && dark == st.gray
            && route == if ResolveRoute(target) in st.Group(st.gray) then ResolveRoute(target) else ""
  {
  }

  lemma HandLook(st: Farm, r: Option<Socket>, s: Socket)
    ensures Look(st.(handed := if r.Some? then st.handed + multiset{r.value} else st.handed), s)
         == if r == Some(s) then Look(st, s).(handed := st.handed[s] + 1) else Look(st, s)
  {
  }

  lemma PolledAlive(q: Queue<Socket>, patience: nat, s: Socket)
    requires q.Valid()
    ensures var (q', r) := q.PolledWithin(patience);
            && (s in q'.alive <==> s in q.alive && r != Some(s))
            && (r == Some(s) ==> s in q.alive && s in q.ch)
  {
    PollTimeoutRefines(q, patience);
    var (q', r) := q.PolledWithin(patience);
    if r.None? { assert q'.alive == q.alive; } else { assert q'.alive == q.alive - {r.value}; }
  }

  lemma PollLook(st: Farm, dark: bool, route: string, patience: nat, s: Socket)
    requires st.HasPool(dark, route) && QueueOk(st.Pool(dark, route), route)
    ensures var (q, r) := st.Pool(dark, route).PolledWithin(patience);
            && (r == Some(s) ==> st.Alive(dark, s))
            && Look(st.WithPool(dark, route, q), s) == if r == Some(s) then Look(st, s).Gone(dark) else Look(st, s)
  {
    var q := st.Pool(dark, route);
    PolledAlive(q, patience, s);
    if q.PolledWithin(patience).1 == Some(s) { assert Home(s) == route; }
    LookWithPool(st, dark, route, q.PolledWithin(patience).0, s);
  }

  lemma StopLook(st: Farm, s: Socket)
    ensures Look(st.Stop(), s) == Look(st, s).Gone(false)
  {
  }

  lemma OffersCount(dark: bool, picked: set<Socket>, s: Socket)
    ensures Offers(dark, picked)[Offer(dark, s)] == Tally(s in picked)
    ensures Offers(dark, picked)[Offer(!dark, s)] == 0
  {
  }

  predicate Hits(route: Match, catchAll: Match, s: Socket)
  {
    if Home(s) == "" then catchAll.Hits(s) else route.Hits(s)
  }

  /** AfterDark...Added: exactly the matching alive normal sockets leave their pool, and
      each of them, and nothing else, is on its way to the dark one. */
  lemma MarkLook(st: Farm, route: Match, catchAll: Match, s: Socket)
    requires PoolsOk(st.sockets) && QueueOk(st.catchall, "")
    ensures Look(st.Mark(route, catchAll), s) == Look(st, s).Marked(Hits(route, catchAll, s))
  {
    PickedRoutes(st, false, st.sockets.Keys, route, s);
    OffersCount(true, st.Picked(false, st.sockets.Keys, route), s);
    OffersCount(true, Hit(st.catchall.alive, catchAll), s);
  }

  /** AfterDark...Revoked: a matching catchall socket is on its way to the normal pool, but
      a matching per-route one is on its way back to the dark pool it came from. */
  lemma UnmarkLook(st: Farm, route: Match, catchAll: Match, s: Socket)
    requires PoolsOk(st.darkSockets) && QueueOk(st.darkCatchall, "")
    ensures Look(st.Unmark(route, catchAll), s) == Look(st, s).Unmarked(Hits(route, catchAll, s), Home(s) == "")
  {
    var st1 := st.(gray := false).UnmarkRoutes(st.darkSockets.Keys, route);
    UnmarkRoutesLook(st.(gray := false), route, s);
    UnmarkCatchallLook(st1, catchAll, s);
  }

  lemma UnmarkRoutesLook(st: Farm, m: Match, s: Socket)
    requires PoolsOk(st.darkSockets)
    ensures Look(st.UnmarkRoutes(st.darkSockets.Keys, m), s) == Look(st, s).Unmarked(Home(s) != "" && m.Hits(s), Home(s) == "")
  {
    PickedRoutes(st, true, st.darkSockets.Keys, m, s);
    OffersCount(true, st.Picked(true, st.darkSockets.Keys, m), s);
  }

  lemma UnmarkCatchallLook(st: Farm, m: Match, s: Socket)
    requires QueueOk(st.darkCatchall, "")
    ensures Look(st.UnmarkCatchall(m), s) == Look(st, s).Unmarked(Home(s) == "" && m.Hits(s), Home(s) == "")
  {
    OffersCount(false, Hit(st.darkCatchall.alive, m), s);
  }

  // ---------- one socket under any event ----------

  predicate Accepted(st: Farm, c: RuleChange)
  {
    match c
    case AddIp(ip) => IsValidIp(ip)
    case RemoveIp(ip) => ip in st.ips
    case AddService(x) => IsValidService(x)
    case RemoveService(x) => x in st.services
  }

  predicate DarkAfter(st: Farm, c: RuleChange, s: Socket)
  {
    match c
    case AddIp(ip) => st.IsDark(s) || s.ip == ip
    case RemoveIp(ip) => s.ip in st.ips - {ip} || s.route in st.services
    case AddService(x) => st.IsDark(s) || s.route == x
    case RemoveService(x) => s.ip in st.ips || s.route in st.services - {x}
  }

  function ChangedView(v: View, c: RuleChange, s: Socket, darkAfter: bool): View
  {
    match c
    case AddIp(ip) => v.Rule(darkAfter).Marked(s.ip == ip)
    case RemoveIp(ip) => v.Rule(darkAfter).Unmarked(s.ip == ip, Home(s) == "")
    case AddService(x) => v.Rule(darkAfter).Marked(if Home(s) == "" then s.route == x else s.ip == x)
    case RemoveService(x) => v.Rule(darkAfter).Unmarked(s.route == x, Home(s) == "")
  }

  lemma AddIpLook(st: Farm, ip: string, s: Socket)
    requires PoolsOk(st.sockets) && QueueOk(st.catchall, "") && IsValidIp(ip)
    ensures Look(st.AddIp(ip).0, s) == Look(st, s).Rule(st.IsDark(s) || s.ip == ip).Marked(s.ip == ip)
  {
    MarkLook(st.(ips := st.ips + {ip}), IpIs(ip), IpIs(ip), s);
  }

  lemma AddServiceLook(st: Farm, x: string, s: Socket)
    requires PoolsOk(st.sockets) && QueueOk(st.catchall, "") && IsValidService(x)
    ensures Look(st.AddService(x).0, s)
         == Look(st, s).Rule(st.IsDark(s) || s.route == x).Marked(if Home(s) == "" then s.route == x else s.ip == x)
  {
    MarkLook(st.(services := st.services + {x}), IpIs(x), RouteIs(x), s);
  }

  lemma RemoveIpLook(st: Farm, ip: string, s: Socket)
    requires PoolsOk(st.darkSockets) && QueueOk(st.darkCatchall, "") && ip in st.ips
    ensures Look(st.RemoveIp(ip).0, s)
         == Look(st, s).Rule(s.ip in st.ips - {ip} || s.route in st.services).Unmarked(s.ip == ip, Home(s) == "")
  {
    UnmarkLook(st.(ips := st.ips - {ip}), IpIs(ip), IpIs(ip), s);
  }

  lemma RemoveServiceLook(st: Farm, x: string, s: Socket)
    requires PoolsOk(st.darkSockets) && QueueOk(st.darkCatchall, "") && x in st.services
    ensures Look(st.RemoveService(x).0, s)
         == Look(st, s).Rule(s.ip in st.ips || s.route in st.services - {x}).Unmarked(s.route == x, Home(s) == "")
  {
    UnmarkLook(st.(services := st.services - {x}), RouteIs(x), RouteIs(x), s);
  }

  lemma ChangeLook(st: Farm, c: RuleChange, s: Socket)
    requires st.Ok()
    ensures Look(Changed(st, c), s) == if Accepted(st, c) then ChangedView(Look(st, s), c, s, DarkAfter(st, c, s)) else Look(st, s)
  {
    if Accepted(st, c) {
      match c
      case AddIp(ip) => AddIpLook(st, ip, s);
      case RemoveIp(ip) => RemoveIpLook(st, ip, s);
      case AddService(x) => AddServiceLook(st, x, s);
      case RemoveService(x) => RemoveServiceLook(st, x, s);
    }
  }

  /** Whether the event does something for the socket: the offer lands, the request gets it,
      the rule change is accepted. */
  predicate Took(st: Farm, e: Event, s: Socket)
  {
    match e
    case Add(a) => a == s
    case Land(o) => o.s == s && st.Land(o) != st
    case Remove(a) => a == s
    case Acquire(target, patience) => st.AcquireSocket(target, patience).1 == Some(s)
    case Stop => true
    case Change(c) => Accepted(st, c)
    case PutGray(_) => false
  }

  /** Which pool the request polls; whether the socket is dark under the changed rules. */
  predicate Side(st: Farm, e: Event, s: Socket)
  {
    match e
    case Acquire(target, _) => st.Choice(target).0
    case Change(c) => DarkAfter(st, c, s)
    case _ => false
  }

  /** What a landing offer and a request find. */
  predicate Possible(v: View, e: Event, side: bool)
  {
    && (e.Land? ==> if e.o.dark then v.toDark > 0 else v.toNormal > 0)
    && (e.Acquire? ==> if side then v.dark else v.normal)
  }

  function NextView(v: View, e: Event, s: Socket, side: bool): View
    requires Possible(v, e, side)
  {
    match e
    case Add(_) => v.Offered(v.isDark)
    case Land(o) => v.Landed(o.dark)
    case Remove(_) => if s.route == "*" then v else v.Gone(v.isDark)
    case Acquire(_, _) => v.Gone(side).(handed := v.handed + 1)
    case Stop => v.Gone(false)
    case Change(c) => ChangedView(v, c, s, side)
    case PutGray(_) => v
  }

  /** The farm's step and the view's step agree. */
  ghost predicate Follows(st: Farm, e: Event, s: Socket)
  {
    && (Took(st, e, s) ==> Possible(Look(st, s), e, Side(st, e, s)))
    && Look(Step(st, e), s) == if Took(st, e, s) then NextView(Look(st, s), e, s, Side(st, e, s)) else Look(st, s)
  }

  /** Every operation of the farm does to a socket exactly what its view says. */
  lemma StepLook(st: Farm, e: Event, s: Socket)
    requires st.Ok()
    ensures Follows(st, e, s)
  {
    match e
    case Add(a) => AddLook(st, a, s);
    case Land(o) => LandFollows(st, o, s);
    case Remove(a) => RemoveLook(st, a, s);
    case Acquire(target, patience) => AcquireFollows(st, target, patience, s);
    case Stop => StopLook(st, s);
    case Change(c) => ChangeLook(st, c, s);
    case PutGray(on) =>
  }

  lemma LandFollows(st: Farm, o: Offer, s: Socket)
    ensures Follows(st, Land(o), s)
  {
    if st.Land(o) != st { LandLook(st, o, s); }
  }

  lemma AcquireFollows(st: Farm, target: string, patience: nat, s: Socket)
    requires st.Ok()
    ensures Follows(st, Acquire(target, patience), s)
  {
    AcquireLook(st, target, patience, s);
  }

  // ---------- at most one place ----------

  /** A dark-launch callback conserves the places of every socket; only `Add` creates one. */
  lemma NextPlaces(v: View, e: Event, s: Socket, side: bool)
    requires Possible(v, e, side)
    ensures var n := NextView(v, e, s, side).Places();
            && n <= v.Places() + Tally(e.Add?)
            && (e.Change? || e.Acquire? || e.Add? ==> n == v.Places() + Tally(e.Add?))
  {
    if e.Change? { ChangedPlaces(v, e.c, s, side); }
  }

  lemma ChangedPlaces(v: View, c: RuleChange, s: Socket, darkAfter: bool)
    ensures ChangedView(v, c, s, darkAfter).Places() == v.Places()
  {
  }

  function Places(st: Farm, s: Socket): nat { Look(st, s).Places() }

  lemma StepPlaces(st: Farm, e: Event, s: Socket)
    requires st.Ok()
    ensures Places(Step(st, e), s) <= Places(st, s) + Tally(e == Add(s))
  {
    StepLook(st, e, s);
    if Took(st, e, s) { NextPlaces(Look(st, s), e, s, Side(st, e, s)); }
  }

  /** Rule changes move sockets and requests take them; neither loses nor doubles one. */
  lemma StepConserves(st: Farm, e: Event, s: Socket)
    requires st.Ok() && (e.Change? || e.Acquire?)
    ensures Places(Step(st, e), s) == Places(st, s)
  {
    StepLook(st, e, s);
    if Took(st, e, s) { NextPlaces(Look(st, s), e, s, Side(st, e, s)); }
  }

  lemma ChangeOk(st: Farm, c: RuleChange)
    requires st.Ok()
    ensures Changed(st, c).Ok()
  {
    if Accepted(st, c) {
      match c
      case AddIp(ip) => MarkOk(st.(ips := st.ips + {ip}), IpIs(ip), IpIs(ip));
      case RemoveIp(ip) => UnmarkOk(st.(ips := st.ips - {ip}), IpIs(ip), IpIs(ip));
      case AddService(x) => MarkOk(st.(services := st.services + {x}), IpIs(x), RouteIs(x));
      case RemoveService(x) => UnmarkOk(st.(services := st.services - {x}), RouteIs(x), RouteIs(x));
    }
  }

  lemma StepOk(st: Farm, e: Event)
    requires st.Ok()
    requires e.Land? && e.o in st.pending ==> !st.Alive(e.o.dark, e.o.s)
    ensures Step(st, e).Ok()
  {
    match e
    case Add(a) => AddOk(st, a);
    case Land(o) => if o in st.pending { LandOk(st, o); }
    case Remove(a) => RemoveOk(st, a);
    case Acquire(target, patience) => AcquireOk(st, target, patience);
    case Stop => StopOk(st);
    case Change(c) => ChangeOk(st, c);
    case PutGray(on) =>
  }

  /** The farm is consistent and no socket is in two places; unseen sockets are nowhere. */
  ghost predicate Inv(st: Farm, seen: set<Socket>)
  {
    st.Ok() && forall s :: Places(st, s) <= Tally(s in seen)
  }

  function Seen(e: Event, seen: set<Socket>): set<Socket> { if e.Add? then seen + {e.s} else seen }

  /** Each registered connection is a new socket. */
  predicate FreshAdds(es: seq<Event>, seen: set<Socket>)
    decreases |es|
  {
    es == [] ||
    ((es[0].Add? ==> es[0].s !in seen) && FreshAdds(es[1..], Seen(es[0], seen)))
  }

  lemma StepInv(st: Farm, e: Event, seen: set<Socket>)
    requires Inv(st, seen) && (e.Add? ==> e.s !in seen)
    ensures Inv(Step(st, e), Seen(e, seen))
  {
    if e.Land? && e.o in st.pending { OnePlaceOnly(st, e.o, seen); }
    StepOk(st, e);
    forall s ensures Places(Step(st, e), s) <= Tally(s in Seen(e, seen)) { StepPlaces(st, e, s); }
  }

  lemma OnePlaceOnly(st: Farm, o: Offer, seen: set<Socket>)
    requires Inv(st, seen) && o in st.pending
    ensures !st.Alive(o.dark, o.s)
  {
    assert Places(st, o.s) <= 1;
    assert st.pending[o] >= 1;
  }

  lemma {:induction false} RunInv(st: Farm, es: seq<Event>, seen: set<Socket>) returns (all: set<Socket>)
    requires Inv(st, seen) && FreshAdds(es, seen)
    ensures Inv(Run(st, es), all)
    decreases |es|
  {
    if es == [] {
      all := seen;
    } else {
      StepInv(st, es[0], seen);
      all := RunInv(Step(st, es[0]), es[1..], Seen(es[0], seen));
    }
  }

  lemma InitInv()
    ensures Inv(Init(), {})
  {
    InitOk();
  }

  /** Every run of registrations, requests, removals, stops, dark-launch changes and offers
      landing at any later time: a socket is in at most one place. */
  lemma OnePlaceInEveryRun(es: seq<Event>, s: Socket)
    requires FreshAdds(es, {})
    ensures Places(Run(Init(), es), s) <= 1
  {
    InitInv();
    var all := RunInv(Init(), es, {});
    assert Places(Run(Init(), es), s) <= Tally(s in all);
  }

  /** So at most one request ever gets it. */
  lemma HandedOnceInEveryRun(es: seq<Event>, s: Socket)
    requires FreshAdds(es, {})
    ensures Run(Init(), es).handed[s] <= 1
  {
    OnePlaceInEveryRun(es, s);
  }

  /** Every queue is valid and holds sockets of its own route only; pending offers have
      their queue. */
  lemma FarmOkInEveryRun(es: seq<Event>)
    requires FreshAdds(es, {})
    ensures Run(Init(), es).Ok()
  {
    InitInv();
    var all := RunInv(Init(), es, {});
  }

  lemma GrayImpliesDarkMode(es: seq<Event>)
    requires FreshAdds(es, {})
    ensures Run(Init(), es).gray ==> Run(Init(), es).IsDarkModeOn()
  {
    FarmOkInEveryRun(es);
  }

  // ---------- routing ----------

  /** The queue for a route: its own in the dark pools under gray testing and in the normal
      ones otherwise, the catchall one if there is none. */
  function QueueFor(st: Farm, route: string): Queue<Socket>
  {
    var pools := if st.gray then st.darkSockets else st.sockets;
    if route in pools then pools[route] else if st.gray then st.darkCatchall else st.catchall
  }

  /** A request for "/route" or "/route/..." is handed the first alive socket of the queue for
      that route, one of that route or a catchall one, if there is any and the deadline is not
      passed among the dead copies in front. */
  lemma RoutingFidelity(st: Farm, target: string, route: string, patience: nat)
    requires st.Ok() && Addresses(target, route)
    ensures var (q, r) := (QueueFor(st, route), st.AcquireSocket(target, patience).1);
            && (r.Some? <==> q.alive != {} && DeadPrefix(q.ch, q.alive) <= patience)
            && (r.Some? ==> q.Contents() != [] && r.value == q.Contents()[0])
            && (r.Some? ==> if route in st.Group(st.gray) then r.value.route == route else Home(r.value) == "")
  {
    ResolvesRoute(target, route);
    Acquired(st, target, patience);
  }

  lemma Acquired(st: Farm, target: string, patience: nat)
    requires st.Ok()
    ensures var (q, r) := (QueueFor(st, ResolveRoute(target)), st.AcquireSocket(target, patience).1);
            && (r.Some? <==> q.alive != {} && DeadPrefix(q.ch, q.alive) <= patience)
            && (r.Some? ==> q.Contents() != [] && r.value == q.Contents()[0] && Home(r.value) == st.Choice(target).1)
            && st.Choice(target).0 == st.gray
  {
    ChoiceOk(st, target);
    var (dark, route) := st.Choice(target);
    assert st.Pool(dark, route) == QueueFor(st, ResolveRoute(target));
    PollTimeoutRefines(st.Pool(dark, route), patience);
    PollRefines(st.Pool(dark, route));
  }

  /** A target without a slash gets the first alive catchall socket. */
  lemma NoSlashGetsCatchall(st: Farm, target: string, patience: nat)
    requires st.Ok() && '/' !in target
    ensures var (q, r) := (if st.gray then st.darkCatchall else st.catchall, st.AcquireSocket(target, patience).1);
            && (r.Some? <==> q.alive != {} && DeadPrefix(q.ch, q.alive) <= patience)
            && (r.Some? ==> q.Contents() != [] && r.value == q.Contents()[0])
  {
    NoSlashNoRoute(target);
    Acquired(st, target, patience);
    assert "" !in st.Group(st.gray);
  }

  // ---------- placement ----------

  predicate PlacedAt(st: Farm, s: Socket) { Look(st, s).Placed() }

  ghost predicate Placed(st: Farm) { forall s :: PlacedAt(st, s) }

  ghost predicate CatchallPlaced(st: Farm) { forall s: Socket :: Home(s) == "" ==> PlacedAt(st, s) }

  /** When an accepted rule change leaves a placed socket, with nothing pending, misplaced.
      The per-route loops of the callbacks are the cause: a revoked socket goes back to its
      dark pool, and a dark service is compared with the socket's ip. */
  predicate Misplaces(v: View, c: RuleChange, s: Socket, darkAfter: bool)
  {
    Home(s) != "" &&
    match c
    case AddIp(_) => false
    case RemoveIp(ip) => v.dark && s.ip == ip && !darkAfter
    case RemoveService(x) => v.dark && s.route == x && !darkAfter
    case AddService(x) => v.normal && (s.ip == x) != (s.route == x)
  }

  lemma NextPlaced(v: View, e: Event, s: Socket, side: bool)
    requires Possible(v, e, side) && !e.Change? && v.Placed()
    ensures NextView(v, e, s, side).Placed()
  {
  }

  /** How an accepted change affects which pool the rules ask for. */
  lemma ChangePlacedIff(st: Farm, c: RuleChange, s: Socket)
    requires st.Ok() && Accepted(st, c) && PlacedAt(st, s) && st.pending == multiset{}
    ensures PlacedAt(Changed(st, c), s) <==> !Misplaces(Look(st, s), c, s, DarkAfter(st, c, s))
  {
    ChangeLook(st, c, s);
    var v, side := Look(st, s), DarkAfter(st, c, s);
    RuleEffect(st, c, s);
    assert v.toNormal == 0 && v.toDark == 0;
  }

  lemma RuleEffect(st: Farm, c: RuleChange, s: Socket)
    requires st.Ok() && Accepted(st, c)
    ensures match c
            case AddIp(ip) => DarkAfter(st, c, s) == (st.IsDark(s) || s.ip == ip)
            case AddService(x) => DarkAfter(st, c, s) == (st.IsDark(s) || s.route == x) && (Home(s) == "" ==> s.route != x)
            case RemoveIp(ip) => (DarkAfter(st, c, s) ==> st.IsDark(s)) && (st.IsDark(s) && s.ip != ip ==> DarkAfter(st, c, s))
                                 && (Home(s) == "" && s.ip == ip ==> !DarkAfter(st, c, s))
            case RemoveService(x) => (DarkAfter(st, c, s) ==> st.IsDark(s)) && (st.IsDark(s) && s.route != x ==> DarkAfter(st, c, s))
                                     && (Home(s) == "" ==> s.route != x)
  {
  }

  /** The rules change only when every offer has landed. */
  predicate QuietRun(st: Farm, es: seq<Event>)
    decreases |es|
  {
    es == [] || ((es[0].Change? ==> st.pending == multiset{}) && QuietRun(Step(st, es[0]), es[1..]))
  }

  /** One step misplaces a socket exactly when it is an accepted change that does. */
  predicate Harms(st: Farm, e: Event, s: Socket)
  {
    e.Change? && Accepted(st, e.c) && Misplaces(Look(st, s), e.c, s, DarkAfter(st, e.c, s))
  }

  lemma StepPlacedIff(st: Farm, e: Event, s: Socket)
    requires st.Ok() && PlacedAt(st, s) && (e.Change? ==> st.pending == multiset{})
    ensures PlacedAt(Step(st, e), s) <==> !Harms(st, e, s)
  {
    if e.Change? && Accepted(st, e.c) {
      ChangePlacedIff(st, e.c, s);
    } else if e.Change? {
      RefusedChange(st, e.c);
    } else {
      StepStaysPlaced(st, e, s);
    }
  }

  lemma RefusedChange(st: Farm, c: RuleChange)
    requires !Accepted(st, c)
    ensures Changed(st, c) == st
  {
  }

  lemma StepStaysPlaced(st: Farm, e: Event, s: Socket)
    requires st.Ok() && PlacedAt(st, s) && !e.Change?
    ensures PlacedAt(Step(st, e), s)
  {
    StepLook(st, e, s);
    if Took(st, e, s) { NextPlaced(Look(st, s), e, s, Side(st, e, s)); }
  }

  /** Over every run in which the rules change only between landed offers, the alive
      catchall sockets are not dark and the alive dark-catchall sockets are. */
  lemma {:induction false} CatchallStaysPlaced(st: Farm, es: seq<Event>, seen: set<Socket>)
    requires Inv(st, seen) && FreshAdds(es, seen) && QuietRun(st, es) && CatchallPlaced(st)
    ensures CatchallPlaced(Run(st, es))
    decreases |es|
  {
    if es == [] {
    } else {
      forall s: Socket | Home(s) == "" ensures PlacedAt(Step(st, es[0]), s) { StepPlacedIff(st, es[0], s); }
      StepInv(st, es[0], seen);
      CatchallStaysPlaced(Step(st, es[0]), es[1..], Seen(es[0], seen));
    }
  }

  lemma CatchallPlacedInEveryRun(es: seq<Event>)
    requires FreshAdds(es, {}) && QuietRun(Init(), es)
    ensures CatchallPlaced(Run(Init(), es))
  {
    InitInv();
    CatchallStaysPlaced(Init(), es, {});
  }

  /** No step of the run misplaces a socket. */
  ghost predicate Careful(st: Farm, es: seq<Event>)
    decreases |es|
  {
    es == [] || ((forall s :: !Harms(st, es[0], s)) && Careful(Step(st, es[0]), es[1..]))
  }

  lemma {:induction false} CarefulRunPlaces(st: Farm, es: seq<Event>, seen: set<Socket>)
    requires Inv(st, seen) && FreshAdds(es, seen) && QuietRun(st, es) && Placed(st) && Careful(st, es)
    ensures Placed(Run(st, es))
    decreases |es|
  {
    if es == [] {
    } else {
      forall s ensures PlacedAt(Step(st, es[0]), s) { StepPlacedIff(st, es[0], s); }
      StepInv(st, es[0], seen);
      CarefulRunPlaces(Step(st, es[0]), es[1..], Seen(es[0], seen));
    }
  }

  predicate OnlyNewIps(es: seq<Event>) { forall i :: 0 <= i < |es| && es[i].Change? ==> es[i].c.AddIp? }

  lemma {:induction false} OnlyNewIpsIsCareful(st: Farm, es: seq<Event>)
    requires OnlyNewIps(es)
    ensures Careful(st, es)
    decreases |es|
  {
    if es == [] {
    } else {
      assert !es[0].Change? || es[0].c.AddIp?;
      OnlyNewIpsIsCareful(Step(st, es[0]), es[1..]);
    }
  }

  /** From the empty farm, with dark ips only ever added, every socket is where the rules
      want it, and `RemoveWebsocket` looks in the pool that holds the socket. */
  lemma NewIpsOnlyRun(es: seq<Event>, s: Socket)
    requires FreshAdds(es, {}) && QuietRun(Init(), es) && OnlyNewIps(es)
    ensures Placed(Run(Init(), es))
    ensures s.route != "*" ==> Gone(Run(Init(), es).RemoveWebsocket(s), s)
  {
    InitInv();
    OnlyNewIpsIsCareful(Init(), es);
    CarefulRunPlaces(Init(), es, {});
    FarmOkInEveryRun(es);
    assert PlacedAt(Run(Init(), es), s);
    RemoveFindsIff(Run(Init(), es), s);
  }

  /** Alive in no pool. */
  predicate Gone(st: Farm, s: Socket) { !st.Alive(false, s) && !st.Alive(true, s) }

  /** Removing a placed socket finds it, if it is in a pool, if and only if its route is not
      the literal "*". */
  lemma RemoveFindsIff(st: Farm, s: Socket)
    requires st.Ok() && PlacedAt(st, s)
    ensures Gone(st.RemoveWebsocket(s), s) <==> s.route != "*" || Gone(st, s)
  {
    RemoveLook(st, s, s);
    var v, v' := Look(st, s), Look(st.RemoveWebsocket(s), s);
    assert Gone(st, s) <==> !v.normal && !v.dark;
    assert Gone(st.RemoveWebsocket(s), s) <==> !v'.normal && !v'.dark;
  }

  // ---------- runs in which a socket is where it should not be ----------

  /** The states a run from the empty farm goes through, with the rules changed only when
      every offer has landed. */
  ghost predicate Trace(es: seq<Event>, sts: seq<Farm>)
  {
    && |sts| == |es| + 1 && sts[0] == Init()
    && (forall k :: 0 < k < |sts| ==> sts[k] == Step(sts[k - 1], es[k - 1]))
    && (forall k :: 0 <= k < |es| && es[k].Change? ==> sts[k].pending == multiset{})
  }

  lemma {:induction false} TraceIsRun(es: seq<Event>, sts: seq<Farm>, k: nat)
    requires Trace(es, sts) && k <= |es|
    ensures Run(sts[k], es[k..]) == sts[|es|] && QuietRun(sts[k], es[k..])
    decreases |es| - k
  {
    if k == |es| {
    } else {
      assert es[k..][1..] == es[k + 1..];
      assert sts[k + 1] == Step(sts[k], es[k]);
      TraceIsRun(es, sts, k + 1);
    }
  }

  lemma WholeRun(es: seq<Event>, sts: seq<Farm>, st: Farm)
    requires Trace(es, sts + [st])
    ensures QuietRun(Init(), es) && Run(Init(), es) == st
  {
    TraceIsRun(es, sts + [st], 0);
    assert es[0..] == es && (sts + [st])[|es|] == st;
  }

  lemma Extended(es: seq<Event>, sts: seq<Farm>, st: Farm, e: Event)
    requires Trace(es, sts + [st]) && (e.Change? ==> st.pending == multiset{})
    ensures Trace(es + [e], sts + [st] + [Step(st, e)])
  {
    var was, all, evs := sts + [st], sts + [st] + [Step(st, e)], es + [e];
    forall k | 0 < k < |all| ensures all[k] == Step(all[k - 1], evs[k - 1]) {
      if k < |was| { assert all[k] == was[k] && all[k - 1] == was[k - 1] && evs[k - 1] == es[k - 1]; }
    }
    forall k | 0 <= k < |evs| && evs[k].Change? ensures all[k].pending == multiset{} {
      if k < |es| { assert evs[k] == es[k] && all[k] == was[k]; }
    }
  }

  lemma {:induction false} DistinctAddsAreFresh(es: seq<Event>, seen: set<Socket>)
    requires forall i :: 0 <= i < |es| && es[i].Add? ==> es[i].s !in seen
    requires forall i, j :: 0 <= i < j < |es| && es[i].Add? && es[j].Add? ==> es[i].s != es[j].s
    ensures FreshAdds(es, seen)
    decreases |es|
  {
    if es == [] {
    } else {
      DistinctAddsAreFresh(es[1..], Seen(es[0], seen));
    }
  }

  predicate RoomFor(st: Farm, o: Offer) { st.HasPool(o.dark, Home(o.s)) && st.Pool(o.dark, Home(o.s)).HasRoom() }

  /** A pending offer lands where there is room. */
  lemma Lands(st: Farm, o: Offer)
    requires o in st.pending && RoomFor(st, o)
    ensures Look(st.Land(o), o.s) == Look(st, o.s).Landed(o.dark)
    ensures st.Land(o).pending == st.pending - multiset{o}
    ensures (st.Land(o).ips, st.Land(o).services) == (st.ips, st.services)
    ensures st.Land(o).HasPool(o.dark, Home(o.s)) && st.Land(o).Pool(o.dark, Home(o.s)) == st.Pool(o.dark, Home(o.s)).Offered(o.s)
  {
    assert o !in st.Land(o).pending || st.pending[o] > st.Land(o).pending[o];
    LandLook(st, o, o.s);
  }

  /** The first socket of a pool registers and its offer lands. */
  lemma Registers(st: Farm, s: Socket)
    requires st.pending == multiset{}
    requires !st.HasPool(st.IsDark(s), Home(s)) || st.Pool(st.IsDark(s), Home(s)) == EmptyQueue(0)
    ensures var o := Offer(st.IsDark(s), s);
            var st' := st.AddWebsocket(s).Land(o);
            && Look(st', s) == Look(st, s).Offered(o.dark).Landed(o.dark)
            && st'.pending == st.pending && (st'.ips, st'.services) == (st.ips, st.services)
            && st'.HasPool(o.dark, Home(s)) && |st'.Pool(o.dark, Home(s)).ch| == 1 && st'.Pool(o.dark, Home(s)).capacity == DEFAULT_CAPACITY
  {
    var o, st1 := Offer(st.IsDark(s), s), st.AddWebsocket(s);
    AddLook(st, s, s);
    assert st1.HasPool(o.dark, Home(s)) && st1.Pool(o.dark, Home(s)) == EmptyQueue(0);
    Lands(st1, o);
    assert st1.pending - multiset{o} == st.pending;
  }

  lemma RegisteredOk(st: Farm, s: Socket)
    requires st.Ok() && !st.Alive(st.IsDark(s), s)
    ensures st.AddWebsocket(s).Land(Offer(st.IsDark(s), s)).Ok()
  {
    AddOk(st, s);
    AddLook(st, s, s);
    LandOk(st.AddWebsocket(s), Offer(st.IsDark(s), s));
  }

  /** A service is marked dark before any socket registers. */
  lemma MarkedBefore(x: string)
    requires IsValidService(x)
    ensures var st := Init().AddService(x).0;
            && st.services == {x} && st.ips == {} && st.pending == multiset{} && st.handed == multiset{}
            && st.sockets == map[] && st.darkSockets == map[]
  {
    var st := Init().(services := {x});
    assert st.Picked(false, {}, IpIs(x)) == {};
    assert Hit({}, RouteIs(x)) == {} && Routes({}) == {} && Fresh({}) == map[];
    assert PurgedPools(map[], {}, IpIs(x)) == map[];
    assert Offers(true, {}) == multiset{};
    assert Init().services + {x} == {x};
  }

  lemma ServiceMarked(x: string) returns (st: Farm)
    requires IsValidService(x)
    ensures st == Changed(Init(), AddService(x))
    ensures st.Ok() && st.pending == multiset{} && st.handed == multiset{} && st.services == {x} && st.ips == {}
    ensures st.sockets == map[] && st.darkSockets == map[]
  {
    InitOk();
    ChangeOk(Init(), AddService(x));
    MarkedBefore(x);
    st := Changed(Init(), AddService(x));
  }

  /** The first socket of a pool registers and its offer lands. */
  lemma FirstRegistered(st: Farm, s: Socket) returns (offered: Farm, landed: Farm)
    requires st.Ok() && st.pending == multiset{} && Look(st, s) == View(false, false, 0, 0, 0, st.IsDark(s))
    requires !st.HasPool(st.IsDark(s), Home(s)) || st.Pool(st.IsDark(s), Home(s)) == EmptyQueue(0)
    ensures offered == st.AddWebsocket(s) && landed == offered.Land(Offer(st.IsDark(s), s))
    ensures landed.Ok() && landed.pending == multiset{} && (landed.ips, landed.services) == (st.ips, st.services)
    ensures Look(landed, s) == View(!st.IsDark(s), st.IsDark(s), 0, 0, 0, st.IsDark(s))
    ensures landed.HasPool(st.IsDark(s), Home(s))
    ensures |landed.Pool(st.IsDark(s), Home(s)).ch| == 1 && landed.Pool(st.IsDark(s), Home(s)).capacity == DEFAULT_CAPACITY
  {
    var o := Offer(st.IsDark(s), s);
    assert !st.Alive(o.dark, s) by { assert !Look(st, s).normal && !Look(st, s).dark; }
    Registers(st, s);
    RegisteredOk(st, s);
    offered := st.AddWebsocket(s);
    landed := offered.Land(o);
  }

  lemma ServiceRevoked(st: Farm, s: Socket) returns (revoked: Farm)
    requires st.Ok() && st.services == {s.route} && st.ips == {} && Home(s) == s.route != ""
    requires Look(st, s) == View(false, true, 0, 0, 0, true)
    requires s.route in st.darkSockets && |st.darkSockets[s.route].ch| == 1 && st.darkSockets[s.route].capacity == DEFAULT_CAPACITY
    ensures revoked == Changed(st, RemoveService(s.route))
    ensures revoked.Ok() && Look(revoked, s) == View(false, false, 0, 1, 0, false) && RoomFor(revoked, Offer(true, s))
  {
    ChangeOk(st, RemoveService(s.route));
    RevokedLook(st, s);
    RevokedRoom(st, s);
    revoked := Changed(st, RemoveService(s.route));
  }

  lemma RevokedLook(st: Farm, s: Socket)
    requires st.Ok() && st.services == {s.route} && st.ips == {} && Home(s) == s.route
    requires Look(st, s) == View(false, true, 0, 0, 0, true)
    ensures Look(Changed(st, RemoveService(s.route)), s) == View(false, false, 0, 1, 0, false)
  {
    ChangeLook(st, RemoveService(s.route), s);
  }

  lemma RevokedRoom(st: Farm, s: Socket)
    requires st.Ok() && s.route in st.services && Home(s) == s.route
    requires s.route in st.darkSockets && st.darkSockets[s.route].HasRoom()
    ensures RoomFor(Changed(st, RemoveService(s.route)), Offer(true, s))
  {
  }

  lemma OfferLanded(st: Farm, s: Socket) returns (landed: Farm)
    requires st.Ok() && Look(st, s) == View(false, false, 0, 1, 0, false) && RoomFor(st, Offer(true, s))
    ensures landed == st.Land(Offer(true, s)) && landed.Ok() && Look(landed, s) == View(false, true, 0, 0, 0, false)
  {
    var o := Offer(true, s);
    Lands(st, o);
    assert !st.Alive(true, s) by { assert !Look(st, s).dark; }
    LandOk(st, o);
    landed := st.Land(o);
  }

  // The same steps at the end of a trace.

  lemma ChangeIsStep(st: Farm, c: RuleChange)
    ensures Step(st, Change(c)) == Changed(st, c)
  {
  }

  lemma TraceChanged(es: seq<Event>, sts: seq<Farm>, st: Farm, c: RuleChange, st': Farm)
    requires Trace(es, sts + [st]) && st.pending == multiset{} && st' == Changed(st, c)
    ensures Trace(es + [Change(c)], sts + [st] + [st'])
  {
    ChangeIsStep(st, c);
    Extended(es, sts, st, Change(c));
  }

  lemma TraceMarked(x: string) returns (st: Farm)
    requires IsValidService(x)
    ensures Trace([Change(AddService(x))], [Init()] + [st])
    ensures st.Ok() && st.pending == multiset{} && st.handed == multiset{} && st.services == {x} && st.ips == {}
    ensures st.sockets == map[] && st.darkSockets == map[]
  {
    st := ServiceMarked(x);
    Extended([], [], Init(), Change(AddService(x)));
    assert [] + [Init()] == [Init()] && [] + [Change(AddService(x))] == [Change(AddService(x))];
  }

  lemma TraceRegistered(es: seq<Event>, sts: seq<Farm>, st: Farm, s: Socket) returns (offered: Farm, landed: Farm)
    requires Trace(es, sts + [st])
    requires st.Ok() && st.pending == multiset{} && Look(st, s) == View(false, false, 0, 0, 0, st.IsDark(s))
    requires !st.HasPool(st.IsDark(s), Home(s)) || st.Pool(st.IsDark(s), Home(s)) == EmptyQueue(0)
    ensures Trace(es + [Add(s)] + [Land(Offer(st.IsDark(s), s))], sts + [st] + [offered] + [landed])
    ensures landed.Ok() && landed.pending == multiset{} && (landed.ips, landed.services) == (st.ips, st.services)
    ensures Look(landed, s) == View(!st.IsDark(s), st.IsDark(s), 0, 0, 0, st.IsDark(s))
    ensures landed.HasPool(st.IsDark(s), Home(s))
    ensures |landed.Pool(st.IsDark(s), Home(s)).ch| == 1 && landed.Pool(st.IsDark(s), Home(s)).capacity == DEFAULT_CAPACITY
  {
    offered, landed := FirstRegistered(st, s);
    Extended(es, sts, st, Add(s));
    Extended(es + [Add(s)], sts + [st], offered, Land(Offer(st.IsDark(s), s)));
  }

  lemma TraceRevoked(es: seq<Event>, sts: seq<Farm>, st: Farm, s: Socket) returns (revoked: Farm)
    requires Trace(es, sts + [st]) && st.pending == multiset{}
    requires st.Ok() && st.services == {s.route} && st.ips == {} && Home(s) == s.route != ""
    requires Look(st, s) == View(false, true, 0, 0, 0, true)
    requires s.route in st.darkSockets && |st.darkSockets[s.route].ch| == 1 && st.darkSockets[s.route].capacity == DEFAULT_CAPACITY
    ensures Trace(es + [Change(RemoveService(s.route))], sts + [st] + [revoked])
    ensures revoked.Ok() && Look(revoked, s) == View(false, false, 0, 1, 0, false) && RoomFor(revoked, Offer(true, s))
  {
    revoked := ServiceRevoked(st, s);
    TraceChanged(es, sts, st, RemoveService(s.route), revoked);
  }

  lemma TraceLanded(es: seq<Event>, sts: seq<Farm>, st: Farm, s: Socket) returns (landed: Farm)
    requires Trace(es, sts + [st])
    requires st.Ok() && Look(st, s) == View(false, false, 0, 1, 0, false) && RoomFor(st, Offer(true, s))
    ensures Trace(es + [Land(Offer(true, s))], sts + [st] + [landed])
    ensures landed.Ok() && Look(landed, s) == View(false, true, 0, 0, 0, false)
  {
    landed := OfferLanded(st, s);
    Extended(es, sts, st, Land(Offer(true, s)));
  }

  lemma TraceRemoved(es: seq<Event>, sts: seq<Farm>, st: Farm, s: Socket) returns (end: Farm)
    requires Trace(es, sts + [st]) && st.Ok() && Look(st, s) == View(false, true, 0, 0, 0, false)
    ensures Trace(es + [Remove(s)], sts + [st] + [end]) && Look(end, s) == View(false, true, 0, 0, 0, false)
  {
    RemoveLook(st, s, s);
    end := st.RemoveWebsocket(s);
    Extended(es, sts, st, Remove(s));
  }

  lemma DarkTrace(s: Socket) returns (es: seq<Event>, sts: seq<Farm>, end: Farm)
    requires IsValidService(s.route)
    ensures Trace(es, sts + [end]) && es == [Change(AddService(s.route)), Add(s), Land(Offer(true, s))]
    ensures end.Ok() && end.pending == multiset{} && end.services == {s.route} && end.ips == {}
    ensures Look(end, s) == View(false, true, 0, 0, 0, true)
    ensures s.route in end.darkSockets && |end.darkSockets[s.route].ch| == 1 && end.darkSockets[s.route].capacity == DEFAULT_CAPACITY
  {
    var st1 := TraceMarked(s.route);
    es, sts := [Change(AddService(s.route))], [Init()];
    var st2;
    st2, end := TraceRegistered(es, sts, st1, s);
    es, sts := es + [Add(s)] + [Land(Offer(true, s))], sts + [st1] + [st2];
  }

  lemma RevokedTrace(s: Socket) returns (es: seq<Event>, sts: seq<Farm>, end: Farm)
    requires IsValidService(s.route)
    ensures Trace(es, sts + [end])
    ensures es == [Change(AddService(s.route)), Add(s), Land(Offer(true, s)), Change(RemoveService(s.route))]
    ensures end.Ok() && Look(end, s) == View(false, false, 0, 1, 0, false) && RoomFor(end, Offer(true, s))
  {
    var st3;
    es, sts, st3 := DarkTrace(s);
    end := TraceRevoked(es, sts, st3, s);
    es, sts := es + [Change(RemoveService(s.route))], sts + [st3];
  }

  lemma EscapedTrace(s: Socket) returns (es: seq<Event>, sts: seq<Farm>, end: Farm)
    requires IsValidService(s.route)
    ensures Trace(es, sts + [end]) && Look(end, s) == View(false, true, 0, 0, 0, false)
    ensures es == [Change(AddService(s.route)), Add(s), Land(Offer(true, s)),
                   Change(RemoveService(s.route)), Land(Offer(true, s)), Remove(s)]
  {
    var st4;
    es, sts, st4 := RevokedTrace(s);
    var st5 := TraceLanded(es, sts, st4, s);
    es, sts := es + [Land(Offer(true, s))], sts + [st4];
    end := TraceRemoved(es, sts, st5, s);
    es, sts := es + [Remove(s)], sts + [st5];
  }

  /** A dark service is marked and revoked: its socket, registered in between, goes back to
      the dark pool and survives its own removal. */
  lemma RevokedSocketEscapesRemoval(s: Socket) returns (end: Farm)
    requires IsValidService(s.route)
    ensures var dark := Offer(true, s);
            var es := [Change(AddService(s.route)), Add(s), Land(dark), Change(RemoveService(s.route)), Land(dark), Remove(s)];
            FreshAdds(es, {}) && QuietRun(Init(), es) && end == Run(Init(), es)
    ensures end.Alive(true, s) && !end.IsDark(s)
  {
    var es, sts;
    es, sts, end := EscapedTrace(s);
    WholeRun(es, sts, end);
    DistinctAddsAreFresh(es, {});
    assert Look(end, s).dark && !Look(end, s).isDark;
  }

  lemma AddedTrace(s: Socket) returns (es: seq<Event>, sts: seq<Farm>, end: Farm)
    requires IsValidService(s.route) && s.ip != s.route
    ensures Trace(es, sts + [end]) && Look(end, s) == View(true, false, 0, 0, 0, true)
    ensures es == [Add(s), Land(Offer(false, s)), Change(AddService(s.route))]
  {
    InitOk();
    InitTrace();
    var st1, st2 := TraceRegistered([], [], Init(), s);
    es, sts := [] + [Add(s)] + [Land(Offer(false, s))], [] + [Init()] + [st1];
    end := TraceAdded(es, sts, st2, s);
    es, sts := es + [Change(AddService(s.route))], sts + [st2];
  }

  /** A socket whose route becomes a dark service stays in the normal pool. */
  lemma AddedServiceLeavesSocket(s: Socket) returns (end: Farm)
    requires IsValidService(s.route) && s.ip != s.route
    ensures var es := [Add(s), Land(Offer(false, s)), Change(AddService(s.route))];
            FreshAdds(es, {}) && QuietRun(Init(), es) && end == Run(Init(), es)
    ensures end.Alive(false, s) && end.IsDark(s)
  {
    var es, sts;
    es, sts, end := AddedTrace(s);
    WholeRun(es, sts, end);
    DistinctAddsAreFresh(es, {});
    assert Look(end, s).normal && Look(end, s).isDark;
  }

  lemma InitTrace()
    ensures Trace([], [] + [Init()])
  {
  }

  lemma ServiceAdded(st: Farm, s: Socket) returns (end: Farm)
    requires st.Ok() && IsValidService(s.route) && s.ip != s.route && Look(st, s) == View(true, false, 0, 0, 0, false)
    ensures end == Changed(st, AddService(s.route)) && Look(end, s) == View(true, false, 0, 0, 0, true)
  {
    end := Changed(st, AddService(s.route));
    ChangeLook(st, AddService(s.route), s);
  }

  lemma TraceAdded(es: seq<Event>, sts: seq<Farm>, st: Farm, s: Socket) returns (end: Farm)
    requires Trace(es, sts + [st]) && st.Ok() && st.pending == multiset{}
    requires IsValidService(s.route) && s.ip != s.route && Look(st, s) == View(true, false, 0, 0, 0, false)
    ensures Trace(es + [Change(AddService(s.route))], sts + [st] + [end])
    ensures Look(end, s) == View(true, false, 0, 0, 0, true)
  {
    end := ServiceAdded(st, s);
    TraceChanged(es, sts, st, AddService(s.route), end);
  }

  lemma StarTrace(s: Socket) returns (es: seq<Event>, sts: seq<Farm>, st: Farm, end: Farm)
    requires s.route == "*"
    ensures Trace(es, sts + [st]) && es == [Add(s), Land(Offer(false, s))]
    ensures end == Step(st, Remove(s)) && Look(end, s) == View(true, false, 0, 0, 0, false)
  {
    InitOk();
    InitTrace();
    var st1;
    st1, st := TraceRegistered([], [], Init(), s);
    es, sts := [] + [Add(s)] + [Land(Offer(false, s))], [] + [Init()] + [st1];
    RemoveLook(st, s, s);
    end := st.RemoveWebsocket(s);
  }

  /** A socket registered under the literal route "*" is not found by its removal. */
  lemma StarSocketEscapesRemoval(s: Socket) returns (end: Farm)
    requires s.route == "*"
    ensures var es := [Add(s), Land(Offer(false, s)), Remove(s)];
            FreshAdds(es, {}) && QuietRun(Init(), es) && end == Run(Init(), es)
    ensures end.Alive(false, s)
  {
    var es, sts, st;
    es, sts, st, end := StarTrace(s);
    Extended(es, sts, st, Remove(s));
    WholeRun(es + [Remove(s)], sts + [st], end);
    DistinctAddsAreFresh(es + [Remove(s)], {});
    assert es + [Remove(s)] == [Add(s), Land(Offer(false, s)), Remove(s)];
    assert Look(end, s).normal;
  }

  // ---------- the remote address ----------

  ghost predicate PlainIps(st: Farm) { forall ip :: ip in st.ips ==> ':' !in ip }

  lemma StepIps(st: Farm, e: Event, ip: string)
    requires ip in Step(st, e).ips
    ensures ip in st.ips || IsValidIp(ip)
  {
    match e
    case Add(_) =>
    case Land(_) =>
    case Remove(_) =>
    case Acquire(_, _) =>
    case Stop =>
    case Change(c) => ChangedIps(st, c, ip);
    case PutGray(_) =>
  }

  lemma ChangedIps(st: Farm, c: RuleChange, ip: string)
    requires ip in Changed(st, c).ips
    ensures ip in st.ips || IsValidIp(ip)
  {
    match c
    case AddIp(_) =>
    case RemoveIp(_) =>
    case AddService(_) =>
    case RemoveService(_) =>
  }

  lemma {:induction false} IpsStayPlain(st: Farm, es: seq<Event>)
    requires PlainIps(st)
    ensures PlainIps(Run(st, es))
    decreases |es|
  {
    if es == [] {
    } else {
      forall ip | ip in Step(st, es[0]).ips ensures ':' !in ip {
        StepIps(st, es[0], ip);
        if IsValidIp(ip) { ValidIpHasNoPort(ip); }
      }
      IpsStayPlain(Step(st, es[0]), es[1..]);
    }
  }

  /** The remote address a socket registers with has a port, so in no run is its ip a dark
      one: through the router's own registration a socket is dark by its route only. */
  lemma RemoteAddressIsNeverDark(es: seq<Event>, s: Socket)
    requires ':' in s.ip
    ensures var st := Run(Init(), es); s.ip !in st.ips && (st.IsDark(s) <==> s.route in st.services)
  {
    IpsStayPlain(Init(), es);
  }
}
