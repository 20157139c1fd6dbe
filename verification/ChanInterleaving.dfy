/** One `IterableChan` under any number of goroutines, with every atomic access of
    router/router_socket/iterable_chan.go a step of its own:
    Offer is push / Store / increment, a poll is receive / LoadAndDelete / decrement,
    Remove is LoadAndDelete / decrement. */
module ChanInterleaving {
  import opened Counting

  /** The next atomic access of a goroutine. `timed` marks PollTimeout. */
  datatype Pc<T> =
    | Idle
    | Push(s: T) | Store(s: T) | Inc(s: T)
    | Recv(timed: bool) | Take(s: T, timed: bool) | PollDec(s: T)
    | RemoveTake(s: T) | RemoveDec(s: T)

  datatype Sys<T(==)> = Sys(
    ch: seq<T>, alive: set<T>, length: int, capacity: nat,
    threads: map<nat, Pc<T>>,
    stores: multiset<T>,   // every Store so far
    polled: multiset<T>,   // every socket a poll has claimed
    removed: multiset<T>)  // every socket a Remove has claimed
  {
    function At(t: nat): Pc<T> { if t in threads then threads[t] else Idle }

    function Go(t: nat, pc: Pc<T>): Sys<T> { this.(threads := threads[t := pc]) }
  }

  datatype Event<T> =
    | StartOffer(t: nat, s: T)
    | StartPoll(t: nat, timed: bool)
    | StartRemove(t: nat, s: T)
    | Advance(t: nat)
    | GiveUp(t: nat)  // the `default` of Poll, the timer of PollTimeout

  function Init<T>(capacity: nat): Sys<T>
  {
    Sys([], {}, 0, capacity, map[], multiset{}, multiset{}, multiset{})
  }

  function Step<T(==)>(st: Sys<T>, e: Event<T>): Sys<T>
  {
    match e
    case StartOffer(t, s) => st.Go(t, Push(s))
    case StartPoll(t, timed) => st.Go(t, Recv(timed))
    case StartRemove(t, s) => st.Go(t, RemoveTake(s))
    case GiveUp(t) =>
      if st.At(t).Recv? && (st.At(t).timed || st.ch == []) then st.Go(t, Idle) else st
    case Advance(t) => Advanced(st, t)
  }

  /** One atomic access of goroutine `t`; a push into a full channel or a receive from an
      empty one waits. */
  function Advanced<T(==)>(st: Sys<T>, t: nat): Sys<T>
  {
    match st.At(t)
    case Idle => st
    case Push(s) =>
      if |st.ch| < st.capacity then st.(ch := st.ch + [s]).Go(t, Store(s)) else st
    case Store(s) =>
      st.(alive := st.alive + {s}, stores := st.stores + multiset{s}).Go(t, Inc(s))
    case Inc(s) => st.(length := st.length + 1).Go(t, Idle)
    case Recv(timed) =>
      if st.ch != [] then st.(ch := st.ch[1..]).Go(t, Take(st.ch[0], timed)) else st
    case Take(s, timed) =>
      if s in st.alive then st.(alive := st.alive - {s}, polled := st.polled + multiset{s}).Go(t, PollDec(s))
      else st.Go(t, Recv(timed))
    case PollDec(s) => st.(length := st.length - 1).Go(t, Idle)
    case RemoveTake(s) =>
      if s in st.alive then st.(alive := st.alive - {s}, removed := st.removed + multiset{s}).Go(t, RemoveDec(s))
      else st.Go(t, Idle)
    case RemoveDec(s) => st.(length := st.length - 1).Go(t, Idle)
  }

  predicate Offering<T(==)>(pc: Pc<T>, s: T) { pc == Push(s) || pc == Store(s) }

  /** The socket's offer is under way and not yet stored. */
  ghost predicate InFlight<T>(st: Sys<T>, s: T)
  {
    exists t :: Offering(st.At(t), s)
  }

  /** A goroutine does one thing at a time, and a socket is not offered again while it is
      alive or its offer is in flight. */
  ghost predicate Enabled<T>(st: Sys<T>, e: Event<T>)
  {
    match e
    case StartOffer(t, s) => st.At(t).Idle? && s !in st.alive && !InFlight(st, s)
    case StartPoll(t, _) => st.At(t).Idle?
    case StartRemove(t, _) => st.At(t).Idle?
    case Advance(_) => true
    case GiveUp(_) => true
  }

  function Run<T(==)>(st: Sys<T>, es: seq<Event<T>>): Sys<T>
    decreases |es|
  {
    if es == [] then st else Run(Step(st, es[0]), es[1..])
  }

  ghost predicate ValidRun<T>(st: Sys<T>, es: seq<Event<T>>)
    decreases |es|
  {
    es == [] || (Enabled(st, es[0]) && ValidRun(Step(st, es[0]), es[1..]))
  }

  // ---------- the invariant ----------

  function Incs<T>(threads: map<nat, Pc<T>>): set<nat> { set t | t in threads && threads[t].Inc? }

  function Decs<T>(threads: map<nat, Pc<T>>): set<nat>
  {
    set t | t in threads && (threads[t].PollDec? || threads[t].RemoveDec?)
  }

  /** `length` lags behind the alive set by the stores not yet counted and the deletions
      not yet counted. */
  predicate Counted<T(==)>(st: Sys<T>)
  {
    st.length == |st.alive| - |Incs(st.threads)| + |Decs(st.threads)|
  }

  /** Every store is either still alive or claimed by exactly one poll or removal. */
  ghost predicate Claimed<T(!new)>(st: Sys<T>) { forall s :: ClaimedOnce(st, s) }

  predicate ClaimedOnce<T(==)>(st: Sys<T>, s: T)
  {
    st.stores[s] == st.polled[s] + st.removed[s] + if s in st.alive then 1 else 0
  }

  ghost predicate Separate<T(!new)>(st: Sys<T>)
  {
    && (forall t, u, s :: Offering(st.At(t), s) && Offering(st.At(u), s) ==> t == u)
    && (forall t, s :: Offering(st.At(t), s) ==> s !in st.alive)
  }

  ghost predicate Inv<T(!new)>(st: Sys<T>) { Counted(st) && Claimed(st) && Separate(st) }

  lemma GoCounts<T>(threads: map<nat, Pc<T>>, t: nat, was: Pc<T>, pc: Pc<T>)
    requires was == if t in threads then threads[t] else Idle
    ensures |Incs(threads[t := pc])| == |Incs(threads)| - Tally(was.Inc?) + Tally(pc.Inc?)
    ensures |Decs(threads[t := pc])| == |Decs(threads)| - Tally(was.PollDec? || was.RemoveDec?) + Tally(pc.PollDec? || pc.RemoveDec?)
  {
    SetTally(Incs(threads), t, pc.Inc?);
    SetTally(Decs(threads), t, pc.PollDec? || pc.RemoveDec?);
    GoSets(threads, t, pc);
  }

  lemma SetTally(a: set<nat>, t: nat, b: bool)
    ensures |if b then a + {t} else a - {t}| == |a| - Tally(t in a) + Tally(b)
  {
    if b && t in a { assert a + {t} == a; }
  }

  lemma GoSets<T>(threads: map<nat, Pc<T>>, t: nat, pc: Pc<T>)
    ensures Incs(threads[t := pc]) == if pc.Inc? then Incs(threads) + {t} else Incs(threads) - {t}
    ensures Decs(threads[t := pc]) == if pc.PollDec? || pc.RemoveDec? then Decs(threads) + {t} else Decs(threads) - {t}
  {
  }

  lemma AdvancedCounted<T(!new)>(st: Sys<T>, t: nat)
    requires Counted(st) && Separate(st)
    ensures Counted(Advanced(st, t))
  {
    var st' := Advanced(st, t);
    GoCounts(st.threads, t, st.At(t), st'.At(t));
    assert st' == st || st'.threads == st.threads[t := st'.At(t)];
    assert st.At(t).Store? ==> Offering(st.At(t), st.At(t).s);
  }

  lemma StepCounted<T(!new)>(st: Sys<T>, e: Event<T>)
    requires Counted(st) && Separate(st) && Enabled(st, e)
    ensures Counted(Step(st, e))
  {
    if e.Advance? {
      AdvancedCounted(st, e.t);
    } else {
      GoCounts(st.threads, e.t, st.At(e.t), Step(st, e).At(e.t));
    }
  }

  lemma StepClaimed<T(!new)>(st: Sys<T>, e: Event<T>)
    requires Claimed(st) && Separate(st)
    ensures Claimed(Step(st, e))
  {
    if e.Advance? {
      AdvancedClaimed(st, e.t);
    } else {
      forall s ensures ClaimedOnce(Step(st, e), s) { assert ClaimedOnce(st, s); }
    }
  }

  lemma AdvancedClaimed<T(!new)>(st: Sys<T>, t: nat)
    requires Claimed(st) && Separate(st)
    ensures Claimed(Advanced(st, t))
  {
    forall s ensures ClaimedOnce(Advanced(st, t), s) {
      assert ClaimedOnce(st, s);
      AdvancedClaimedOnce(st, t, s);
    }
  }

  lemma AdvancedClaimedOnce<T(!new)>(st: Sys<T>, t: nat, s: T)
    requires ClaimedOnce(st, s) && (st.At(t) == Store(s) ==> s !in st.alive)
    ensures ClaimedOnce(Advanced(st, t), s)
  {
  }

  /** An offer under way after a step was under way before it or has just started. */
  lemma OfferedBefore<T(!new)>(st: Sys<T>, e: Event<T>, t: nat, s: T)
    requires Offering(Step(st, e).At(t), s)
    ensures Offering(st.At(t), s) || e == StartOffer(t, s)
  {
  }

  lemma StepSeparate<T(!new)>(st: Sys<T>, e: Event<T>)
    requires Separate(st) && Enabled(st, e)
    ensures Separate(Step(st, e))
  {
    var st' := Step(st, e);
    forall t, u, s: T | Offering(st'.At(t), s) && Offering(st'.At(u), s) ensures t == u {
      OfferedBefore(st, e, t, s);
      OfferedBefore(st, e, u, s);
    }
    forall t, s: T | Offering(st'.At(t), s) ensures s !in st'.alive {
      OfferedBefore(st, e, t, s);
      OnlyStoreRevives(st, e, t, s);
    }
  }

  lemma OnlyStoreRevives<T(!new)>(st: Sys<T>, e: Event<T>, t: nat, s: T)
    requires Separate(st) && s !in st.alive && Offering(Step(st, e).At(t), s)
    requires Offering(st.At(t), s) || e == StartOffer(t, s)
    ensures s !in Step(st, e).alive
  {
    assert e.Advance? && Offering(st.At(e.t), s) && Offering(st.At(t), s) ==> e.t == t;
  }

  lemma StepInv<T(!new)>(st: Sys<T>, e: Event<T>)
    requires Inv(st) && Enabled(st, e)
    ensures Inv(Step(st, e))
  {
    StepCounted(st, e);
    StepClaimed(st, e);
    StepSeparate(st, e);
  }

  /** The counter law and the claim law hold in every reachable state. */
  lemma {:induction false} RunInv<T(!new)>(st: Sys<T>, es: seq<Event<T>>)
    requires Inv(st) && ValidRun(st, es)
    ensures Inv(Run(st, es))
    decreases |es|
  {
    if es == [] {
    } else {
      StepInv(st, es[0]);
      RunInv(Step(st, es[0]), es[1..]);
    }
  }

  lemma InitInv<T(!new)>(capacity: nat)
    ensures Inv(Init<T>(capacity))
  {
    assert Incs(Init<T>(capacity).threads) == {} && Decs(Init<T>(capacity).threads) == {};
  }

  ghost predicate Quiescent<T>(st: Sys<T>) { forall t :: t in st.threads ==> st.threads[t].Idle? }

  /** In every run each stored offer is claimed at most once in all, and once the
      goroutines are done the counter is the number of alive sockets. */
  lemma EveryRun<T(!new)>(capacity: nat, es: seq<Event<T>>, s: T)
    requires ValidRun(Init<T>(capacity), es)
    ensures var st := Run(Init<T>(capacity), es);
            && st.polled[s] + st.removed[s] <= st.stores[s]
            && (Quiescent(st) ==> st.length == |st.alive|)
  {
    InitInv<T>(capacity);
    RunInv(Init<T>(capacity), es);
    var st := Run(Init<T>(capacity), es);
    if Quiescent(st) {
      assert Incs(st.threads) == {} && Decs(st.threads) == {};
    }
    assert ClaimedOnce(st, s);
  }

  // ---------- a removed socket is not polled ----------

  ghost predicate Out<T>(st: Sys<T>, s: T) { s !in st.alive && !InFlight(st, s) }

  /** A `Remove` that answers true leaves the socket out. */
  lemma RemoveTrueLeavesOut<T(!new)>(st: Sys<T>, t: nat, s: T)
    requires Inv(st) && st.At(t) == RemoveTake(s) && s in st.alive
    ensures var st' := Step(st, Advance(t));
            Out(st', s) && st'.removed[s] == st.removed[s] + 1 && st'.At(t) == RemoveDec(s)
  {
    forall u ensures !Offering(st.At(u), s) { assert Offering(st.At(u), s) ==> s !in st.alive; }
    StillOut(st, Advance(t), s);
  }

  /** Until it is offered again, no poll and no `Remove` claims a socket that is out. */
  lemma {:induction false} OutStaysOut<T(!new)>(st: Sys<T>, es: seq<Event<T>>, s: T)
    requires Out(st, s)
    requires forall i :: 0 <= i < |es| && es[i].StartOffer? ==> es[i].s != s
    ensures var end := Run(st, es);
            Out(end, s) && end.polled[s] == st.polled[s] && end.removed[s] == st.removed[s]
    decreases |es|
  {
    if es == [] {
    } else {
      var st' := Step(st, es[0]);
      if es[0].Advance? { NoClaim(st, es[0].t, s); }
      StillOut(st, es[0], s);
      OutStaysOut(st', es[1..], s);
    }
  }

  lemma NoClaim<T(!new)>(st: Sys<T>, t: nat, s: T)
    requires Out(st, s)
    ensures var st' := Advanced(st, t); s !in st'.alive && st'.polled[s] == st.polled[s] && st'.removed[s] == st.removed[s]
  {
    assert !Offering(st.At(t), s);
  }

  lemma StillOut<T(!new)>(st: Sys<T>, e: Event<T>, s: T)
    requires s !in Step(st, e).alive && !InFlight(st, s) && !(e.StartOffer? && e.s == s)
    ensures Out(Step(st, e), s)
  {
    forall t ensures !Offering(Step(st, e).At(t), s) {
      assert !Offering(st.At(t), s);
      if Offering(Step(st, e).At(t), s) { OfferedBefore(st, e, t, s); }
    }
  }

  // ---------- where the counter law needs its assumption ----------

  /** The Store step keeps the counter law exactly when the socket is not alive already:
      re-offering an alive socket counts it twice. */
  lemma StoreCountsIffDead<T(!new)>(st: Sys<T>, t: nat, s: T)
    requires Counted(st) && st.At(t) == Store(s)
    ensures Counted(Step(st, Advance(t))) <==> s !in st.alive
  {
    GoCounts(st.threads, t, Store(s), Inc(s));
    assert s in st.alive ==> st.alive + {s} == st.alive;
  }

  // ---------- copies in the channel ----------

  ghost predicate HasCopy<T>(st: Sys<T>, s: T)
  {
    s in st.ch || exists t :: t in st.threads && st.threads[t].Take? && st.threads[t].s == s
  }

  ghost predicate Storing<T>(st: Sys<T>, s: T)
  {
    exists t :: st.At(t) == Store(s)
  }

  /** Every socket that is alive, or about to be, can still be received. */
  ghost predicate Covered<T(!new)>(st: Sys<T>)
  {
    forall s :: s in st.alive || Storing(st, s) ==> HasCopy(st, s)
  }

  /** A poll takes the only copy of a socket that was pushed but not yet stored, finds it
      dead and drops it. */
  ghost predicate LosesCopy<T>(st: Sys<T>, e: Event<T>)
  {
    && e.Advance? && st.At(e.t).Take? && st.At(e.t).s !in st.alive
    && Storing(st, st.At(e.t).s)
    && !HasCopy(st.Go(e.t, Idle), st.At(e.t).s)
  }

  /** An alive socket stays receivable through exactly the steps that are not such a drop. */
  lemma CoveredIffNoLoss<T(!new)>(st: Sys<T>, e: Event<T>)
    requires Separate(st) && Enabled(st, e) && Covered(st)
    ensures Covered(Step(st, e)) <==> !LosesCopy(st, e)
  {
    var st' := Step(st, e);
    if LosesCopy(st, e) {
      var s := st.At(e.t).s;
      var t :| st.At(t) == Store(s);
      assert st'.At(t) == Store(s);
      SameCopies(st, e.t, st'.At(e.t), s);
    } else {
      forall s | s in st'.alive || Storing(st', s) ensures HasCopy(st', s) {
        StillCovered(st, e, s);
      }
    }
  }

  lemma SameCopies<T>(st: Sys<T>, t: nat, pc: Pc<T>, s: T)
    requires !pc.Take?
    ensures HasCopy(st.Go(t, pc), s) ==> HasCopy(st.Go(t, Idle), s)
  {
    var after := st.Go(t, pc);
    if u :| u in after.threads && after.threads[u].Take? && after.threads[u].s == s {
      assert st.Go(t, Idle).threads[u] == after.threads[u];
    }
  }

  /** A socket that is alive or being stored was so before the step, unless just pushed. */
  lemma WasThere<T(!new)>(st: Sys<T>, e: Event<T>, s: T)
    requires s in Step(st, e).alive || Storing(Step(st, e), s)
    requires !(e.Advance? && st.At(e.t) == Push(s))
    ensures s in st.alive || Storing(st, s)
  {
    var st' := Step(st, e);
    if s in st'.alive {
      if s !in st.alive { assert st.At(e.t) == Store(s); }
    } else {
      var t :| st'.At(t) == Store(s);
      assert st.At(t) == Store(s);
    }
  }

  /** Only a poll that finds the socket gives up its own copy of it. */
  lemma CopyKept<T(!new)>(st: Sys<T>, e: Event<T>, s: T)
    requires HasCopy(st, s) && !(e.Advance? && st.At(e.t).Take? && st.At(e.t).s == s)
    requires Enabled(st, e)
    ensures HasCopy(Step(st, e), s)
  {
    var st' := Step(st, e);
    if s in st.ch {
      if e.Advance? && st.At(e.t).Recv? {
        assert st.ch == [st.ch[0]] + st.ch[1..];
        if s == st.ch[0] { assert st'.threads[e.t].s == s; }
      }
    } else {
      var u :| u in st.threads && st.threads[u].Take? && st.threads[u].s == s;
      assert st'.threads[u] == st.threads[u];
    }
  }

  lemma StillCovered<T(!new)>(st: Sys<T>, e: Event<T>, s: T)
    requires Separate(st) && Enabled(st, e) && Covered(st) && !LosesCopy(st, e)
    requires s in Step(st, e).alive || Storing(Step(st, e), s)
    ensures HasCopy(Step(st, e), s)
  {
    var st' := Step(st, e);
    if e.Advance? && st.At(e.t) == Push(s) {
      if |st.ch| < st.capacity {
        assert st'.ch[|st.ch|] == s;
      } else {
        assert s in st.alive || Storing(st, s);
      }
    } else {
      WasThere(st, e, s);
      if e.Advance? && st.At(e.t).Take? && st.At(e.t).s == s {
        DropKeeps(st, e, s);
      } else {
        CopyKept(st, e, s);
      }
    }
  }

  lemma DropKeeps<T(!new)>(st: Sys<T>, e: Event<T>, s: T)
    requires Separate(st) && !LosesCopy(st, e)
    requires e.Advance? && st.At(e.t).Take? && st.At(e.t).s == s
    requires s in Step(st, e).alive || Storing(Step(st, e), s)
    requires s in st.alive || Storing(st, s)
    ensures HasCopy(Step(st, e), s)
  {
    var st' := Step(st, e);
    if s in st.alive {
      forall t ensures st'.At(t) != Store(s) { assert Offering(st.At(t), s) ==> s !in st.alive; }
      assert false;
    } else if s !in st.ch {
      var v :| v in st.Go(e.t, Idle).threads && st.Go(e.t, Idle).threads[v].Take? && st.Go(e.t, Idle).threads[v].s == s;
      assert st'.threads[v] == st.threads[v];
    }
  }

  ghost predicate Lossless<T>(st: Sys<T>, es: seq<Event<T>>)
    decreases |es|
  {
    es == [] || (!LosesCopy(st, es[0]) && Lossless(Step(st, es[0]), es[1..]))
  }

  /** In a run without such a drop every alive socket stays receivable; when all goroutines
      are done each one has a copy in the channel. */
  lemma {:induction false} LosslessRunCovers<T(!new)>(st: Sys<T>, es: seq<Event<T>>)
    requires Inv(st) && Covered(st) && ValidRun(st, es) && Lossless(st, es)
    ensures Covered(Run(st, es))
    ensures Quiescent(Run(st, es)) ==> forall s :: s in Run(st, es).alive ==> s in Run(st, es).ch
    decreases |es|
  {
    if es == [] {
    } else {
      StepInv(st, es[0]);
      CoveredIffNoLoss(st, es[0]);
      LosslessRunCovers(Step(st, es[0]), es[1..]);
    }
  }

  /** The drop happens: one offer and one poll leave a socket alive and counted for which
      no copy exists, so no poll ever returns it. */
  lemma PushBeforeStoreLosesSocket(s: int)
    ensures var st := Run(Init<int>(1), Losing(s));
            && ValidRun(Init<int>(1), Losing(s))
            && Quiescent(st) && s in st.alive && st.length == 1 && st.ch == [] && st.polled == multiset{}
  {
    LosingFrom(s, 0);
    assert Losing(s)[0..] == Losing(s);
  }

  lemma {:induction false} LosingFrom(s: int, k: nat)
    requires k <= 8
    ensures Run(LosingState(s, k), Losing(s)[k..]) == LosingState(s, 8)
    ensures ValidRun(LosingState(s, k), Losing(s)[k..])
    decreases 8 - k
  {
    if k == 8 {
    } else {
      LosingStep(s, k);
      assert Losing(s)[k..][1..] == Losing(s)[k + 1..];
      LosingFrom(s, k + 1);
    }
  }

  lemma LosingStep(s: int, k: nat)
    requires k < 8
    ensures Step(LosingState(s, k), Losing(s)[k]) == LosingState(s, k + 1)
    ensures Enabled(LosingState(s, k), Losing(s)[k])
  {
    if k <= 3 { LosingToTake(s, k); } else if k <= 5 { LosingToGiveUp(s, k); } else { LosingToStore(s, k); }
  }

  lemma LosingToTake(s: int, k: nat)
    requires 0 <= k <= 3
    ensures Step(LosingState(s, k), Losing(s)[k]) == LosingState(s, k + 1)
    ensures Enabled(LosingState(s, k), Losing(s)[k])
  {
  }

  lemma LosingToGiveUp(s: int, k: nat)
    requires 4 <= k <= 5
    ensures Step(LosingState(s, k), Losing(s)[k]) == LosingState(s, k + 1)
    ensures Enabled(LosingState(s, k), Losing(s)[k])
  {
  }

  lemma LosingToStore(s: int, k: nat)
    requires 6 <= k <= 7
    ensures Step(LosingState(s, k), Losing(s)[k]) == LosingState(s, k + 1)
    ensures Enabled(LosingState(s, k), Losing(s)[k])
  {
    assert LosingState(s, k).At(0) == (if k == 6 then Store(s) else Inc(s));
  }

  function LosingState(s: int, k: nat): Sys<int>
  {
    var none: multiset<int> := multiset{};
    if k == 0 then Init<int>(1)
    else if k == 1 then Sys([], {}, 0, 1, map[0 := Push(s)], none, none, none)
    else if k == 2 then Sys([s], {}, 0, 1, map[0 := Store(s)], none, none, none)
    else if k == 3 then Sys([s], {}, 0, 1, map[0 := Store(s), 1 := Recv(false)], none, none, none)
    else if k == 4 then Sys([], {}, 0, 1, map[0 := Store(s), 1 := Take(s, false)], none, none, none)
    else if k == 5 then Sys([], {}, 0, 1, map[0 := Store(s), 1 := Recv(false)], none, none, none)
    else if k == 6 then Sys([], {}, 0, 1, map[0 := Store(s), 1 := Idle], none, none, none)
    else if k == 7 then Sys([], {s}, 0, 1, map[0 := Inc(s), 1 := Idle], multiset{s}, none, none)
    else Sys([], {s}, 1, 1, map[0 := Idle, 1 := Idle], multiset{s}, none, none)
  }

  function Losing(s: int): seq<Event<int>>
  {
    [StartOffer(0, s), Advance(0), StartPoll(1, false), Advance(1), Advance(1), GiveUp(1), Advance(0), Advance(0)]
  }
}
