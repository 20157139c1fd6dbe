/** router/router_socket/iterable_chan.go with `Offer` atomic: a bounded channel, a set of
    alive sockets and a separate counter imitate a blocking queue with random removal.
    Removal leaves a tombstone (a dead copy) in the channel. */
module IterableChan {
  import opened Text

  const DEFAULT_CAPACITY: nat := 200

  datatype Queue<T(==)> = Queue(ch: seq<T>, alive: set<T>, length: int, capacity: nat)
  {
    /** Every alive socket has a copy in the channel, and the counter is their number. */
    ghost predicate Valid()
    {
      && (forall s :: s in alive ==> s in ch)
      && length == |alive|
      && |ch| <= capacity
    }

    predicate HasRoom() { |ch| < capacity }

    /** The push, store and increment of `Offer`, once the channel has room. */
    function Offered(s: T): Queue<T>
    {
      this.(ch := ch + [s], alive := alive + {s}, length := length + 1)
    }

    function Removed(s: T): Queue<T>
    {
      if s in alive then this.(alive := alive - {s}, length := length - 1) else this
    }

    function Received(): Queue<T>
      requires ch != []
    {
      this.(ch := ch[1..]).Removed(ch[0])
    }

    /** `Poll`: drop dead sockets until an alive one or the end of the channel. */
    function Polled(): (Queue<T>, Option<T>)
      decreases |ch|
    {
      if ch == [] then (this, None)
      else if ch[0] in alive then (Received(), Some(ch[0]))
      else Received().Polled()
    }

    /** `PollTimeout` with no offer arriving meanwhile; `patience` is the number of dead
        sockets dropped before the clock is found past the deadline. */
    function PolledWithin(patience: nat): (Queue<T>, Option<T>)
      decreases patience
    {
      if ch == [] then (this, None)
      else if ch[0] in alive then (Received(), Some(ch[0]))
      else if patience == 0 then (Received(), None)
      else Received().PolledWithin(patience - 1)
    }

    /** The abstract queue: alive sockets in the order of their first copies. */
    function Contents(): seq<T> { Live(ch, alive) }
  }

  function EmptyQueue<T>(capacity: nat): (q: Queue<T>)
    ensures q.Valid()
  {
    Queue([], {}, 0, if capacity == 0 then DEFAULT_CAPACITY else capacity)
  }

  function Live<T(==)>(ch: seq<T>, alive: set<T>): seq<T>
  {
    if ch == [] then []
    else if ch[0] in alive then [ch[0]] + Live(ch[1..], alive - {ch[0]})
    else Live(ch[1..], alive)
  }

  function Without<T(==)>(q: seq<T>, s: T): seq<T>
  {
    if q == [] then [] else (if q[0] == s then [] else [q[0]]) + Without(q[1..], s)
  }

  function First<T(==)>(ch: seq<T>, s: T): (k: nat)
    ensures k <= |ch|
    ensures s !in ch[..k]
    ensures k < |ch| ==> ch[k] == s
    ensures k == |ch| <==> s !in ch
  {
    if ch == [] || ch[0] == s then 0
    else
      var k := First(ch[1..], s);
      assert ch[..k + 1] == [ch[0]] + ch[1..][..k];
      assert ch == [ch[0]] + ch[1..];
      k + 1
  }

  // ---------- the abstract queue holds exactly the alive sockets, once each ----------

  lemma {:induction false} LiveMembers<T>(ch: seq<T>, alive: set<T>, s: T)
    ensures s in Live(ch, alive) <==> s in alive && s in ch
  {
    if ch == [] {
    } else {
      LiveMembers(ch[1..], if ch[0] in alive then alive - {ch[0]} else alive, s);
      assert ch == [ch[0]] + ch[1..];
    }
  }

  /** Even a socket re-offered over its own tombstone is queued, so returned, once. */
  lemma {:induction false} LiveDistinct<T>(ch: seq<T>, alive: set<T>)
    ensures forall i, j :: 0 <= i < j < |Live(ch, alive)| ==> Live(ch, alive)[i] != Live(ch, alive)[j]
  {
    if ch == [] {
    } else {
      if ch[0] in alive {
        var rest := Live(ch[1..], alive - {ch[0]});
        LiveDistinct(ch[1..], alive - {ch[0]});
        LiveMembers(ch[1..], alive - {ch[0]}, ch[0]);
      } else {
        LiveDistinct(ch[1..], alive);
      }
    }
  }

  // ---------- refinement of each operation ----------

  lemma ReceivedValid<T>(q: Queue<T>)
    requires q.Valid() && q.ch != []
    ensures q.Received().Valid()
  {
    assert q.ch == [q.ch[0]] + q.ch[1..];
  }

  /** `Poll` pops the abstract queue; it returns nil exactly when nothing is alive, and
      then the channel holds no copy either. */
  lemma {:induction false} PollRefines<T>(q: Queue<T>)
    requires q.Valid()
    ensures var (q', r) := q.Polled();
            && q'.Valid() && q'.capacity == q.capacity
            && (r.None? <==> q.alive == {})
            && (r.None? ==> q' == q.(ch := []))
            && (r.Some? ==> q.Contents() == [r.value] + q'.Contents()
                            && r.value in q.alive && q'.alive == q.alive - {r.value})
    decreases |q.ch|
  {
    if q.ch == [] {
    } else {
      ReceivedValid(q);
      if q.ch[0] !in q.alive { PollRefines(q.Received()); }
    }
  }

  /** Dead copies in front of the first alive one. */
  function DeadPrefix<T(==)>(ch: seq<T>, alive: set<T>): nat
  {
    if ch == [] || ch[0] in alive then 0 else 1 + DeadPrefix(ch[1..], alive)
  }

  /** `PollTimeout` returns what `Poll` would unless the deadline passes among the dead
      copies in front, and gives up without losing a socket: it has dropped dead copies,
      the one it received past the deadline included. */
  lemma {:induction false} PollTimeoutRefines<T>(q: Queue<T>, patience: nat)
    requires q.Valid()
    ensures var (q', r) := q.PolledWithin(patience);
            && q'.Valid() && q'.capacity == q.capacity
            && (r.Some? <==> q.alive != {} && DeadPrefix(q.ch, q.alive) <= patience)
            && (r.Some? ==> q.PolledWithin(patience) == q.Polled())
            && (r.None? ==> q'.Contents() == q.Contents() && q'.alive == q.alive)
            && (r.None? ==> q'.ch == if |q.ch| <= patience then [] else q.ch[patience + 1..])
            && (r.Some? ==> r.value in q.alive && q'.alive == q.alive - {r.value})
    decreases |q.ch|
  {
    if q.ch == [] {
    } else {
      ReceivedValid(q);
      if q.ch[0] !in q.alive && patience > 0 { PollTimeoutRefines(q.Received(), patience - 1); }
    }
  }

  lemma {:induction false} LiveRemove<T>(ch: seq<T>, alive: set<T>, s: T)
    ensures Live(ch, alive - {s}) == Without(Live(ch, alive), s)
  {
    if ch == [] {
    } else {
      if ch[0] !in alive {
        LiveRemove(ch[1..], alive, s);
      } else if ch[0] == s {
        LiveRemove(ch[1..], alive - {s}, s);
        assert alive - {s} - {s} == alive - {s};
        assert ([s] + Live(ch[1..], alive - {s}))[1..] == Live(ch[1..], alive - {s});
      } else {
        LiveRemove(ch[1..], alive - {ch[0]}, s);
        assert alive - {ch[0]} - {s} == alive - {s} - {ch[0]};
        assert Live(ch, alive)[1..] == Live(ch[1..], alive - {ch[0]});
      }
    }
  }

  /** `Remove` takes the socket out wherever it is and keeps the order of the others. */
  lemma RemoveRefines<T>(q: Queue<T>, s: T)
    requires q.Valid()
    ensures q.Removed(s).Valid()
    ensures q.Removed(s).Contents() == Without(q.Contents(), s)
  {
    LiveRemove(q.ch, q.alive, s);
    if s !in q.alive { assert q.alive - {s} == q.alive; }
  }

  lemma {:induction false} LiveDeadTail<T>(ch: seq<T>, alive: set<T>, s: T)
    requires s !in alive
    ensures Live(ch + [s], alive) == Live(ch, alive)
  {
    if ch == [] {
    } else {
      assert (ch + [s])[1..] == ch[1..] + [s];
      LiveDeadTail(ch[1..], if ch[0] in alive then alive - {ch[0]} else alive, s);
    }
  }

  lemma {:induction false} LiveOffer<T>(ch: seq<T>, alive: set<T>, s: T)
    requires s !in alive
    ensures var before := Live(ch[..First(ch, s)], alive);
            && before <= Live(ch, alive)
            && Live(ch + [s], alive + {s}) == before + [s] + Live(ch, alive)[|before|..]
  {
    if ch == [] {
      assert [s][1..] == [] && (ch + [s])[1..] == [];
    } else {
      assert (ch + [s])[1..] == ch[1..] + [s];
      if ch[0] == s {
        assert alive + {s} - {s} == alive;
        LiveDeadTail(ch[1..], alive, s);
        assert ch[..0] == [];
      } else {
        assert ch[..First(ch, s)][1..] == ch[1..][..First(ch[1..], s)];
        if ch[0] in alive {
          assert alive + {s} - {ch[0]} == alive - {ch[0]} + {s};
          LiveOffer(ch[1..], alive - {ch[0]}, s);
        } else {
          LiveOffer(ch[1..], alive, s);
        }
      }
    }
  }

  /** An offer appends at the end exactly when no alive socket has its first copy behind a
      tombstone of the offered one; otherwise the socket jumps to its tombstone's place. */
  lemma OfferRefines<T>(q: Queue<T>, s: T)
    requires q.Valid() && q.HasRoom() && s !in q.alive
    ensures q.Offered(s).Valid()
    ensures var before := Live(q.ch[..First(q.ch, s)], q.alive);
            && before <= q.Contents()
            && q.Offered(s).Contents() == before + [s] + q.Contents()[|before|..]
    ensures q.Offered(s).Contents() == q.Contents() + [s]
            <==> forall x :: x in q.alive ==> x in q.ch[..First(q.ch, s)]
    ensures s !in q.ch ==> q.Offered(s).Contents() == q.Contents() + [s]
  {
    var k := First(q.ch, s);
    var before, all := Live(q.ch[..k], q.alive), q.Contents();
    LiveOffer(q.ch, q.alive, s);
    forall x | x in q.alive ensures x in q.ch[..k] <==> x in before {
      LiveMembers(q.ch[..k], q.alive, x);
    }
    if |before| == |all| {
      assert before == all && all[|before|..] == [];
      forall x | x in q.alive ensures x in before { LiveMembers(q.ch, q.alive, x); }
    } else {
      var x := all[|before|];
      LiveMembers(q.ch, q.alive, x);
      LiveMembers(q.ch, q.alive, s);
      assert (before + [s] + all[|before|..])[|before|] == s;
      LiveDistinct(q.ch, q.alive);
      assert x !in before;
    }
    if s !in q.ch { assert q.ch[..k] == q.ch; }
  }

  /** FIFO order broken: offered, removed and offered again, a socket overtakes one that was
      offered in between. */
  lemma TombstoneJumpsQueue<T>(a: T, b: T)
    requires a != b
    ensures var q := EmptyQueue<T>(0).Offered(a).Offered(b).Removed(a);
            && q.Valid() && q.HasRoom() && a !in q.alive
            && q.Contents() == [b] && q.Offered(a).Contents() == [a, b]
  {
    var q := EmptyQueue<T>(0).Offered(a).Offered(b).Removed(a);
    var q' := q.Offered(a);
    assert q.ch == [a, b] && q.alive == {b};
    assert [a, b][1..] == [b] && [b][1..] == [];
    assert Live([b], {b}) == [b] + Live([], {b} - {b});
    assert q'.ch == [a, b, a] && q'.alive == {a, b};
    assert [a, b, a][1..] == [b, a] && [b, a][1..] == [a];
    assert {a, b} - {a} == {b} && {b} - {b} == {};
    assert Live([a], {}) == Live([], {}) by { assert [a][1..] == []; }
    assert Live([b, a], {b}) == [b] + Live([a], {}) == [b];
  }

  // ---------- the class ----------

  class IterableChan<T(==)> {
    var ch: seq<T>
    var aliveSocketSet: set<T>
    var length: int
    const capacity: nat

    function State(): Queue<T>
      reads this
    {
      Queue(ch, aliveSocketSet, length, capacity)
    }

    ghost predicate Valid()
      reads this
    {
      State().Valid()
    }

    constructor (capacity: nat)
      ensures Valid() && State() == EmptyQueue(capacity)
    {
      this.ch, this.aliveSocketSet, this.length := [], {}, 0;
      this.capacity := if capacity == 0 then DEFAULT_CAPACITY else capacity;
    }

    method LenAlive() returns (n: int)
      requires Valid()
      ensures n == |aliveSocketSet| == |State().Contents()|
    {
      n := length;
      LiveCount(ch, aliveSocketSet);
    }

    /** One round of `Offer`'s goroutine: false when the channel is full and the offer
        stays pending. Landing over a socket that is still alive, and only that, breaks
        the counter. */
    method Offer(s: T) returns (landed: bool)
      requires Valid()
      modifies this
      ensures landed == old(State()).HasRoom()
      ensures State() == if landed then old(State()).Offered(s) else old(State())
      ensures Valid() <==> !landed || s !in old(aliveSocketSet)
    {
      landed := |ch| < capacity;
      if landed {
        ch := ch + [s];
        aliveSocketSet := aliveSocketSet + {s};
        length := length + 1;
      }
    }

    method Remove(s: T) returns (loaded: bool)
      requires Valid()
      modifies this
      ensures loaded == (s in old(aliveSocketSet))
      ensures State() == old(State()).Removed(s)
      ensures Valid()
    {
      loaded := s in aliveSocketSet;
      if loaded {
        aliveSocketSet := aliveSocketSet - {s};
        length := length - 1;
      }
    }

    method Poll() returns (socket: Option<T>)
      requires Valid()
      modifies this
      ensures (State(), socket) == old(State()).Polled()
      ensures Valid()
      ensures socket.None? <==> old(aliveSocketSet) == {}
      ensures socket.Some? ==> old(State()).Contents() == [socket.value] + State().Contents()
    {
      PollRefines(State());
      while true
        invariant State().Polled() == old(State()).Polled()
        decreases |ch|
      {
        if |ch| == 0 { return None; }
        var s := ch[0];
        ch := ch[1..];
        if s in aliveSocketSet {
          aliveSocketSet := aliveSocketSet - {s};
          length := length - 1;
          return Some(s);
        }
      }
    }

    method PollTimeout(patience: nat) returns (socket: Option<T>)
      requires Valid()
      modifies this
      ensures (State(), socket) == old(State()).PolledWithin(patience)
      ensures Valid()
      ensures socket.Some? <==> old(aliveSocketSet) != {} && DeadPrefix(old(ch), old(aliveSocketSet)) <= patience
    {
      PollTimeoutRefines(State(), patience);
      var left := patience;
      while true
        invariant State().PolledWithin(left) == old(State()).PolledWithin(patience)
        decreases |ch|
      {
        if |ch| == 0 { return None; }
        var s := ch[0];
        ch := ch[1..];
        if s in aliveSocketSet {
          aliveSocketSet := aliveSocketSet - {s};
          length := length - 1;
          return Some(s);
        }
        if left == 0 { return None; }
        left := left - 1;
      }
    }
  }

  lemma {:induction false} LiveCount<T>(ch: seq<T>, alive: set<T>)
    requires forall s :: s in alive ==> s in ch
    ensures |Live(ch, alive)| == |alive|
  {
    if ch == [] {
      assert alive == {};
    } else {
      var rest := if ch[0] in alive then alive - {ch[0]} else alive;
      assert ch == [ch[0]] + ch[1..];
      LiveCount(ch[1..], rest);
    }
  }
}
