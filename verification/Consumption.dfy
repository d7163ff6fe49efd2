/** The consumption loop shared by worker, gateway and notifier: prefetch-bounded goroutines,
    one settlement each, graceful drain. */
module Consumption {

  /** What can happen around one `Consume` call. The broker numbers its deliveries. */
  datatype Turn =
    | Push            // the broker puts the next delivery on the channel
    | Take(tag: nat)  // the loop receives it and starts a goroutine
    | Settle(tag: nat) // that goroutine calls Ack or Nack
    | Exit(tag: nat)  // ... and then wg.Done
    | CloseChannel    // the broker or the connection closes the channel
    | Discard(tag: nat) // the client library drops a buffered delivery of a closed channel
    | SeeShutdown     // the loop sees the cancelled context
    | SeeClosed       // the loop sees the closed channel
    | Return          // wg.Wait is over

  datatype Loop = Loop(
    prefetch: nat,
    pushed: nat,                 // deliveries numbered so far
    buffered: set<nat>,          // on the channel
    handling: set<nat>,          // goroutines that have not settled yet
    exiting: set<nat>,           // goroutines past settlement, before wg.Done
    settled: seq<nat>,           // history: settlement attempts, in order
    wg: int,
    closed: bool, draining: bool, returned: bool)

  function Initial(prefetch: nat): Loop {
    Loop(prefetch, 0, {}, {}, {}, [], 0, false, false, false)
  }

  /** The broker's side of QoS: unsettled deliveries count, and 0 means no limit. */
  predicate MayPush(l: Loop) {
    !l.closed && (l.prefetch == 0 || |l.buffered| + |l.handling| < l.prefetch)
  }

  predicate Enabled(l: Loop, t: Turn) {
    match t
    case Push => MayPush(l)
    case Take(tag) => !l.draining && tag in l.buffered
    case Settle(tag) => tag in l.handling
    case Exit(tag) => tag in l.exiting
    case CloseChannel => true
    case Discard(tag) => l.closed && tag in l.buffered
    case SeeShutdown => !l.draining
    case SeeClosed => !l.draining && l.closed && l.buffered == {}
    case Return => l.draining && l.wg == 0
  }

  function Next(l: Loop, t: Turn): Loop
    requires Enabled(l, t)
  {
    match t
    case Push => l.(pushed := l.pushed + 1, buffered := l.buffered + {l.pushed})
    case Take(tag) => l.(buffered := l.buffered - {tag}, handling := l.handling + {tag}, wg := l.wg + 1)
    case Settle(tag) => l.(handling := l.handling - {tag}, exiting := l.exiting + {tag}, settled := l.settled + [tag])
    case Exit(tag) => l.(exiting := l.exiting - {tag}, wg := l.wg - 1)
    case CloseChannel => l.(closed := true)
    case Discard(tag) => l.(buffered := l.buffered - {tag})
    case SeeShutdown => l.(draining := true)
    case SeeClosed => l.(draining := true)
    case Return => l.(returned := true)
  }

  predicate Possible(prefetch: nat, turns: seq<Turn>)
    decreases |turns|, 0
  {
    turns == [] ||
    (Possible(prefetch, turns[..|turns| - 1])
     && Enabled(After(prefetch, turns[..|turns| - 1]), turns[|turns| - 1]))
  }

  function After(prefetch: nat, turns: seq<Turn>): Loop
    requires Possible(prefetch, turns)
    decreases |turns|, 1
  {
    if turns == [] then Initial(prefetch) else Next(After(prefetch, turns[..|turns| - 1]), turns[|turns| - 1])
  }

  function Attempts(l: Loop, tag: nat): nat { multiset(l.settled)[tag] }

  /** Deliveries the loop has received. */
  predicate Taken(turns: seq<Turn>, tag: nat) { Take(tag) in turns }

  /** The sets are disjoint, numbered by the broker, and counted by `wg`. */
  predicate SetsOk(l: Loop) {
    && (forall x :: x in l.buffered ==> x < l.pushed)
    && (forall x :: x in l.handling ==> x < l.pushed)
    && (forall x :: x in l.exiting ==> x < l.pushed)
    && l.buffered !! l.handling && l.handling !! l.exiting && l.buffered !! l.exiting
    && l.wg == |l.handling| + |l.exiting|
    && (l.prefetch > 0 ==> |l.buffered| + |l.handling| <= l.prefetch)
    && (l.returned ==> l.draining && l.handling == {} && l.exiting == {})
  }

  /** The settlement log agrees with what was taken of delivery `x`. */
  predicate LogOk(l: Loop, turns: seq<Turn>, x: nat) {
    && (Taken(turns, x) ==> x < l.pushed && x !in l.buffered)
    && (x in l.handling || x in l.exiting ==> Taken(turns, x))
    && Attempts(l, x) == if Taken(turns, x) && x !in l.handling then 1 else 0
  }

  lemma SetsKept(l: Loop, t: Turn)
    requires SetsOk(l) && Enabled(l, t)
    ensures SetsOk(Next(l, t))
  {
    var m := Next(l, t);
    match t
    case Push => assert |m.buffered| == |l.buffered| + 1;
    case Take(tag) => assert |m.buffered| == |l.buffered| - 1 && |m.handling| == |l.handling| + 1;
    case Settle(tag) => assert |m.handling| == |l.handling| - 1 && |m.exiting| == |l.exiting| + 1;
    case Exit(tag) => assert |m.exiting| == |l.exiting| - 1;
    case Discard(tag) => assert |m.buffered| == |l.buffered| - 1;
    case _ =>
  }

  lemma LogKept(l: Loop, turns: seq<Turn>, t: Turn, x: nat)
    requires SetsOk(l) && LogOk(l, turns, x) && Enabled(l, t)
    ensures LogOk(Next(l, t), turns + [t], x)
  {
    assert Taken(turns + [t], x) <==> Taken(turns, x) || Take(x) == t;
    if t.Settle? {
      assert multiset(l.settled + [t.tag]) == multiset(l.settled) + multiset{t.tag};
    }
  }

  lemma {:induction false} AlwaysInv(prefetch: nat, turns: seq<Turn>)
    requires Possible(prefetch, turns)
    ensures var l := After(prefetch, turns); SetsOk(l) && l.prefetch == prefetch && forall x: nat :: LogOk(l, turns, x)
  {
    if turns == [] {
    } else {
      var front, t := turns[..|turns| - 1], turns[|turns| - 1];
      AlwaysInv(prefetch, front);
      SetsKept(After(prefetch, front), t);
      assert front + [t] == turns;
      forall x: nat ensures LogOk(After(prefetch, turns), turns, x) {
        LogKept(After(prefetch, front), front, t, x);
      }
    }
  }

  /** At every moment: with a positive prefetch no more than that many deliveries are being handled;
      every delivery received is settled exactly once, when its handling ends; and once `Consume`
      has returned, no goroutine it started is left. */
  lemma ConsumeIsDisciplined(prefetch: nat, turns: seq<Turn>)
    requires Possible(prefetch, turns)
    ensures var l := After(prefetch, turns);
            && (prefetch > 0 ==> |l.handling| <= prefetch)
            && (forall x: nat :: Attempts(l, x) == if Taken(turns, x) && x !in l.handling then 1 else 0)
            && (l.returned ==> l.handling == {} && l.exiting == {} && l.wg == 0)
  {
    AlwaysInv(prefetch, turns);
    var l := After(prefetch, turns);
    forall x: nat ensures Attempts(l, x) == if Taken(turns, x) && x !in l.handling then 1 else 0 {
      assert LogOk(l, turns, x);
    }
  }

  /** After the loop has seen shutdown or closure no further goroutine starts. */
  lemma {:induction false} DrainStartsNothing(prefetch: nat, turns: seq<Turn>, more: seq<Turn>)
    requires Possible(prefetch, turns + more) && Possible(prefetch, turns) && After(prefetch, turns).draining
    ensures After(prefetch, turns + more).draining
    ensures forall x: nat :: Taken(turns + more, x) ==> Taken(turns, x)
  {
    if more == [] {
      assert turns + more == turns;
    } else {
      var front, t := more[..|more| - 1], more[|more| - 1];
      var all := turns + more;
      assert all[..|all| - 1] == turns + front;
      assert all == (turns + front) + [t];
      DrainStartsNothing(prefetch, turns, front);
    }
  }

  /** The cap is the prefetch count and nothing less; with QoS 0 there is none. */
  lemma {:induction false} CapIsReached(prefetch: nat, n: nat) returns (turns: seq<Turn>)
    requires prefetch == 0 || n <= prefetch
    ensures Possible(prefetch, turns)
    ensures var l := After(prefetch, turns);
            l.prefetch == prefetch && |l.handling| == n && l.buffered == {} && !l.closed && !l.draining && l.pushed == n
            && forall x :: x in l.handling ==> x < n
  {
    if n == 0 {
      turns := [];
    } else {
      turns := CapIsReached(prefetch, n - 1);
      ghost var l := After(prefetch, turns);
      turns := Snoc(prefetch, turns, Push);
      turns := Snoc(prefetch, turns, Take(n - 1));
      assert n - 1 !in l.handling;
      assert After(prefetch, turns).handling == l.handling + {n - 1};
    }
  }

  /** With QoS 0 any number of deliveries can be handled at once. */
  lemma NoCapWithoutPrefetch(n: nat) returns (turns: seq<Turn>)
    ensures Possible(0, turns) && |After(0, turns).handling| == n
  {
    turns := CapIsReached(0, n);
  }

  // ----- heeding offers -------------------------------------------------------------------------

  /** The loop is over: draining, and every goroutine has left. */
  predicate Done(l: Loop) { l.draining && l.wg == 0 }

  /** Of what is offered until the loop is over, whatever is possible when its turn comes. */
  function Heeded(prefetch: nat, offers: seq<Turn>): (turns: seq<Turn>)
    ensures Possible(prefetch, turns)
  {
    if offers == [] then []
    else
      var front, t := Heeded(prefetch, offers[..|offers| - 1]), offers[|offers| - 1];
      var l := After(prefetch, front);
      if t != Return && !Done(l) && Enabled(l, t)
      then
        assert (front + [t])[..|front|] == front;
        front + [t]
      else front
  }

  /** `offers` is itself a run, and the loop is not over before its end. */
  ghost predicate IsRun(prefetch: nat, offers: seq<Turn>) {
    && Possible(prefetch, offers) && Return !in offers
    && forall n: nat :: n < |offers| && Possible(prefetch, offers[..n]) ==> !Done(After(prefetch, offers[..n]))
  }

  /** A run offered as it is takes place as it is. */
  lemma {:induction false} RunsAreHeeded(prefetch: nat, offers: seq<Turn>)
    requires IsRun(prefetch, offers)
    ensures Heeded(prefetch, offers) == offers
  {
    if offers == [] {
    } else {
      var front, t := offers[..|offers| - 1], offers[|offers| - 1];
      assert front + [t] == offers && t in offers;
      forall n: nat | n < |front| && Possible(prefetch, front[..n]) ensures !Done(After(prefetch, front[..n])) {
        assert front[..n] == offers[..n];
      }
      RunsAreHeeded(prefetch, front);
    }
  }

  /** Once the loop is over nothing more is heeded. */
  lemma {:induction false} NothingAfterDone(prefetch: nat, offers: seq<Turn>, i: nat)
    requires i <= |offers| && Done(After(prefetch, Heeded(prefetch, offers[..i])))
    ensures Heeded(prefetch, offers) == Heeded(prefetch, offers[..i])
    decreases |offers|
  {
    if i == |offers| {
      assert offers[..i] == offers;
    } else {
      var front := offers[..|offers| - 1];
      assert front[..i] == offers[..i];
      NothingAfterDone(prefetch, front, i);
    }
  }

  lemma Snoc(prefetch: nat, turns: seq<Turn>, t: Turn) returns (longer: seq<Turn>)
    requires Possible(prefetch, turns) && Enabled(After(prefetch, turns), t)
    ensures longer == turns + [t] && Possible(prefetch, longer)
    ensures After(prefetch, longer) == Next(After(prefetch, turns), t)
  {
    longer := turns + [t];
    assert longer[..|turns|] == turns;
  }

  /** One consumer, its counters updated in place as the scheduler picks turns. */
  class Consumer {
    const prefetch: nat
    var pushed: nat
    var buffered: set<nat>
    var handling: set<nat>
    var exiting: set<nat>
    var settled: seq<nat>
    var wg: int
    var closed: bool
    var draining: bool
    var returned: bool

    constructor (prefetch: nat)
      ensures State() == Initial(prefetch)
    {
      this.prefetch := prefetch;
      pushed, buffered, handling, exiting, settled, wg := 0, {}, {}, {}, [], 0;
      closed, draining, returned := false, false, false;
    }

    function State(): Loop
      reads this
    {
      Loop(prefetch, pushed, buffered, handling, exiting, settled, wg, closed, draining, returned)
    }

    method Perform(t: Turn)
      requires Enabled(State(), t)
      modifies this
      ensures State() == Next(old(State()), t)
    {
      match t {
        case Push => buffered, pushed := buffered + {pushed}, pushed + 1;
        case Take(tag) =>
          buffered := buffered - {tag};
          wg := wg + 1;
          handling := handling + {tag};
        case Settle(tag) =>
          handling := handling - {tag};
          settled := settled + [tag];
          exiting := exiting + {tag};
        case Exit(tag) =>
          exiting := exiting - {tag};
          wg := wg - 1;
        case CloseChannel => closed := true;
        case Discard(tag) => buffered := buffered - {tag};
        case SeeShutdown => draining := true;
        case SeeClosed => draining := true;
        case Return => returned := true;
      }
    }

    /** Take one turn if it is possible now. */
    method Offer(t: Turn)
      modifies this
      ensures State() == if Enabled(old(State()), t) then Next(old(State()), t) else old(State())
      ensures t != Return ==> returned == old(returned)
      ensures old(draining) ==> draining
    {
      if Enabled(State(), t) { Perform(t); }
    }

    /** Set the prefetch count, subscribe, then select between shutdown, deliveries and a closed
        channel; once draining, wait for the goroutines. `offers` is what the environment and the
        scheduler offer, possible or not; `turns` is what took place: all of it that was possible. */
    method Consume(qosFails: bool, subscribeFails: bool, offers: seq<Turn>)
      returns (err: bool, ghost turns: seq<Turn>)
      requires State() == Initial(prefetch)
      modifies this
      ensures err <==> qosFails || subscribeFails
      ensures err ==> turns == [] && State() == Initial(prefetch)
      ensures Possible(prefetch, turns) && State() == After(prefetch, turns)
      ensures !err ==> turns == Heeded(prefetch, offers) + (if returned then [Return] else [])
      ensures !err && IsRun(prefetch, offers)
              ==> turns == offers + (if Done(After(prefetch, offers)) then [Return] else [])
      ensures returned <==> draining && wg == 0
      ensures returned ==> handling == {} && exiting == {}
      ensures prefetch > 0 ==> |handling| <= prefetch
    {
      hide Next, Enabled, Heeded, IsRun;
      turns := [];
      if qosFails || subscribeFails {
        return true, turns;
      }
      err := false;
      var i := Select(offers);
      i := Wait(offers, i);
      turns := Heeded(prefetch, offers);
      if draining && wg == 0 {
        MayReturn(State());
        turns := Snoc(prefetch, turns, Return);
        Perform(Return);
        Returned(After(prefetch, Heeded(prefetch, offers)));
      }
      ConsumeIsDisciplined(prefetch, turns);
      if IsRun(prefetch, offers) { RunsAreHeeded(prefetch, offers); }
    }

    /** The select loop. */
    method Select(offers: seq<Turn>) returns (i: nat)
      requires State() == Initial(prefetch)
      modifies this
      ensures i <= |offers| && !returned && State() == After(prefetch, Heeded(prefetch, offers[..i]))
      ensures i < |offers| ==> draining
    {
      hide Next, Enabled, Heeded;
      i := 0;
      NothingYet(prefetch);
      assert offers[..0] == [];
      while i < |offers| && !draining
        invariant i <= |offers| && !returned
        invariant State() == After(prefetch, Heeded(prefetch, offers[..i]))
      {
        HeedOne(prefetch, offers, i);
        if offers[i] != Return { Offer(offers[i]); }
        i := i + 1;
      }
    }

    /** wg.Wait: the goroutines finish. */
    method Wait(offers: seq<Turn>, start: nat) returns (i: nat)
      requires start <= |offers| && !returned && State() == After(prefetch, Heeded(prefetch, offers[..start]))
      requires start < |offers| ==> draining
      modifies this
      ensures !returned && State() == After(prefetch, Heeded(prefetch, offers))
    {
      hide Next, Enabled, Heeded;
      i := start;
      while i < |offers| && wg > 0
        invariant i <= |offers| && !returned && (i < |offers| ==> draining)
        invariant State() == After(prefetch, Heeded(prefetch, offers[..i]))
      {
        HeedOne(prefetch, offers, i);
        if offers[i] != Return { Offer(offers[i]); }
        i := i + 1;
      }
      if i < |offers| {
        AlwaysInv(prefetch, Heeded(prefetch, offers[..i]));
        NothingAfterDone(prefetch, offers, i);
      } else {
        assert offers[..i] == offers;
      }
    }
  }

  lemma NothingYet(prefetch: nat)
    ensures After(prefetch, Heeded(prefetch, [])) == Initial(prefetch)
  {
  }

  lemma MayReturn(l: Loop)
    requires Done(l)
    ensures Enabled(l, Return)
  {
  }

  lemma Returned(l: Loop)
    requires Done(l)
    ensures Next(l, Return) == l.(returned := true)
  {
  }

  /** One more offer before the loop is over. */
  lemma HeedOne(prefetch: nat, offers: seq<Turn>, i: nat)
    requires i < |offers| && !Done(After(prefetch, Heeded(prefetch, offers[..i])))
    ensures var l, t := After(prefetch, Heeded(prefetch, offers[..i])), offers[i];
            After(prefetch, Heeded(prefetch, offers[..i + 1])) == if t != Return && Enabled(l, t) then Next(l, t) else l
  {
    var more := offers[..i + 1];
    assert more[..|more| - 1] == offers[..i];
    var front := Heeded(prefetch, offers[..i]);
    assert (front + [offers[i]])[..|front|] == front;
  }
}
