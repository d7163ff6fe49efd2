/** The fixed-window limiter that gateway replicas share through one Redis key. */
module RateLimit {
  import opened Domain

  datatype Answer = Allowed | Denied | Errored

  datatype CallPc = SettingExpiry | Answered(answer: Answer)

  /** One call whose INCR was executed: the lifetime of the key it hit, the count it got, when. */
  datatype Call = Call(life: nat, count: nat, at: nat, pc: CallPc)

  datatype Limits = Limits(limit: int, window: nat)

  /** The key (absent when `count == 0`), the clock, and history: executed calls, and when each
      lifetime of the key began. The current lifetime is the last of `born`. */
  datatype Redis = Redis(count: nat, expiry: Option<nat>, now: nat, calls: seq<Call>, born: seq<nat>)

  const FRESH := Redis(0, None, 0, [], [])

  /** `Incr`: a replica's INCR reaches Redis. `Expire`: the EXPIRE of call `c` is sent, maybe much later. */
  datatype Action = Tick(ms: nat) | Incr(eff: Effect) | Expire(c: nat, eff: Effect)

  predicate Enabled(r: Redis, a: Action) {
    a.Expire? ==> a.c < |r.calls| && r.calls[a.c].pc == SettingExpiry
  }

  function Life(r: Redis): int { |r.born| - 1 }

  /** An expired key is gone at any time later than its expiry. */
  function Tock(r: Redis, ms: nat): Redis {
    var later := r.(now := r.now + ms);
    if later.expiry.Some? && later.now > later.expiry.value then later.(count := 0, expiry := None) else later
  }

  function CountedBy(p: Limits, count: nat, eff: Effect): CallPc {
    if eff != Works then Answered(Errored)
    else if count == 1 then SettingExpiry
    else Answered(if count <= p.limit then Allowed else Denied)
  }

  function Next(r: Redis, p: Limits, a: Action): Redis
    requires Enabled(r, a)
  {
    match a
    case Tick(ms) => Tock(r, ms)
    case Incr(eff) =>
      if !eff.Landed() then r
      else if r.count == 0 then
        r.(count := 1, born := r.born + [r.now], calls := r.calls + [Call(|r.born|, 1, r.now, CountedBy(p, 1, eff))])
      else
        r.(count := r.count + 1,
           calls := r.calls + [Call(if r.born == [] then 0 else |r.born| - 1, r.count + 1, r.now,
                                    CountedBy(p, r.count + 1, eff))])
    case Expire(c, eff) =>
      var answer := if eff != Works then Errored else if 1 <= p.limit then Allowed else Denied;
      r.(expiry := if eff.Landed() && r.count > 0 then Some(r.now + p.window) else r.expiry,
         calls := r.calls[c := r.calls[c].(pc := Answered(answer))])
  }

  predicate Possible(p: Limits, acts: seq<Action>)
    decreases |acts|, 0
  {
    acts == [] || (Possible(p, acts[..|acts| - 1]) && Enabled(After(p, acts[..|acts| - 1]), acts[|acts| - 1]))
  }

  function After(p: Limits, acts: seq<Action>): Redis
    requires Possible(p, acts)
    decreases |acts|, 1
  {
    if acts == [] then FRESH else Next(After(p, acts[..|acts| - 1]), p, acts[|acts| - 1])
  }

  // ----- counting -----------------------------------------------------------------------------

  /** Executed INCRs in lifetime `life`. */
  function Incrs(calls: seq<Call>, life: nat): nat {
    if calls == [] then 0
    else Incrs(calls[..|calls| - 1], life) + (if calls[|calls| - 1].life == life then 1 else 0)
  }

  /** Calls of lifetime `life` that were allowed. */
  function AllowedIn(calls: seq<Call>, life: nat): nat {
    if calls == [] then 0
    else
      var c := calls[|calls| - 1];
      AllowedIn(calls[..|calls| - 1], life) + (if c.life == life && c.pc == Answered(Allowed) then 1 else 0)
  }

  predicate During(c: Call, from: nat, to: nat) { from <= c.at < to }

  /** Calls counted in the half-open interval and allowed. */
  function AllowedDuring(calls: seq<Call>, from: nat, to: nat): nat {
    if calls == [] then 0
    else
      var c := calls[|calls| - 1];
      AllowedDuring(calls[..|calls| - 1], from, to)
      + (if During(c, from, to) && c.pc == Answered(Allowed) then 1 else 0)
  }

  function Cap(limit: int): nat { if limit < 0 then 0 else limit }

  function Min(a: nat, b: nat): nat { if a < b then a else b }

  // ----- the invariant ---------------------------------------------------------------------------

  /** A call's count is its rank in its lifetime, and its answer follows from it. */
  predicate CallOk(r: Redis, p: Limits, c: nat)
    requires c < |r.calls|
  {
    var call := r.calls[c];
    && call.life < |r.born|
    && call.count == Incrs(r.calls[..c], call.life) + 1
    && r.born[call.life] <= call.at <= r.now
    && (call.life + 1 < |r.born| ==> call.at <= r.born[call.life + 1])
    && (call.pc == Answered(Allowed) ==> call.count <= p.limit)
    && (call.pc == Answered(Denied) ==> call.count > p.limit)
    && (call.pc == SettingExpiry ==> call.count == 1 && r.count > 0 && r.expiry.None? && call.life == Life(r))
  }

  predicate BirthOk(r: Redis, p: Limits, i: nat)
    requires i < |r.born|
  {
    && r.born[i] <= r.now
    && (i + 1 < |r.born| ==> r.born[i] + p.window < r.born[i + 1])
  }

  predicate KeyOk(r: Redis, p: Limits) {
    && (r.count > 0 ==> r.born != [] && r.count == Incrs(r.calls, |r.born| - 1))
    && (r.count == 0 ==> r.expiry.None? && (r.born != [] ==> r.born[|r.born| - 1] + p.window < r.now))
    && (r.expiry.Some? ==> r.born != [] && r.born[|r.born| - 1] + p.window <= r.expiry.value)
    && (r.expiry.Some? ==> r.now <= r.expiry.value)
    && Incrs(r.calls, |r.born|) == 0
  }

  predicate CallsOk(r: Redis, p: Limits) { forall c :: 0 <= c < |r.calls| ==> CallOk(r, p, c) }
  predicate BirthsOk(r: Redis, p: Limits) { forall i :: 0 <= i < |r.born| ==> BirthOk(r, p, i) }

  /** At most the newest lifetime has an EXPIRE outstanding, and only one. */
  predicate OnePending(r: Redis) {
    forall c, d :: (0 <= c < |r.calls| && 0 <= d < |r.calls|
                    && r.calls[c].pc == SettingExpiry == r.calls[d].pc) ==> c == d
  }

  predicate Inv(r: Redis, p: Limits) { KeyOk(r, p) && CallsOk(r, p) && BirthsOk(r, p) && OnePending(r) }

  lemma IncrsAppend(calls: seq<Call>, c: Call, life: nat)
    ensures Incrs(calls + [c], life) == Incrs(calls, life) + (if c.life == life then 1 else 0)
  {
    assert (calls + [c])[..|calls|] == calls;
  }

  lemma {:induction false} IncrsUpdate(calls: seq<Call>, i: nat, c: Call, life: nat)
    requires i < |calls| && c.life == calls[i].life
    ensures Incrs(calls[i := c], life) == Incrs(calls, life)
  {
    var after := calls[i := c];
    if i == |calls| - 1 {
      assert after[..i] == calls[..i];
    } else {
      assert after[..|calls| - 1] == calls[..|calls| - 1][i := c];
      IncrsUpdate(calls[..|calls| - 1], i, c, life);
    }
  }

  lemma {:induction false} NoneOfLife(calls: seq<Call>, life: nat)
    requires forall e :: 0 <= e < |calls| ==> calls[e].life != life
    ensures Incrs(calls, life) == 0
  {
    if calls == [] {
    } else {
      NoneOfLife(calls[..|calls| - 1], life);
    }
  }

  lemma TickKeeps(r: Redis, p: Limits, ms: nat)
    requires Inv(r, p)
    ensures Inv(Tock(r, ms), p)
  {
    var t := Tock(r, ms);
    forall c | 0 <= c < |t.calls| ensures CallOk(t, p, c) { assert CallOk(r, p, c); }
    forall i | 0 <= i < |t.born| ensures BirthOk(t, p, i) { assert BirthOk(r, p, i); }
  }

  lemma IncrKeeps(r: Redis, p: Limits, eff: Effect)
    requires Inv(r, p) && eff.Landed()
    ensures Inv(Next(r, p, Incr(eff)), p)
  {
    var t := Next(r, p, Incr(eff));
    forall c | 0 <= c < |t.calls| ensures CallOk(t, p, c) {
      if c < |r.calls| { assert CallOk(r, p, c); OldCallKept(r, p, eff, c); } else { NewCall(r, p, eff); }
    }
    forall i | 0 <= i < |t.born| ensures BirthOk(t, p, i) {
      if i < |r.born| { assert BirthOk(r, p, i); }
    }
    NewKey(r, p, eff);
    forall c | 0 <= c < |r.calls| ensures r.calls[c].pc == SettingExpiry ==> r.count > 0 { assert CallOk(r, p, c); }
    assert OnePending(t);
  }

  lemma OldCallKept(r: Redis, p: Limits, eff: Effect, c: nat)
    requires KeyOk(r, p) && eff.Landed() && c < |r.calls| && CallOk(r, p, c)
    ensures CallOk(Next(r, p, Incr(eff)), p, c)
  {
    assert Next(r, p, Incr(eff)).calls[..c] == r.calls[..c];
  }

  lemma NewCall(r: Redis, p: Limits, eff: Effect)
    requires KeyOk(r, p) && BirthsOk(r, p) && OnePending(r) && eff.Landed()
    ensures CallOk(Next(r, p, Incr(eff)), p, |r.calls|)
  {
    var t := Next(r, p, Incr(eff));
    assert t.calls[..|r.calls|] == r.calls;
    if r.count > 0 { assert BirthOk(r, p, |r.born| - 1); }
  }

  lemma NewKey(r: Redis, p: Limits, eff: Effect)
    requires KeyOk(r, p) && CallsOk(r, p) && eff.Landed()
    ensures KeyOk(Next(r, p, Incr(eff)), p)
  {
    hide Incrs;
    var t := Next(r, p, Incr(eff));
    var call := t.calls[|r.calls|];
    assert t.calls == r.calls + [call];
    IncrsAppend(r.calls, call, |t.born| - 1);
    IncrsAppend(r.calls, call, |t.born|);
    assert forall c :: 0 <= c < |r.calls| ==> CallOk(r, p, c) && r.calls[c].life < |t.born|;
    NoneOfLife(r.calls, |t.born|);
  }

  lemma ExpireKeeps(r: Redis, p: Limits, c: nat, eff: Effect)
    requires Inv(r, p) && Enabled(r, Expire(c, eff))
    ensures Inv(Next(r, p, Expire(c, eff)), p)
  {
    var t := Next(r, p, Expire(c, eff));
    assert CallOk(r, p, c);
    forall d | 0 <= d < |t.calls| ensures CallOk(t, p, d) {
      assert CallOk(r, p, d);
      if c < d {
        assert t.calls[..d] == r.calls[..d][c := t.calls[c]];
        IncrsUpdate(r.calls[..d], c, t.calls[c], r.calls[d].life);
      } else {
        assert t.calls[..d] == r.calls[..d];
      }
    }
    forall i | 0 <= i < |t.born| ensures BirthOk(t, p, i) { assert BirthOk(r, p, i); }
    IncrsUpdate(r.calls, c, t.calls[c], |r.born| - 1);
    IncrsUpdate(r.calls, c, t.calls[c], |r.born|);
    assert BirthOk(r, p, |r.born| - 1);
  }

  lemma StepKeeps(r: Redis, p: Limits, a: Action)
    requires Inv(r, p) && Enabled(r, a)
    ensures Inv(Next(r, p, a), p)
  {
    match a
    case Tick(ms) => TickKeeps(r, p, ms);
    case Incr(eff) => if eff.Landed() { IncrKeeps(r, p, eff); }
    case Expire(c, eff) => ExpireKeeps(r, p, c, eff);
  }

  lemma {:induction false} AlwaysInv(p: Limits, acts: seq<Action>)
    requires Possible(p, acts)
    ensures Inv(After(p, acts), p)
  {
    hide Inv, Next;
    if acts == [] {
      FreshInv(p);
    } else {
      AlwaysInv(p, acts[..|acts| - 1]);
      StepKeeps(After(p, acts[..|acts| - 1]), p, acts[|acts| - 1]);
    }
  }

  lemma FreshInv(p: Limits)
    ensures Inv(FRESH, p)
  {
  }

  // ----- what the limiter guarantees ------------------------------------------------------------------

  /** Across all replicas, an error-free call is allowed exactly when fewer than `limit` INCRs
      came before it in its lifetime of the key. */
  lemma AllowedIffEarly(p: Limits, acts: seq<Action>, c: nat)
    requires Possible(p, acts) && c < |After(p, acts).calls|
    requires After(p, acts).calls[c].pc in {Answered(Allowed), Answered(Denied)}
    ensures var calls := After(p, acts).calls;
            calls[c].pc == Answered(Allowed) <==> Incrs(calls[..c], calls[c].life) < p.limit
  {
    AlwaysInv(p, acts);
    assert CallOk(After(p, acts), p, c);
  }

  /** An EXPIRE, however late, sets the expiry of the very lifetime whose INCR returned 1, which is
      still alive and has no expiry yet. */
  lemma ExpireHitsItsOwnLifetime(p: Limits, acts: seq<Action>, c: nat)
    requires Possible(p, acts) && Enabled(After(p, acts), Expire(c, Works))
    ensures var r := After(p, acts);
            r.count > 0 && r.expiry.None? && r.calls[c].life == Life(r) && r.calls[c].count == 1
  {
    AlwaysInv(p, acts);
    assert CallOk(After(p, acts), p, c);
  }

  lemma {:induction false} AllowedAtMostCap(r: Redis, p: Limits, n: nat, life: nat)
    requires CallsOk(r, p) && n <= |r.calls|
    ensures AllowedIn(r.calls[..n], life) <= Min(Incrs(r.calls[..n], life), Cap(p.limit))
  {
    if n == 0 {
    } else {
      AllowedAtMostCap(r, p, n - 1, life);
      assert r.calls[..n][..n - 1] == r.calls[..n - 1];
      assert CallOk(r, p, n - 1);
    }
  }

  /** No lifetime counts more than `limit` allowed calls. */
  lemma LifetimeCount(p: Limits, acts: seq<Action>, life: nat)
    requires Possible(p, acts)
    ensures AllowedIn(After(p, acts).calls, life) <= Cap(p.limit)
  {
    AlwaysInv(p, acts);
    var r := After(p, acts);
    AllowedAtMostCap(r, p, |r.calls|, life);
    assert r.calls[..|r.calls|] == r.calls;
  }

  lemma {:induction false} AllowedInCounts(calls: seq<Call>, life: nat)
    ensures AllowedIn(calls, life)
         == |set c | 0 <= c < |calls| && calls[c].life == life && calls[c].pc == Answered(Allowed)|
  {
    var all := set c | 0 <= c < |calls| && calls[c].life == life && calls[c].pc == Answered(Allowed);
    if calls == [] {
      assert all == {};
    } else {
      var n := |calls| - 1;
      var front := calls[..n];
      AllowedInCounts(front, life);
      var before := set c | 0 <= c < |front| && front[c].life == life && front[c].pc == Answered(Allowed);
      assert all == if n in all then before + {n} else before;
    }
  }

  lemma {:induction false} AllowedDuringCounts(calls: seq<Call>, from: nat, to: nat)
    ensures AllowedDuring(calls, from, to)
         == |set c | 0 <= c < |calls| && from <= calls[c].at < to && calls[c].pc == Answered(Allowed)|
  {
    var all := set c | 0 <= c < |calls| && from <= calls[c].at < to && calls[c].pc == Answered(Allowed);
    if calls == [] {
      assert all == {};
    } else {
      var n := |calls| - 1;
      var front := calls[..n];
      AllowedDuringCounts(front, from, to);
      var before := set c | 0 <= c < |front| && from <= front[c].at < to && front[c].pc == Answered(Allowed);
      assert all == if n in all then before + {n} else before;
    }
  }

  /** No lifetime allows more than `limit` calls. */
  lemma LifetimeBound(p: Limits, acts: seq<Action>, life: nat)
    requires Possible(p, acts)
    ensures var calls := After(p, acts).calls;
            |set c | 0 <= c < |calls| && calls[c].life == life && calls[c].pc == Answered(Allowed)|
            <= if p.limit < 0 then 0 else p.limit
  {
    LifetimeCount(p, acts, life);
    AllowedInCounts(After(p, acts).calls, life);
  }

  /** Calls in an interval no longer than the window fall into two adjacent lifetimes. */
  lemma TwoLifetimes(r: Redis, p: Limits, from: nat, c: nat, d: nat)
    requires Inv(r, p) && c < |r.calls| && d < |r.calls|
    requires During(r.calls[c], from, from + p.window) && During(r.calls[d], from, from + p.window)
    ensures r.calls[d].life <= r.calls[c].life + 1
  {
    assert CallOk(r, p, c) && CallOk(r, p, d);
    if r.calls[d].life >= r.calls[c].life + 2 {
      var l := r.calls[c].life;
      assert BirthOk(r, p, l + 1);
      BornInOrder(r, p, l + 2, r.calls[d].life);
    }
  }

  lemma {:induction false} BornInOrder(r: Redis, p: Limits, i: nat, j: nat)
    requires BirthsOk(r, p) && i <= j < |r.born|
    ensures r.born[i] <= r.born[j]
  {
    if i == j {
    } else {
      BornInOrder(r, p, i, j - 1);
      assert BirthOk(r, p, j - 1);
    }
  }

  lemma {:induction false} SplitByLife(calls: seq<Call>, from: nat, to: nat, life: nat)
    requires forall c :: 0 <= c < |calls| && During(calls[c], from, to) ==> calls[c].life in {life, life + 1}
    ensures AllowedDuring(calls, from, to) <= AllowedIn(calls, life) + AllowedIn(calls, life + 1)
  {
    if calls == [] {
    } else {
      SplitByLife(calls[..|calls| - 1], from, to, life);
    }
  }

  lemma {:induction false} NoneDuring(calls: seq<Call>, from: nat, to: nat)
    requires forall c :: 0 <= c < |calls| ==> !During(calls[c], from, to)
    ensures AllowedDuring(calls, from, to) == 0
  {
    if calls == [] {
    } else {
      NoneDuring(calls[..|calls| - 1], from, to);
    }
  }

  /** The smallest lifetime among the calls of an interval. */
  lemma {:induction false} Earliest(calls: seq<Call>, from: nat, to: nat, n: nat) returns (e: nat)
    requires n <= |calls| && exists c :: 0 <= c < n && During(calls[c], from, to)
    ensures e < n && During(calls[e], from, to)
    ensures forall c :: 0 <= c < n && During(calls[c], from, to) ==> calls[e].life <= calls[c].life
  {
    if c :| 0 <= c < n - 1 && During(calls[c], from, to) {
      e := Earliest(calls, from, to, n - 1);
      if During(calls[n - 1], from, to) && calls[n - 1].life < calls[e].life { e := n - 1; }
    } else {
      e := n - 1;
    }
  }

  lemma AdjacentBound(r: Redis, p: Limits, from: nat)
    requires Inv(r, p)
    requires forall life: nat :: AllowedIn(r.calls, life) <= Cap(p.limit)
    ensures AllowedDuring(r.calls, from, from + p.window) <= 2 * Cap(p.limit)
  {
    hide Inv;
    if exists c :: 0 <= c < |r.calls| && During(r.calls[c], from, from + p.window) {
      var e := Earliest(r.calls, from, from + p.window, |r.calls|);
      var life := r.calls[e].life;
      forall c | 0 <= c < |r.calls| && During(r.calls[c], from, from + p.window)
        ensures r.calls[c].life in {life, life + 1}
      {
        TwoLifetimes(r, p, from, e, c);
      }
      SplitByLife(r.calls, from, from + p.window, life);
    } else {
      NoneDuring(r.calls, from, from + p.window);
    }
  }

  /** Over any run of any number of replicas, at most 2 * limit calls counted within one window's
      length of each other are allowed. */
  lemma WindowBound(p: Limits, acts: seq<Action>, from: nat)
    requires Possible(p, acts)
    ensures var calls := After(p, acts).calls;
            |set c | 0 <= c < |calls| && from <= calls[c].at < from + p.window && calls[c].pc == Answered(Allowed)|
            <= if p.limit < 0 then 0 else 2 * p.limit
  {
    AlwaysInv(p, acts);
    forall life: nat ensures AllowedIn(After(p, acts).calls, life) <= Cap(p.limit) {
      LifetimeCount(p, acts, life);
    }
    AdjacentBound(After(p, acts), p, from);
    AllowedDuringCounts(After(p, acts).calls, from, from + p.window);
  }

  // ----- when a window ends ---------------------------------------------------------------------------------

  /** Lifetime `life` ends at `end`: the calls counted later are exactly those of later lifetimes. */
  predicate EndsAt(r: Redis, life: nat, end: nat) {
    && life < |r.born|
    && (forall d :: 0 <= d < |r.calls| ==> (r.calls[d].at > end <==> r.calls[d].life > life))
    && (Life(r) == life && r.count > 0 ==> r.expiry == Some(end))
    && (Life(r) == life && r.count == 0 ==> r.now > end)
    && (Life(r) > life ==> r.now > end)
  }

  lemma ExpireSetsTheEnd(r: Redis, p: Limits, c: nat, eff: Effect)
    requires Inv(r, p) && Enabled(r, Expire(c, eff)) && eff.Landed()
    ensures EndsAt(Next(r, p, Expire(c, eff)), r.calls[c].life, r.now + p.window)
  {
    assert CallOk(r, p, c);
    forall d | 0 <= d < |r.calls| ensures r.calls[d].at <= r.now && r.calls[d].life <= r.calls[c].life {
      assert CallOk(r, p, d);
    }
  }

  lemma EndIsKept(r: Redis, p: Limits, a: Action, life: nat, end: nat)
    requires Inv(r, p) && Enabled(r, a) && EndsAt(r, life, end)
    ensures EndsAt(Next(r, p, a), life, end)
  {
    if a.Expire? { assert CallOk(r, p, a.c); }
  }

  /** If the EXPIRE of call `c` lands at time t, then in every continuation the calls counted later than
      t + window are exactly those of later lifetimes: the window ends then, not earlier, not later. */
  lemma {:induction false} WindowEnds(p: Limits, acts: seq<Action>, c: nat, eff: Effect, more: seq<Action>)
    requires Possible(p, acts) && Enabled(After(p, acts), Expire(c, eff)) && eff.Landed()
    requires Possible(p, acts + [Expire(c, eff)]) && Possible(p, acts + [Expire(c, eff)] + more)
    ensures var r := After(p, acts);
            EndsAt(After(p, acts + [Expire(c, eff)] + more), r.calls[c].life, r.now + p.window)
  {
    hide Next, EndsAt, Inv;
    var run := acts + [Expire(c, eff)];
    if more == [] {
      assert run + more == run && run[..|acts|] == acts;
      AlwaysInv(p, acts);
      ExpireSetsTheEnd(After(p, acts), p, c, eff);
    } else {
      var front, all := more[..|more| - 1], run + more;
      assert all[..|all| - 1] == run + front;
      WindowEnds(p, acts, c, eff, front);
      AlwaysInv(p, run + front);
      var r := After(p, acts);
      EndIsKept(After(p, run + front), p, more[|more| - 1], r.calls[c].life, r.now + p.window);
    }
  }

  /** So the first call counted after the window has rank 1, and if it meets no error it is allowed under
      every positive limit. */
  lemma FirstAfterWindow(p: Limits, acts: seq<Action>, c: nat, eff: Effect, more: seq<Action>, d: nat)
    requires Possible(p, acts) && Enabled(After(p, acts), Expire(c, eff)) && eff.Landed()
    requires Possible(p, acts + [Expire(c, eff)]) && Possible(p, acts + [Expire(c, eff)] + more)
    requires var calls, end := After(p, acts + [Expire(c, eff)] + more).calls, After(p, acts).now + p.window;
             d < |calls| && calls[d].at > end && forall e :: 0 <= e < d ==> calls[e].at <= end
    ensures var call := After(p, acts + [Expire(c, eff)] + more).calls[d];
            call.count == 1 && (call.pc in {Answered(Allowed), Answered(Denied)}
                                ==> (call.pc == Answered(Allowed) <==> p.limit >= 1))
  {
    hide Next, Enabled;
    WindowEnds(p, acts, c, eff, more);
    var r := After(p, acts + [Expire(c, eff)] + more);
    AlwaysInv(p, acts + [Expire(c, eff)] + more);
    assert CallOk(r, p, d);
    NoneOfLife(r.calls[..d], r.calls[d].life);
  }

  // ----- when the window never resets --------------------------------------------------------------------

  /** The key is counting and nobody is going to set its expiry. */
  predicate Stuck(r: Redis) {
    r.count > 0 && r.expiry.None? && forall c :: 0 <= c < |r.calls| ==> r.calls[c].pc != SettingExpiry
  }

  predicate Resets(p: Limits, r: Redis, more: seq<Action>)
    decreases |more|
  {
    more != [] && Enabled(r, more[0]) && (Next(r, p, more[0]).count == 0 || Resets(p, Next(r, p, more[0]), more[1..]))
  }

  ghost predicate CanReset(p: Limits, r: Redis) { exists more :: Resets(p, r, more) }

  lemma {:induction false} StuckNeverResets(p: Limits, r: Redis, more: seq<Action>)
    requires Stuck(r)
    ensures !Resets(p, r, more)
    decreases |more|
  {
    if more == [] || !Enabled(r, more[0]) {
    } else {
      var t := Next(r, p, more[0]);
      assert Stuck(t);
      StuckNeverResets(p, t, more[1..]);
    }
  }

  /** A counting key's window can still reset exactly when its expiry is set or its first caller has
      yet to send EXPIRE: one failed EXPIRE, or one INCR whose reply was lost, makes it permanent. */
  lemma ResetsIffExpiryComes(p: Limits, acts: seq<Action>)
    requires Possible(p, acts) && After(p, acts).count > 0
    ensures CanReset(p, After(p, acts)) <==> !Stuck(After(p, acts))
  {
    AlwaysInv(p, acts);
    if Stuck(After(p, acts)) {
      forall more ensures !Resets(p, After(p, acts), more) { StuckNeverResets(p, After(p, acts), more); }
    } else {
      var more := ResettingRun(After(p, acts), p);
    }
  }

  /** One failed EXPIRE is enough to get there ... */
  lemma FailedExpireSticks(p: Limits)
    ensures Possible(p, [Incr(Works), Expire(0, Fails)]) && Stuck(After(p, [Incr(Works), Expire(0, Fails)]))
    ensures After(p, [Incr(Works), Expire(0, Fails)]).count == 1
  {
    var acts := [Incr(Works), Expire(0, Fails)];
    assert acts[..1] == [Incr(Works)] && [Incr(Works)][..0] == [];
    var r := After(p, [Incr(Works)]);
    assert r == Next(FRESH, p, Incr(Works));
    assert After(p, acts) == Next(r, p, Expire(0, Fails));
  }

  /** ... and so is one INCR whose reply was lost. */
  lemma LostReplySticks(p: Limits)
    ensures Possible(p, [Incr(Ambiguous)]) && Stuck(After(p, [Incr(Ambiguous)]))
    ensures After(p, [Incr(Ambiguous)]).count == 1
  {
    assert [Incr(Ambiguous)][..0] == [];
    assert After(p, [Incr(Ambiguous)]) == Next(FRESH, p, Incr(Ambiguous));
  }

  /** From a stuck key `r` to `t`: still stuck, every new call is counted, and each is answered by
      its count alone, unless its reply is lost. */
  predicate CountsOn(p: Limits, r: Redis, t: Redis) {
    && Stuck(t) && r.count <= t.count && r.calls <= t.calls
    && |t.calls| - |r.calls| == t.count - r.count
    && forall c :: |r.calls| <= c < |t.calls| ==>
         && t.calls[c].count == r.count + (c - |r.calls|) + 1
         && t.calls[c].pc in {Answered(Errored), Answered(if t.calls[c].count <= p.limit then Allowed else Denied)}
  }

  lemma StuckStep(p: Limits, r: Redis, t: Redis, a: Action)
    requires r.count > 0 && CountsOn(p, r, t) && Enabled(t, a)
    ensures CountsOn(p, r, Next(t, p, a))
  {
  }

  /** A stuck key stays stuck and counts on. */
  lemma {:induction false} StuckForGood(p: Limits, acts: seq<Action>, more: seq<Action>)
    requires Possible(p, acts) && Possible(p, acts + more) && Stuck(After(p, acts))
    ensures CountsOn(p, After(p, acts), After(p, acts + more))
  {
    hide Next, Enabled;
    if more == [] {
      assert acts + more == acts;
    } else {
      var front, all := more[..|more| - 1], acts + more;
      assert all[..|all| - 1] == acts + front;
      StuckForGood(p, acts, front);
      StuckStep(p, After(p, acts), After(p, acts + front), more[|more| - 1]);
    }
  }

  /** Once a stuck key has counted to the limit, no call is ever allowed again: each is denied, or
      meets an error. */
  lemma StuckDeniesForGood(p: Limits, acts: seq<Action>, more: seq<Action>)
    requires Possible(p, acts) && Possible(p, acts + more)
    requires Stuck(After(p, acts)) && After(p, acts).count >= p.limit
    ensures var r, t := After(p, acts), After(p, acts + more);
            && |r.calls| <= |t.calls|
            && forall c :: |r.calls| <= c < |t.calls| ==> t.calls[c].pc in {Answered(Denied), Answered(Errored)}
  {
    StuckForGood(p, acts, more);
  }

  lemma ResettingRun(r: Redis, p: Limits) returns (more: seq<Action>)
    requires Inv(r, p) && r.count > 0 && !Stuck(r)
    ensures Resets(p, r, more)
  {
    if r.expiry.Some? {
      more := [Tick(r.expiry.value + 1 - r.now)];
      assert Next(r, p, more[0]).count == 0;
    } else {
      var c :| 0 <= c < |r.calls| && r.calls[c].pc == SettingExpiry;
      more := [Expire(c, Works), Tick(p.window + 1)];
      assert more[1..] == [Tick(p.window + 1)];
      assert CallOk(r, p, c);
      var t := Next(r, p, Expire(c, Works));
      assert Next(t, p, Tick(p.window + 1)).count == 0;
      assert Resets(p, t, more[1..]);
    }
  }

  // ----- the code ----------------------------------------------------------------------------------------------

  predicate NotOf(acts: seq<Action>, c: nat) {
    forall i :: 0 <= i < |acts| && acts[i].Expire? ==> acts[i].c != c
  }

  lemma {:induction false} OthersLeaveCallAlone(p: Limits, acts: seq<Action>, more: seq<Action>, c: nat)
    requires Possible(p, acts) && Possible(p, acts + more) && NotOf(more, c) && c < |After(p, acts).calls|
    ensures c < |After(p, acts + more).calls|
    ensures After(p, acts + more).calls[c] == After(p, acts).calls[c]
  {
    if more == [] {
      assert acts + more == acts;
    } else {
      var front, all := more[..|more| - 1], acts + more;
      assert all[..|all| - 1] == acts + front;
      OthersLeaveCallAlone(p, acts, front, c);
    }
  }

  class RedisServer {
    var key: Redis
    ghost const limits: Limits
    ghost var trace: seq<Action>

    constructor (ghost limits: Limits)
      ensures Valid() && key == FRESH && this.limits == limits
    {
      key := FRESH;
      this.limits := limits;
      trace := [];
    }

    ghost predicate Valid()
      reads this
    {
      Possible(limits, trace) && After(limits, trace) == key
    }

    ghost predicate Pending(c: nat, pc: CallPc)
      reads this
    {
      c < |key.calls| && key.calls[c].pc == pc
    }

    /** Other replicas and the clock: anything but the EXPIRE of call `c`. */
    method Interfere(ghost c: nat) returns (ghost more: seq<Action>)
      requires Valid()
      modifies this
      ensures Valid() && trace == old(trace) + more && NotOf(more, c)
    {
      more := [];
    }

    /** ... leaves call `c` as it was. */
    method Yield(ghost c: nat, ghost pc: CallPc)
      requires Valid() && Pending(c, pc)
      modifies this
      ensures Valid() && Pending(c, pc) && old(trace) <= trace
      ensures key.calls[c] == old(key.calls[c])
    {
      ghost var more := Interfere(c);
      OthersLeaveCallAlone(limits, old(trace), more, c);
    }

    ghost method Record(r: Redis, a: Action)
      requires Possible(limits, trace) && After(limits, trace) == r && Enabled(r, a) && key == Next(r, limits, a)
      modifies this`trace
      ensures Valid() && trace == old(trace) + [a]
    {
      var longer := trace + [a];
      assert longer[..|trace|] == trace;
      trace := longer;
    }

    /** INCR: the reply carries the count; a lost reply is an error although the key was counted. */
    method Incr(p: Limits, eff: Effect) returns (count: nat, err: bool, c: nat)
      requires Valid() && p == limits
      modifies this
      ensures Valid() && trace == old(trace) + [Action.Incr(eff)]
      ensures err <==> eff != Works
      ensures c == |old(key.calls)|
      ensures !err ==> |key.calls| == c + 1 && key.calls[c].count == count > 0
                       && key.calls[c].pc == CountedBy(p, count, Works)
    {
      ghost var r := key;
      c := |key.calls|;
      key := Next(key, p, Action.Incr(eff));
      count := key.count;
      err := eff != Works;
      Record(r, Action.Incr(eff));
    }

    method Expire(p: Limits, c: nat, eff: Effect) returns (err: bool)
      requires Valid() && p == limits && Pending(c, SettingExpiry)
      modifies this
      ensures Valid() && trace == old(trace) + [Action.Expire(c, eff)]
      ensures err <==> eff != Works
      ensures Pending(c, Answered(if err then Errored else if 1 <= p.limit then Allowed else Denied))
      ensures key.calls[c].count == old(key.calls[c].count)
      ensures key.now == old(key.now)
      ensures key.expiry == if eff.Landed() then Some(key.now + p.window) else None
    {
      ghost var r := key;
      AlwaysInv(limits, trace);
      assert CallOk(key, p, c);
      key := Next(key, p, Action.Expire(c, eff));
      err := eff != Works;
      Record(r, Action.Expire(c, eff));
    }
  }

  class RedisLimiter {
    const server: RedisServer
    const p: Limits

    constructor (server: RedisServer, p: Limits)
      ensures this.server == server && this.p == p
    {
      this.server := server;
      this.p := p;
    }

    /** One call by one replica, the others interfering between its two commands. `incr` and
        `expire` are how the commands go; only the first call of a lifetime sends the second. */
    method Allow(incr: Effect, expire: Effect) returns (allowed: bool, err: bool, c: nat)
      requires server.Valid() && p == server.limits
      modifies server
      ensures server.Valid() && old(server.trace) + [Action.Incr(incr)] <= server.trace
      ensures c == |old(server.key.calls)|
      ensures incr != Works ==> err && server.trace == old(server.trace) + [Action.Incr(incr)]
      ensures incr == Works ==>
                && server.Pending(c, Answered(if err then Errored else if allowed then Allowed else Denied))
                && (err <==> server.key.calls[c].count == 1 && expire != Works)
      ensures incr == Works && server.key.calls[c].count == 1
              ==> server.trace[|server.trace| - 1] == Action.Expire(c, expire)
                  && server.key.expiry == if expire.Landed() then Some(server.key.now + p.window) else None
      ensures err ==> !allowed
    {
      var count: nat;
      count, err, c := server.Incr(p, incr);
      if err { return false, true, c; }
      if count == 1 {
        server.Yield(c, SettingExpiry);
        err := server.Expire(p, c, expire);
        if err { return false, true, c; }
      }
      allowed := count <= p.limit;
    }
  }
}
