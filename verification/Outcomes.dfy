/** How many outcomes one video can be told: why DONE and FAILED can meet on one row, and when they cannot. */
module Outcomes {
  import opened Domain
  import opened VideoTable
  import opened Protocol
  import opened Invariant
  import opened Safety
  import Guarantees

  // ----- one job per video ----------------------------------------------------------------------

  predicate IsJobFor(s: Sys, m: nat, id: Uuid) {
    m < |s.msgs| && s.msgs[m].body.JobMsg? && s.msgs[m].body.job.videoId == id
  }

  ghost predicate OneJobEach(s: Sys) {
    forall m: nat, n: nat, id: Uuid :: IsJobFor(s, m, id) && IsJobFor(s, n, id) ==> m == n
  }

  lemma OneJobKept(s: Sys, fx: Extractor, a: Action)
    requires Inv(s, fx) && OneJobEach(s) && Enabled(s, a)
    ensures OneJobEach(Next(s, fx, a))
  {
    hide Inv, Extends;
    var t := Next(s, fx, a);
    StepExtends(s, fx, a);
    SameBodies(s, t);
    if a.PublishJob? {
      forall m | 0 <= m < |s.msgs| && s.msgs[m].body.JobMsg?
        ensures s.msgs[m].body.job.videoId != s.uploads[a.u].id
      {
        FirstJob(s, fx, a, m);
      }
    } else {
      NewBodies(s, fx, a);
    }
    forall m: nat, n: nat, id: Uuid | IsJobFor(t, m, id) && IsJobFor(t, n, id) ensures m == n {
      assert m < |s.msgs| ==> IsJobFor(s, m, id);
      assert n < |s.msgs| ==> IsJobFor(s, n, id);
    }
  }

  lemma SameBodies(s: Sys, t: Sys)
    requires Extends(s, t)
    ensures |s.msgs| <= |t.msgs| && forall m :: 0 <= m < |s.msgs| ==> t.msgs[m].body == s.msgs[m].body
  {
  }

  /** A job message exists only once its upload has been answered. */
  lemma FirstJob(s: Sys, fx: Extractor, a: Action, m: nat)
    requires Inv(s, fx) && Enabled(s, a) && a.PublishJob? && m < |s.msgs| && s.msgs[m].body.JobMsg?
    ensures s.msgs[m].body.job.videoId != s.uploads[a.u].id
  {
    assert UploadOk(s, a.u);
    assert BodyOk(s, fx, s.msgs[m].body);
  }

  lemma NewBodies(s: Sys, fx: Extractor, a: Action)
    requires Enabled(s, a) && !a.PublishJob?
    ensures forall m :: |s.msgs| <= m < |Next(s, fx, a).msgs| ==> !Next(s, fx, a).msgs[m].body.JobMsg?
  {
  }

  // ----- one handler per delivery ------------------------------------------------------------------

  /** How many handlers were started for message `m`. */
  function HandlersOf(hs: seq<Handler>, m: nat): nat {
    if hs == [] then 0 else HandlersOf(hs[..|hs| - 1], m) + (if hs[|hs| - 1].msg == m then 1 else 0)
  }

  lemma {:induction false} HandlersOfUpdate(hs: seq<Handler>, h: nat, x: Handler, m: nat)
    requires h < |hs| && x.msg == hs[h].msg
    ensures HandlersOf(hs[h := x], m) == HandlersOf(hs, m)
  {
    var gs := hs[h := x];
    if h == |hs| - 1 {
      assert gs[..h] == hs[..h];
    } else {
      assert gs[..|hs| - 1] == hs[..|hs| - 1][h := x];
      HandlersOfUpdate(hs[..|hs| - 1], h, x, m);
    }
  }

  /** Every step starts one handler for the message it delivers, and otherwise none. */
  lemma HandlersOfStep(s: Sys, fx: Extractor, a: Action, m: nat)
    requires Enabled(s, a)
    ensures HandlersOf(Next(s, fx, a).handlers, m) == HandlersOf(s.handlers, m) + (if a == Deliver(m) then 1 else 0)
  {
    hide HandlersOf;
    var t := Next(s, fx, a);
    Untouched(s, fx, a);
    if a.Deliver? {
      HandlersOfAppend(s.handlers, t.handlers[|s.handlers|], m);
      assert t.handlers == s.handlers + [t.handlers[|s.handlers|]];
    } else if a.OfWorker() || a.OfConsumer() {
      assert t.handlers == s.handlers[a.h := t.handlers[a.h]];
      HandlersOfUpdate(s.handlers, a.h, t.handlers[a.h], m);
    }
  }

  lemma HandlersOfAppend(hs: seq<Handler>, x: Handler, m: nat)
    ensures HandlersOf(hs + [x], m) == HandlersOf(hs, m) + (if x.msg == m then 1 else 0)
  {
    assert (hs + [x])[..|hs|] == hs;
  }

  lemma {:induction false} HandlersAreDeliveries(fx: Extractor, acts: seq<Action>, m: nat)
    requires Possible(INIT, fx, acts)
    ensures HandlersOf(After(INIT, fx, acts).handlers, m) == multiset(acts)[Deliver(m)]
    ensures OneJobEach(After(INIT, fx, acts))
  {
    hide Next, Enabled, OneJobEach;
    if acts == [] {
      NoJobs();
    } else {
      var front, a := acts[..|acts| - 1], acts[|acts| - 1];
      HandlersAreDeliveries(fx, front, m);
      assert acts == front + [a];
      assert multiset(acts) == multiset(front) + multiset{a};
      var s := After(INIT, fx, front);
      assert Reachable(s, fx);
      ReachableInv(s, fx);
      HandlersOfStep(s, fx, a, m);
      OneJobKept(s, fx, a);
    }
  }

  lemma NoJobs()
    ensures OneJobEach(INIT)
  {
  }

  // ----- counting outcomes ----------------------------------------------------------------------------

  predicate IsOutcome(p: Publication, id: Uuid) { p.event.Terminal() && p.event.videoId == id }

  /** Terminal events published for video `id`. */
  function OutcomesFor(ps: seq<Publication>, id: Uuid): nat {
    if ps == [] then 0
    else OutcomesFor(ps[..|ps| - 1], id) + (if IsOutcome(ps[|ps| - 1], id) then 1 else 0)
  }

  /** The same count, author by author. */
  function ByAuthor(hs: seq<Handler>, m: nat, ps: seq<Publication>, n: nat): nat
    requires n <= |hs|
  {
    if n == 0 then 0
    else ByAuthor(hs, m, ps, n - 1) + (if hs[n - 1].msg == m then Terminals(ps, n - 1) else 0)
  }

  lemma {:induction false} ByAuthorAppend(hs: seq<Handler>, m: nat, ps: seq<Publication>, p: Publication, n: nat)
    requires n <= |hs| && p.author < |hs|
    ensures ByAuthor(hs, m, ps + [p], n) == ByAuthor(hs, m, ps, n)
            + (if p.author < n && hs[p.author].msg == m && p.event.Terminal() then 1 else 0)
  {
    if n == 0 {
    } else {
      ByAuthorAppend(hs, m, ps, p, n - 1);
      TerminalsAppend(ps, p, n - 1);
    }
  }

  lemma {:induction false} NoneByAuthor(hs: seq<Handler>, m: nat, n: nat)
    requires n <= |hs|
    ensures ByAuthor(hs, m, [], n) == 0
  {
    if n == 0 {
    } else {
      NoneByAuthor(hs, m, n - 1);
    }
  }

  /** Every outcome of the video is by a handler of its one job. */
  lemma {:induction false} OutcomesByAuthor(hs: seq<Handler>, m: nat, ps: seq<Publication>, id: Uuid)
    requires forall k :: 0 <= k < |ps| ==>
               ps[k].author < |hs| && (ps[k].event.videoId == id <==> hs[ps[k].author].msg == m)
    ensures OutcomesFor(ps, id) == ByAuthor(hs, m, ps, |hs|)
  {
    if ps == [] {
      NoneByAuthor(hs, m, |hs|);
    } else {
      var front, p := ps[..|ps| - 1], ps[|ps| - 1];
      OutcomesByAuthor(hs, m, front, id);
      ByAuthorAppend(hs, m, front, p, |hs|);
      assert front + [p] == ps;
    }
  }

  lemma {:induction false} ByAuthorAtMostHandlers(hs: seq<Handler>, m: nat, ps: seq<Publication>, n: nat)
    requires n <= |hs| && forall h :: 0 <= h < |hs| && hs[h].msg == m ==> Terminals(ps, h) <= 1
    ensures ByAuthor(hs, m, ps, n) <= HandlersOf(hs[..n], m)
  {
    if n == 0 {
    } else {
      assert hs[..n][..n - 1] == hs[..n - 1];
      ByAuthorAtMostHandlers(hs, m, ps, n - 1);
    }
  }

  lemma AuthorsAreHandlers(s: Sys, fx: Extractor, m: nat, id: Uuid)
    requires Inv(s, fx) && OneJobEach(s) && IsJobFor(s, m, id)
    ensures OutcomesFor(s.published, id) == ByAuthor(s.handlers, m, s.published, |s.handlers|)
    ensures forall h :: 0 <= h < |s.handlers| && s.handlers[h].msg == m ==> Terminals(s.published, h) <= 1
  {
    forall k | 0 <= k < |s.published|
      ensures s.published[k].author < |s.handlers|
      ensures s.published[k].event.videoId == id <==> s.handlers[s.published[k].author].msg == m
    {
      assert PublicationOk(s, fx, k);
      assert IsJobFor(s, s.handlers[s.published[k].author].msg, s.published[k].event.videoId);
    }
    OutcomesByAuthor(s.handlers, m, s.published, id);
    forall h | 0 <= h < |s.handlers| && s.handlers[h].msg == m ensures Terminals(s.published, h) <= 1 {
      assert HandlerOk(s, fx, h);
    }
  }

  /** In any run a video is told at most as many outcomes as its job was delivered. */
  lemma OutcomesAtMostDeliveries(fx: Extractor, acts: seq<Action>, m: nat, id: Uuid)
    requires Possible(INIT, fx, acts) && IsJobFor(After(INIT, fx, acts), m, id)
    ensures OutcomesFor(After(INIT, fx, acts).published, id) <= multiset(acts)[Deliver(m)]
  {
    hide Next, Enabled, Inv, OneJobEach;
    var s := After(INIT, fx, acts);
    assert Reachable(s, fx);
    ReachableInv(s, fx);
    HandlersAreDeliveries(fx, acts, m);
    AuthorsAreHandlers(s, fx, m, id);
    ByAuthorAtMostHandlers(s.handlers, m, s.published, |s.handlers|);
    assert s.handlers[..|s.handlers|] == s.handlers;
  }

  // ----- at most one outcome ------------------------------------------------------------------------

  /** Message `m` has been with one handler at a time, and after a success with none. */
  predicate OneAtATime(s: Sys, m: nat) {
    m < |s.msgs| ==>
      && (forall h :: 0 <= h < |s.handlers| && s.handlers[h].msg == m ==>
            && (!s.handlers[h].pc.Finished? ==> s.msgs[m].place == Held(h))
            && (s.handlers[h].pc == Finished(Handled) ==> s.msgs[m].place == Acked))
      && (forall h, g :: 0 <= h < g < |s.handlers| && s.handlers[h].msg == m && s.handlers[g].msg == m ==>
            s.handlers[h].pc.Finished? && s.handlers[h].pc != Finished(Handled))
  }

  lemma OneAtATimeKept(s: Sys, fx: Extractor, a: Action, m: nat)
    requires Inv(s, fx) && OneAtATime(s, m) && Enabled(s, a) && a != LoseConnection(m)
    ensures OneAtATime(Next(s, fx, a), m)
  {
    hide Inv, Next;
    HandlersHaveMessages(s, fx);
    if a.Deliver? && a.m == m {
      DeliveredAlone(s, fx, m);
    } else if a.Settle? && s.handlers[a.h].msg == m {
      SettledAlone(s, fx, a, m);
    } else {
      LeftAlone(s, fx, a, m);
    }
  }

  lemma DeliveredAlone(s: Sys, fx: Extractor, m: nat)
    requires OneAtATime(s, m) && Enabled(s, Deliver(m))
    ensures OneAtATime(Next(s, fx, Deliver(m)), m)
  {
  }

  lemma SettledAlone(s: Sys, fx: Extractor, a: Action, m: nat)
    requires OneAtATime(s, m) && Enabled(s, a) && a.Settle? && s.handlers[a.h].msg == m
    ensures OneAtATime(Next(s, fx, a), m)
  {
    assert s.msgs[m].place == Held(a.h);
  }

  lemma LeftAlone(s: Sys, fx: Extractor, a: Action, m: nat)
    requires OneAtATime(s, m) && Enabled(s, a)
    requires forall h :: 0 <= h < |s.handlers| ==> s.handlers[h].msg < |s.msgs|
    requires !((a.Deliver? || a.LoseConnection?) && a.m == m) && !(a.Settle? && s.handlers[a.h].msg == m)
    ensures OneAtATime(Next(s, fx, a), m)
  {
    hide Next;
    if m < |s.msgs| { PlaceLeftAlone(s, fx, a, m); }
    forall h | 0 <= h < |s.handlers|
      ensures h < |Next(s, fx, a).handlers| && Next(s, fx, a).handlers[h].msg == s.handlers[h].msg
      ensures s.handlers[h].msg == m ==> SameFinish(s.handlers[h].pc, Next(s, fx, a).handlers[h].pc)
    {
      FinishLeftAlone(s, fx, a, h);
    }
    StartedElsewhere(s, fx, a, m);
  }

  /** Neither was finished, or nothing has changed. */
  predicate SameFinish(before: Pc, after: Pc) { (!before.Finished? && !after.Finished?) || before == after }

  lemma PlaceLeftAlone(s: Sys, fx: Extractor, a: Action, m: nat)
    requires Enabled(s, a) && m < |s.msgs|
    requires !((a.Deliver? || a.LoseConnection?) && a.m == m) && !(a.Settle? && s.handlers[a.h].msg == m)
    ensures m < |Next(s, fx, a).msgs| && Next(s, fx, a).msgs[m] == s.msgs[m]
  {
    Untouched(s, fx, a);
    if a.Publishes() { ReportMoves(s, fx, a); }
  }

  lemma FinishLeftAlone(s: Sys, fx: Extractor, a: Action, h: nat)
    requires Enabled(s, a) && h < |s.handlers|
    ensures h < |Next(s, fx, a).handlers| && Next(s, fx, a).handlers[h].msg == s.handlers[h].msg
    ensures a != Settle(h) ==> SameFinish(s.handlers[h].pc, Next(s, fx, a).handlers[h].pc)
  {
    if (a.OfWorker() || a.OfConsumer()) && a.h == h {
      if !s.handlers[h].pc.Finished? { OnlySettleFinishes(s, fx, a, h); }
    } else {
      OtherHandlerUntouched(s, fx, a, h);
    }
  }

  lemma StartedElsewhere(s: Sys, fx: Extractor, a: Action, m: nat)
    requires Enabled(s, a) && a != Deliver(m)
    ensures forall h :: |s.handlers| <= h < |Next(s, fx, a).handlers| ==> Next(s, fx, a).handlers[h].msg != m
  {
    Untouched(s, fx, a);
  }

  lemma HandlersHaveMessages(s: Sys, fx: Extractor)
    requires Inv(s, fx)
    ensures forall h :: 0 <= h < |s.handlers| ==> s.handlers[h].msg < |s.msgs|
  {
    forall h | 0 <= h < |s.handlers| ensures s.handlers[h].msg < |s.msgs| { assert HandlerOk(s, fx, h); }
  }

  lemma ReportMoves(s: Sys, fx: Extractor, a: Action)
    requires Enabled(s, a) && a.Publishes()
    ensures Next(s, fx, a).msgs == Emit(s, a.h, EventBy(s, a), a.eff).msgs
  {
  }

  lemma {:induction false} AlwaysOneAtATime(fx: Extractor, acts: seq<Action>, m: nat)
    requires Possible(INIT, fx, acts) && LoseConnection(m) !in acts
    ensures OneAtATime(After(INIT, fx, acts), m)
  {
    hide Next, Enabled, Inv, OneAtATime;
    if acts == [] {
      NothingYet(m);
    } else {
      var front, a := acts[..|acts| - 1], acts[|acts| - 1];
      assert a in acts && forall b :: b in front ==> b in acts;
      AlwaysOneAtATime(fx, front, m);
      var s := After(INIT, fx, front);
      assert Reachable(s, fx);
      ReachableInv(s, fx);
      OneAtATimeKept(s, fx, a, m);
    }
  }

  lemma NothingYet(m: nat)
    ensures OneAtATime(INIT, m)
  {
  }

  /** No terminal event of handler `h` went out behind its back. */
  predicate ReportsClearly(acts: seq<Action>, h: nat) {
    PublishDone(h, Ambiguous) !in acts && PublishFailed(h, Ambiguous) !in acts
  }

  /** What handler `h` has published it knows to have published. */
  predicate KnowsItsOutcome(s: Sys, h: nat) {
    h < |s.handlers| && Terminals(s.published, h) > 0 ==> s.handlers[h].pc in {Settling(Handled), Finished(Handled)}
  }

  lemma KnowingKept(s: Sys, fx: Extractor, a: Action, h: nat)
    requires Inv(s, fx) && KnowsItsOutcome(s, h) && Enabled(s, a)
    requires a != PublishDone(h, Ambiguous) && a != PublishFailed(h, Ambiguous)
    ensures KnowsItsOutcome(Next(s, fx, a), h)
  {
    hide Inv, Next;
    CountsKept(s, fx, a, h);
    if h >= |s.handlers| {
      NoneYet(s, fx, h);
    } else if (a.OfWorker() || a.OfConsumer()) && a.h == h {
      OwnStepKnows(s, fx, a);
    } else {
      OtherHandlerUntouched(s, fx, a, h);
    }
  }

  lemma OwnStepKnows(s: Sys, fx: Extractor, a: Action)
    requires Enabled(s, a) && (a.OfWorker() || a.OfConsumer())
    requires !((a.PublishDone? || a.PublishFailed?) && a.eff == Ambiguous)
    ensures a.h < |Next(s, fx, a).handlers|
    ensures (a.PublishDone? || a.PublishFailed?) && a.eff.Landed()
            ==> Next(s, fx, a).handlers[a.h].pc == Settling(Handled)
    ensures s.handlers[a.h].pc in {Settling(Handled), Finished(Handled)}
            ==> Next(s, fx, a).handlers[a.h].pc in {Settling(Handled), Finished(Handled)}
  {
  }

  lemma NoneYet(s: Sys, fx: Extractor, h: nat)
    requires Inv(s, fx) && h >= |s.handlers|
    ensures Terminals(s.published, h) == 0
  {
    forall k | 0 <= k < |s.published| ensures s.published[k].author != h { assert PublicationOk(s, fx, k); }
    NoTerminalsBy(s.published, h);
  }

  lemma {:induction false} AlwaysKnowing(fx: Extractor, acts: seq<Action>, h: nat)
    requires Possible(INIT, fx, acts) && ReportsClearly(acts, h)
    ensures KnowsItsOutcome(After(INIT, fx, acts), h)
  {
    hide Next, Enabled, Inv;
    if acts == [] {
    } else {
      var front, a := acts[..|acts| - 1], acts[|acts| - 1];
      assert a in acts && forall b :: b in front ==> b in acts;
      AlwaysKnowing(fx, front, h);
      var s := After(INIT, fx, front);
      assert Reachable(s, fx);
      ReachableInv(s, fx);
      KnowingKept(s, fx, a, h);
    }
  }

  lemma {:induction false} ByOneAuthor(hs: seq<Handler>, m: nat, ps: seq<Publication>, n: nat)
    requires n <= |hs|
    requires forall h :: 0 <= h < |hs| && hs[h].msg == m ==> Terminals(ps, h) <= 1
    requires forall h, g :: 0 <= h < g < |hs| && hs[h].msg == m && hs[g].msg == m ==> Terminals(ps, h) == 0
    ensures ByAuthor(hs, m, ps, n) <= 1
    ensures n > 0 && hs[n - 1].msg == m ==> ByAuthor(hs, m, ps, n - 1) == 0
  {
    if n == 0 {
    } else {
      ByOneAuthor(hs, m, ps, n - 1);
      if hs[n - 1].msg == m { NothingBefore(hs, m, ps, n - 1, n - 1); }
    }
  }

  lemma {:induction false} NothingBefore(hs: seq<Handler>, m: nat, ps: seq<Publication>, n: nat, g: nat)
    requires n <= g < |hs| && hs[g].msg == m
    requires forall h :: 0 <= h < g && hs[h].msg == m ==> Terminals(ps, h) == 0
    ensures ByAuthor(hs, m, ps, n) == 0
  {
    if n == 0 {
    } else {
      NothingBefore(hs, m, ps, n - 1, g);
    }
  }

  /** The job of this video kept its connection, and every terminal report on it was answered. */
  predicate Undisturbed(s: Sys, acts: seq<Action>, m: nat) {
    && LoseConnection(m) !in acts
    && forall h :: 0 <= h < |s.handlers| && s.handlers[h].msg == m ==> ReportsClearly(acts, h)
  }

  /** Without a lost connection and without an ambiguous report a video is told at most one outcome,
      however often its job is retried. */
  lemma OneOutcome(fx: Extractor, acts: seq<Action>, m: nat, id: Uuid)
    requires Possible(INIT, fx, acts) && IsJobFor(After(INIT, fx, acts), m, id)
    requires Undisturbed(After(INIT, fx, acts), acts, m)
    ensures OutcomesFor(After(INIT, fx, acts).published, id) <= 1
  {
    hide Next, Enabled, Inv, OneJobEach, ReportsClearly;
    var s := After(INIT, fx, acts);
    assert Reachable(s, fx);
    ReachableInv(s, fx);
    HandlersAreDeliveries(fx, acts, m);
    AuthorsAreHandlers(s, fx, m, id);
    AlwaysOneAtATime(fx, acts, m);
    forall h, g | 0 <= h < g < |s.handlers| && s.handlers[h].msg == m && s.handlers[g].msg == m
      ensures Terminals(s.published, h) == 0
    {
      AlwaysKnowing(fx, acts, h);
    }
    ByOneAuthor(s.handlers, m, s.published, |s.handlers|);
  }

  lemma {:induction false} CountedOnce(ps: seq<Publication>, id: Uuid, j: nat, k: nat)
    requires j < k < |ps| && IsOutcome(ps[j], id) && IsOutcome(ps[k], id)
    ensures OutcomesFor(ps, id) >= 2
  {
    var front := ps[..|ps| - 1];
    if k == |ps| - 1 {
      CountedAtLeast(front, id, j);
    } else {
      assert front[j] == ps[j] && front[k] == ps[k];
      CountedOnce(front, id, j, k);
    }
  }

  lemma {:induction false} CountedAtLeast(ps: seq<Publication>, id: Uuid, j: nat)
    requires j < |ps| && IsOutcome(ps[j], id)
    ensures OutcomesFor(ps, id) >= 1
  {
    if j == |ps| - 1 {
    } else {
      assert ps[..|ps| - 1][j] == ps[j];
      CountedAtLeast(ps[..|ps| - 1], id, j);
    }
  }

  /** Then DONE and FAILED never overwrite each other: once applied, the outcome is the row for good. */
  lemma UndisturbedOutcomeIsFinal(fx: Extractor, acts: seq<Action>, m: nat, id: Uuid, t: Event)
    requires Possible(INIT, fx, acts) && IsJobFor(After(INIT, fx, acts), m, id)
    requires Undisturbed(After(INIT, fx, acts), acts, m)
    requires t in After(INIT, fx, acts).applied && t.Terminal() && t.videoId == id
    ensures id in After(INIT, fx, acts).rows
    ensures var row := After(INIT, fx, acts).rows[id]; row == Advance(Birth(row), t)
  {
    hide Next, Enabled, Undisturbed, IsJobFor;
    var s := After(INIT, fx, acts);
    assert Reachable(s, fx);
    ReachableInv(s, fx);
    OneOutcome(fx, acts, m, id);
    assert WasPublished(s, t) && id in s.rows;
    forall e | WasPublished(s, e) && e.Terminal() && e.videoId == id ensures e == t {
      var j :| 0 <= j < |s.published| && s.published[j].event == e;
      var k :| 0 <= k < |s.published| && s.published[k].event == t;
      if j < k { CountedOnce(s.published, id, j, k); }
      if k < j { CountedOnce(s.published, id, k, j); }
    }
    Guarantees.AgreedOutcomeIsFinal(s, fx, id, t);
  }
}
