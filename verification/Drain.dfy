/** Left alone (no new uploads, no lost connections), the pipeline comes to rest, and what
    became of every accepted upload is then known. */
module Drain {
  import opened Domain
  import opened VideoTable
  import opened Protocol
  import opened Invariant
  import opened Safety
  import Guarantees

  // ----- sums -------------------------------------------------------------------------------

  function Sum(ns: seq<nat>): nat {
    if ns == [] then 0 else Sum(ns[..|ns| - 1]) + ns[|ns| - 1]
  }

  lemma SumAppend(ns: seq<nat>, n: nat)
    ensures Sum(ns + [n]) == Sum(ns) + n
  {
    assert (ns + [n])[..|ns|] == ns;
  }

  lemma {:induction false} SumUpdate(ns: seq<nat>, i: nat, n: nat)
    requires i < |ns|
    ensures Sum(ns[i := n]) == Sum(ns) - ns[i] + n
  {
    var ms := ns[i := n];
    if i == |ns| - 1 {
      assert ms[..i] == ns[..i];
    } else {
      assert ms[..|ns| - 1] == ns[..|ns| - 1][i := n];
      SumUpdate(ns[..|ns| - 1], i, n);
    }
  }

  // ----- weights --------------------------------------------------------------------------------

  /** An upper bound on the steps one delivery from `q` can still cause, delivery included. */
  function DeliveryCost(q: QueueName): nat { if q == JobsQueue then 25 else 3 }

  /** A message keeps one delivery's worth in reserve until its retry is spent. */
  function MessageWeight(x: Message): nat {
    var cost := DeliveryCost(x.body.Queue());
    match x.place
    case Ready => if x.redelivered then cost else 2 * cost
    case Held(_) => if x.redelivered then 0 else cost
    case _ => 0
  }

  /** Steps a handler has left, counting the messages its publications add. */
  function PcWeight(pc: Pc): nat {
    match pc
    case Announcing => 24
    case MakingDir => 17
    case Fetching => 16
    case Extracting(_) => 15
    case StoringZip(_) => 9
    case ReportingDone(_) => 8
    case ReportingFailed(_) => 14
    case Applying => 2
    case Mailing => 2
    case Settling(_) => 1
    case Finished(_) => 0
  }

  function UploadWeight(up: Upload): nat {
    match up.pc
    case StoringSource => 54
    case InsertingRow => 53
    case ResolvingOwner => 52
    case Enqueueing => 51
    case Replied(_) => 0
  }

  function MessageWeights(ms: seq<Message>): seq<nat> {
    seq(|ms|, i requires 0 <= i < |ms| => MessageWeight(ms[i]))
  }

  function HandlerWeights(hs: seq<Handler>): seq<nat> {
    seq(|hs|, i requires 0 <= i < |hs| => PcWeight(hs[i].pc))
  }

  function UploadWeights(us: seq<Upload>): seq<nat> {
    seq(|us|, i requires 0 <= i < |us| => UploadWeight(us[i]))
  }

  function MessageLoad(ms: seq<Message>): nat { Sum(MessageWeights(ms)) }
  function HandlerLoad(hs: seq<Handler>): nat { Sum(HandlerWeights(hs)) }
  function UploadLoad(us: seq<Upload>): nat { Sum(UploadWeights(us)) }

  function Measure(s: Sys): nat {
    UploadLoad(s.uploads) + MessageLoad(s.msgs) + HandlerLoad(s.handlers)
  }

  lemma MessageLoadUpdate(ms: seq<Message>, m: nat, x: Message)
    requires m < |ms|
    ensures MessageLoad(ms[m := x]) == MessageLoad(ms) - MessageWeight(ms[m]) + MessageWeight(x)
  {
    assert MessageWeights(ms[m := x]) == MessageWeights(ms)[m := MessageWeight(x)];
    SumUpdate(MessageWeights(ms), m, MessageWeight(x));
  }

  lemma MessageLoadAppend(ms: seq<Message>, x: Message)
    ensures MessageLoad(ms + [x]) == MessageLoad(ms) + MessageWeight(x)
  {
    assert MessageWeights(ms + [x]) == MessageWeights(ms) + [MessageWeight(x)];
    SumAppend(MessageWeights(ms), MessageWeight(x));
  }

  lemma HandlerLoadUpdate(hs: seq<Handler>, h: nat, x: Handler)
    requires h < |hs|
    ensures HandlerLoad(hs[h := x]) == HandlerLoad(hs) - PcWeight(hs[h].pc) + PcWeight(x.pc)
  {
    assert HandlerWeights(hs[h := x]) == HandlerWeights(hs)[h := PcWeight(x.pc)];
    SumUpdate(HandlerWeights(hs), h, PcWeight(x.pc));
  }

  lemma HandlerLoadAppend(hs: seq<Handler>, x: Handler)
    ensures HandlerLoad(hs + [x]) == HandlerLoad(hs) + PcWeight(x.pc)
  {
    assert HandlerWeights(hs + [x]) == HandlerWeights(hs) + [PcWeight(x.pc)];
    SumAppend(HandlerWeights(hs), PcWeight(x.pc));
  }

  lemma UploadLoadUpdate(us: seq<Upload>, u: nat, x: Upload)
    requires u < |us|
    ensures UploadLoad(us[u := x]) == UploadLoad(us) - UploadWeight(us[u]) + UploadWeight(x)
  {
    assert UploadWeights(us[u := x]) == UploadWeights(us)[u := UploadWeight(x)];
    SumUpdate(UploadWeights(us), u, UploadWeight(x));
  }

  // ----- every internal step makes progress ---------------------------------------------------------

  lemma EmitLoad(s: Sys, h: nat, e: Event, eff: Effect)
    ensures MessageLoad(Emit(s, h, e, eff).msgs) <= MessageLoad(s.msgs) + (if e.FailedEvent? then 12 else 6)
  {
    MessageLoadAppend(s.msgs, Fresh(StatusMsg(e)));
    MessageLoadAppend(s.msgs + [Fresh(StatusMsg(e))], Fresh(NoticeMsg(e)));
    assert s.msgs + [Fresh(StatusMsg(e))] + [Fresh(NoticeMsg(e))]
        == s.msgs + [Fresh(StatusMsg(e)), Fresh(NoticeMsg(e))];
  }

  lemma GatewayStepDrains(s: Sys, fx: Extractor, a: Action)
    requires Enabled(s, a) && a.OfGateway()
    ensures Measure(Next(s, fx, a)) < Measure(s)
  {
    var t := Next(s, fx, a);
    UploadLoadUpdate(s.uploads, a.u, t.uploads[a.u]);
    MessageLoadAppend(s.msgs, Fresh(JobMsg(s.uploads[a.u].Job())));
  }

  lemma DeliverDrains(s: Sys, fx: Extractor, m: nat)
    requires Enabled(s, Deliver(m))
    ensures Measure(Next(s, fx, Deliver(m))) < Measure(s)
  {
    var t := Next(s, fx, Deliver(m));
    MessageLoadUpdate(s.msgs, m, t.msgs[m]);
    HandlerLoadAppend(s.handlers, t.handlers[|s.handlers|]);
  }

  /** A publishing step moves its handler on by more than its messages can weigh. */
  lemma PublishShape(s: Sys, fx: Extractor, a: Action)
    requires Enabled(s, a) && a.Publishes()
    ensures var t := Next(s, fx, a);
            && a.h < |s.handlers| == |t.handlers|
            && t.uploads == s.uploads
            && t.msgs == Emit(s, a.h, EventBy(s, a), a.eff).msgs
            && t.handlers == s.handlers[a.h := t.handlers[a.h]]
            && PcWeight(t.handlers[a.h].pc) + (if EventBy(s, a).FailedEvent? then 12 else 6)
               < PcWeight(s.handlers[a.h].pc)
  {
  }

  lemma PublishDrains(s: Sys, fx: Extractor, a: Action)
    requires Enabled(s, a) && a.Publishes()
    ensures Measure(Next(s, fx, a)) < Measure(s)
  {
    hide Next, Enabled, Emit, PcWeight, EventBy;
    PublishShape(s, fx, a);
    HandlerLoadUpdate(s.handlers, a.h, Next(s, fx, a).handlers[a.h]);
    EmitLoad(s, a.h, EventBy(s, a), a.eff);
  }

  lemma EffectDrains(s: Sys, fx: Extractor, a: Action)
    requires Enabled(s, a) && (a.OfWorker() || a.OfConsumer()) && !a.Publishes() && !a.Settle?
    ensures Measure(Next(s, fx, a)) < Measure(s)
  {
    var t := Next(s, fx, a);
    HandlerLoadUpdate(s.handlers, a.h, t.handlers[a.h]);
    assert t.handlers == s.handlers[a.h := t.handlers[a.h]];
  }

  lemma SettleDrains(s: Sys, fx: Extractor, h: nat)
    requires Enabled(s, Settle(h)) && PlaceOk(s, s.handlers[h].msg)
    ensures Measure(Next(s, fx, Settle(h))) < Measure(s)
  {
    var t := Next(s, fx, Settle(h));
    var m := s.handlers[h].msg;
    HandlerLoadUpdate(s.handlers, h, t.handlers[h]);
    MessageLoadUpdate(s.msgs, m, t.msgs[m]);
    assert t.msgs == s.msgs[m := t.msgs[m]];
  }

  lemma StepDrains(s: Sys, fx: Extractor, a: Action)
    requires Inv(s, fx) && Enabled(s, a) && a.Internal()
    ensures Measure(Next(s, fx, a)) < Measure(s)
  {
    if a.OfGateway() { GatewayStepDrains(s, fx, a); }
    else if a.Deliver? { DeliverDrains(s, fx, a.m); }
    else if a.Settle? { assert PlaceOk(s, s.handlers[a.h].msg); SettleDrains(s, fx, a.h); }
    else if a.Publishes() { PublishDrains(s, fx, a); }
    else { EffectDrains(s, fx, a); }
  }

  /** The measure bounds the length of every run without uploads or losses. */
  lemma {:induction false} InternalRunsAreShort(s: Sys, fx: Extractor, acts: seq<Action>)
    requires Inv(s, fx) && Possible(s, fx, acts) && InternalRun(acts)
    ensures Measure(After(s, fx, acts)) + |acts| <= Measure(s)
  {
    if acts == [] {
    } else {
      var front := acts[..|acts| - 1];
      InternalRunsAreShort(s, fx, front);
      RunKeepsInv(s, fx, front);
      StepDrains(After(s, fx, front), fx, acts[|acts| - 1]);
    }
  }

  // ----- coming to rest ---------------------------------------------------------------------------------

  predicate AllSettled(s: Sys) {
    forall m :: 0 <= m < |s.msgs| ==> s.msgs[m].place.Settled()
  }

  ghost predicate AtRest(s: Sys) {
    forall a: Action :: Enabled(s, a) ==> !a.Internal()
  }

  /** The step a handler can always take next. */
  function NextOf(h: nat, pc: Pc): Action {
    match pc
    case Announcing => PublishProcessing(h, Works)
    case MakingDir => MakeWorkDir(h, true)
    case Fetching => Download(h, false)
    case Extracting(_) => RunExtraction(h, true)
    case StoringZip(_) => PutZip(h, Works)
    case ReportingDone(_) => PublishDone(h, Works)
    case ReportingFailed(_) => PublishFailed(h, Works)
    case Applying => ApplyEvent(h, Works)
    case Mailing => SendMail(h, Works)
    case _ => Settle(h)
  }

  /** An unsettled message can be delivered, or the handler holding it can move. */
  lemma UnsettledCanMove(s: Sys, fx: Extractor, m: nat) returns (a: Action)
    requires Inv(s, fx) && m < |s.msgs| && !s.msgs[m].place.Settled()
    ensures Enabled(s, a) && a.Internal()
  {
    assert PlaceOk(s, m);
    match s.msgs[m].place
    case Ready => a := Deliver(m);
    case Held(h) =>
      assert HandlerOk(s, fx, h);
      a := NextOf(h, s.handlers[h].pc);
  }

  /** What may have become of an accepted upload once nothing is queued or in flight. */
  predicate Accounted(s: Sys, up: Upload)
    requires up.job < |s.msgs|
  {
    || (up.id in s.rows && s.rows[up.id].status.Terminal())
    || s.msgs[up.job].place == DeadLettered
    || TerminalDropped(s, up.id)
  }

  /** A terminal event for `id` was dropped from the status queue on a redelivery. */
  predicate TerminalDropped(s: Sys, id: Uuid) {
    exists m :: 0 <= m < |s.msgs| && s.msgs[m].body.StatusMsg? && s.msgs[m].body.event.Terminal()
                && s.msgs[m].body.event.videoId == id && s.msgs[m].place == Dropped && s.msgs[m].redelivered
  }

  lemma SettledMeansAccounted(s: Sys, fx: Extractor, u: nat)
    requires Inv(s, fx) && AllSettled(s) && UploadAt(s, u, Replied(Accepted))
    ensures s.uploads[u].job < |s.msgs| && Accounted(s, s.uploads[u])
  {
    var up := s.uploads[u];
    assert UploadOk(s, u);
    assert PlaceOk(s, up.job);
    if s.msgs[up.job].place == Acked {
      var k :| 0 <= k < |s.published| && s.published[k].event.Terminal() && s.published[k].event.videoId == up.id;
      assert PublicationOk(s, fx, k);
      var m := s.published[k].copy;
      assert PlaceOk(s, m);
      assert s.msgs[m].place.Settled();
    }
  }

  /** A request that has not been answered can always move. */
  lemma UnansweredCanMove(s: Sys, u: nat) returns (a: Action)
    requires u < |s.uploads| && !s.uploads[u].pc.Replied?
    ensures Enabled(s, a) && a.Internal()
  {
    var up := s.uploads[u];
    match up.pc
    case StoringSource =>
      var uuid := FreshSource(s.objects.Keys, up.user, up.ext);
      assert SourceName(s, u, uuid) !in s.objects.Keys;
      a := PutSource(u, uuid, Works);
    case InsertingRow =>
      var id := FreshId(s.rows.Keys);
      assert id !in s.rows.Keys;
      a := InsertRow(u, id, 0, Works);
    case ResolvingOwner => a := ResolveOwner(u, "");
    case Enqueueing => a := PublishJob(u, Works);
  }

  /** In a reachable state where only uploads, connection losses and foreign messages can happen,
      every request has been answered, every queue is empty and every upload answered 202 is DONE
      or FAILED, dead-lettered, or had its terminal event dropped. */
  lemma RestMeansAccounted(s: Sys, fx: Extractor)
    requires Reachable(s, fx) && AtRest(s)
    ensures AllSettled(s)
    ensures forall u :: 0 <= u < |s.uploads| ==> s.uploads[u].pc.Replied?
    ensures forall u: nat :: UploadAt(s, u, Replied(Accepted))
                             ==> s.uploads[u].job < |s.msgs| && Accounted(s, s.uploads[u])
  {
    ReachableInv(s, fx);
    if m :| 0 <= m < |s.msgs| && !s.msgs[m].place.Settled() {
      var a := UnsettledCanMove(s, fx, m);
    }
    if u :| 0 <= u < |s.uploads| && !s.uploads[u].pc.Replied? {
      var a := UnansweredCanMove(s, u);
    }
    forall u: nat | UploadAt(s, u, Replied(Accepted))
      ensures s.uploads[u].job < |s.msgs| && Accounted(s, s.uploads[u])
    {
      SettledMeansAccounted(s, fx, u);
    }
  }

  /** From any reachable state, every run without new uploads, connection losses or foreign messages
      is no longer than the measure, and where it can go no further everything is accounted for. */
  lemma EveryDrainEnds(s: Sys, fx: Extractor, more: seq<Action>)
    requires Reachable(s, fx) && Possible(s, fx, more) && InternalRun(more)
    ensures |more| <= Measure(s)
    ensures var t := After(s, fx, more);
            AtRest(t) ==>
              && AllSettled(t)
              && (forall u :: 0 <= u < |t.uploads| ==> t.uploads[u].pc.Replied?)
              && forall u: nat :: UploadAt(t, u, Replied(Accepted))
                             ==> t.uploads[u].job < |t.msgs| && Accounted(t, t.uploads[u])
  {
    hide Next, Enabled, Inv;
    ReachableInv(s, fx);
    InternalRunsAreShort(s, fx, more);
    ReachOn(s, fx, more);
    if AtRest(After(s, fx, more)) { RestMeansAccounted(After(s, fx, more), fx); }
  }

  /** Whatever such run has been made, it can be continued until the system is at rest. */
  lemma {:induction false} QueuesCanDrain(s: Sys, fx: Extractor) returns (more: seq<Action>)
    requires Reachable(s, fx)
    ensures Possible(s, fx, more) && InternalRun(more) && AtRest(After(s, fx, more))
    decreases Measure(s)
  {
    hide Next, Inv, Enabled, Reachable;
    if AtRest(s) {
      more := [];
    } else {
      var a :| Enabled(s, a) && a.Internal();
      ReachableInv(s, fx);
      StepDrains(s, fx, a);
      RunStep(s, fx, [], a);
      ReachOn(s, fx, [] + [a]);
      var rest := QueuesCanDrain(Next(s, fx, a), fx);
      RunsCompose(s, fx, [] + [a], rest);
      more := [] + [a] + rest;
    }
  }

  // ----- what is lost ---------------------------------------------------------------------------

  /** No request is lost: if, once drained, nothing was dead-lettered or dropped, every upload
      answered 202 is DONE or FAILED. */
  lemma NothingIsLost(s: Sys, fx: Extractor, u: nat)
    requires Reachable(s, fx) && UploadAt(s, u, Replied(Accepted))
    requires forall m :: 0 <= m < |s.msgs| ==> s.msgs[m].place == Acked
    ensures s.uploads[u].id in s.rows && s.rows[s.uploads[u].id].status.Terminal()
  {
    ReachableInv(s, fx);
    assert AllSettled(s);
    SettledMeansAccounted(s, fx, u);
  }

  /** Action `a` asks the store to apply event `e`. */
  predicate IsUpdate(s: Sys, a: Action, e: Event) {
    a.ApplyEvent? && Live(s, a.h) && BodyOf(s, a.h) == StatusMsg(e)
  }

  /** Action `a` asks the store to apply a terminal event of video `id`. */
  predicate IsTerminalUpdate(s: Sys, a: Action, id: Uuid) {
    && a.ApplyEvent? && Live(s, a.h) && BodyOf(s, a.h).StatusMsg?
    && BodyOf(s, a.h).event.Terminal() && BodyOf(s, a.h).event.videoId == id
  }

  /** The events on record as applied are those of the updates that took place. */
  lemma {:induction false} AppliedAreLandedUpdates(fx: Extractor, acts: seq<Action>, e: Event)
    requires Possible(INIT, fx, acts)
    ensures var s := After(INIT, fx, acts);
            && (forall i :: 0 <= i < |acts| && acts[i].ApplyEvent? ==> Live(s, acts[i].h))
            && (e in s.applied <==> exists i :: 0 <= i < |acts| && IsUpdate(s, acts[i], e) && acts[i].eff.Landed())
  {
    hide Next, Enabled, Inv, Extends;
    if acts == [] {
    } else {
      var n := |acts| - 1;
      var front := acts[..n];
      AppliedAreLandedUpdates(fx, front, e);
      var s, t := After(INIT, fx, front), After(INIT, fx, acts);
      assert Reachable(s, fx);
      ReachableInv(s, fx);
      StepExtends(s, fx, acts[n]);
      forall i | 0 <= i < n && acts[i].ApplyEvent?
        ensures Live(t, acts[i].h) && (IsUpdate(t, acts[i], e) <==> IsUpdate(s, front[i], e))
      {
        assert front[i] == acts[i];
        BodyKept(s, t, acts[i].h);
      }
      UpdateStep(s, fx, acts[n], e);
      if e in s.applied {
        var i :| 0 <= i < n && IsUpdate(s, front[i], e) && front[i].eff.Landed();
        assert IsUpdate(t, acts[i], e);
      }
    }
  }

  lemma BodyKept(s: Sys, t: Sys, h: nat)
    requires Extends(s, t) && Live(s, h)
    ensures Live(t, h) && BodyOf(t, h) == BodyOf(s, h)
  {
  }

  lemma UpdateStep(s: Sys, fx: Extractor, a: Action, e: Event)
    requires Enabled(s, a)
    ensures var t := Next(s, fx, a);
            && (a.ApplyEvent? ==> Live(t, a.h))
            && (e in t.applied <==> e in s.applied || (IsUpdate(t, a, e) && a.eff.Landed()))
  {
    Untouched(s, fx, a);
  }

  /** "Nothing is silently lost" fails for an accepted upload exactly when its job was acknowledged
      and every attempt to apply a terminal event of its video failed in the store. Then such an
      event was published, and every status copy of one was dropped on a redelivery. */
  lemma LostExactlyWhen(fx: Extractor, acts: seq<Action>, u: nat)
    requires Possible(INIT, fx, acts) && AllSettled(After(INIT, fx, acts))
    requires UploadAt(After(INIT, fx, acts), u, Replied(Accepted))
    ensures var s := After(INIT, fx, acts);
            var up := s.uploads[u];
            && up.id in s.rows && up.job < |s.msgs|
            && ((!s.rows[up.id].status.Terminal() && s.msgs[up.job].place != DeadLettered) <==>
                (&& s.msgs[up.job].place == Acked
                 && forall i :: 0 <= i < |acts| && IsTerminalUpdate(s, acts[i], up.id) ==> acts[i].eff == Fails))
            && (!s.rows[up.id].status.Terminal() ==>
                  && (s.msgs[up.job].place == DeadLettered || TerminalPublished(s, up.id))
                  && forall k :: 0 <= k < |s.published| && TerminalAbout(s, k, up.id) ==> CopyDropped(s, k))
  {
    hide Next, Enabled;
    var s := After(INIT, fx, acts);
    assert Reachable(s, fx);
    ReachableInv(s, fx);
    var up := s.uploads[u];
    assert UploadOk(s, u);
    assert PlaceOk(s, up.job);
    TerminalIffUpdated(fx, acts, up.id);
    forall k | 0 <= k < |s.published| && TerminalAbout(s, k, up.id) && !s.rows[up.id].status.Terminal()
      ensures CopyDropped(s, k)
    {
      CopySettled(s, fx, k);
    }
  }

  /** A row is DONE or FAILED exactly when the update for some terminal event of it took place. */
  lemma TerminalIffUpdated(fx: Extractor, acts: seq<Action>, id: Uuid)
    requires Possible(INIT, fx, acts) && id in After(INIT, fx, acts).rows
    ensures var s := After(INIT, fx, acts);
            s.rows[id].status.Terminal() <==>
            exists i :: 0 <= i < |acts| && IsTerminalUpdate(s, acts[i], id) && acts[i].eff != Fails
  {
    hide Next, Enabled, Inv;
    var s := After(INIT, fx, acts);
    assert Reachable(s, fx);
    Guarantees.RowSummarisesItsEvents(s, fx, id);
    if e :| e in s.applied && e.videoId == id && e.Terminal() {
      AppliedAreLandedUpdates(fx, acts, e);
      var i :| 0 <= i < |acts| && IsUpdate(s, acts[i], e) && acts[i].eff.Landed();
      assert IsTerminalUpdate(s, acts[i], id);
    }
    if i :| 0 <= i < |acts| && IsTerminalUpdate(s, acts[i], id) && acts[i].eff != Fails {
      AppliedAreLandedUpdates(fx, acts, BodyOf(s, acts[i].h).event);
      assert IsUpdate(s, acts[i], BodyOf(s, acts[i].h).event);
    }
  }

  predicate TerminalAbout(s: Sys, k: nat, id: Uuid)
    requires k < |s.published|
  {
    s.published[k].event.Terminal() && s.published[k].event.videoId == id
  }

  predicate CopyDropped(s: Sys, k: nat)
    requires k < |s.published|
  {
    s.published[k].copy < |s.msgs| && s.msgs[s.published[k].copy].place == Dropped
    && s.msgs[s.published[k].copy].redelivered
  }

  lemma CopySettled(s: Sys, fx: Extractor, k: nat)
    requires Inv(s, fx) && AllSettled(s) && k < |s.published| && s.published[k].event.Terminal()
    ensures CopyDropped(s, k) || (s.published[k].event.videoId in s.rows
                                  && s.rows[s.published[k].event.videoId].status.Terminal())
  {
    assert PublicationOk(s, fx, k);
    var m := s.published[k].copy;
    assert PlaceOk(s, m);
    assert s.msgs[m].place.Settled();
  }
}
