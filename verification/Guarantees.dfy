/** What the pipeline promises, over every run from the empty system. */
module Guarantees {
  import opened Domain
  import opened VideoTable
  import opened Protocol
  import opened Invariant
  import opened Safety

  // ----- accepted jobs -----------------------------------------------------------------

  /** The job behind a 202 is waiting, being worked on, in the dead-letter queue, or it was
      acknowledged after a terminal event for its video had been published. */
  lemma NoAcceptedJobVanishes(s: Sys, fx: Extractor, u: nat)
    requires Reachable(s, fx)
    requires UploadAt(s, u, Replied(Accepted))
    ensures var up := s.uploads[u];
            && up.job < |s.msgs|
            && s.msgs[up.job].body == JobMsg(up.Job())
            && match s.msgs[up.job].place
               case Ready => true
               case Held(h) => h < |s.handlers| && s.handlers[h].msg == up.job && !s.handlers[h].pc.Finished?
               case DeadLettered => s.msgs[up.job].redelivered
               case Acked => TerminalPublished(s, up.id)
               case Dropped => false
  {
    ReachableInv(s, fx);
    assert UploadOk(s, u);
    assert PlaceOk(s, s.uploads[u].job);
  }

  // ----- rows ---------------------------------------------------------------------------

  /** A DONE row names the archive of its own video, which is in the store and holds the frames
      of the source this video's owner uploaded; the count is the archive's and is positive. */
  lemma DoneRowIsTrue(s: Sys, fx: Extractor, id: Uuid)
    requires Reachable(s, fx)
    requires id in s.rows && s.rows[id].status == Done
    ensures var row := s.rows[id];
            && row.sourceKey in s.objects
            && s.objects[row.sourceKey].SourceVideo?
            && row.zipKey == ZipKey(id)
            && row.zipKey in s.objects
            && s.objects[row.zipKey] == Archive(fx(s.objects[row.sourceKey].content))
            && row.frameCount == |s.objects[row.zipKey].frames| > 0
            && row.error == NoReason
  {
    ReachableInv(s, fx);
    assert RowOk(s, fx, id);
  }

  /** FAILED carries a reason that was published for this video; a row not yet terminal carries nothing. */
  lemma OtherRowsAreTrue(s: Sys, fx: Extractor, id: Uuid)
    requires Reachable(s, fx)
    requires id in s.rows
    ensures var row := s.rows[id];
            && (row.status == Failed ==> row.error != NoReason && FailurePublished(s, id, row.error))
            && (!row.status.Terminal() ==> row.zipKey == NoKey && row.frameCount == 0 && row.error == NoReason)
  {
    ReachableInv(s, fx);
    assert RowOk(s, fx, id);
  }

  /** The moves of the per-video lifecycle; `None` is a row not yet inserted. */
  predicate LifecycleMove(before: Option<Status>, after: Option<Status>) {
    match (before, after)
    case (None, None) => true
    case (None, Some(b)) => b == Pending
    case (Some(_), None) => false
    case (Some(a), Some(b)) => a == b || (a == Pending && b == Processing) || b.Terminal()
  }

  function StatusOf(s: Sys, id: Uuid): Option<Status> {
    if id in s.rows then Some(s.rows[id].status) else None
  }

  /** Every step of every run moves every video by one lifecycle move or leaves it alone. */
  lemma StepRefinesLifecycle(s: Sys, fx: Extractor, a: Action, id: Uuid)
    requires Reachable(s, fx) && Enabled(s, a)
    ensures LifecycleMove(StatusOf(s, id), StatusOf(Next(s, fx, a), id))
  {
    Untouched(s, fx, a);
  }

  /** Over any stretch of a run no row disappears or changes identity, PENDING is not re-entered,
      {DONE, FAILED} is never left, and an archive once recorded stays recorded. */
  lemma RunRespectsLifecycle(s: Sys, fx: Extractor, more: seq<Action>, id: Uuid)
    requires Reachable(s, fx) && Possible(s, fx, more) && id in s.rows
    ensures id in After(s, fx, more).rows && RowKept(s.rows[id], After(s, fx, more).rows[id])
  {
    ReachableInv(s, fx);
    RunKeepsInv(s, fx, more);
  }

  // ----- order of arrival --------------------------------------------------------------------

  lemma {:induction false} AboutOccurs(es: seq<Event>, id: Uuid, e: Event)
    ensures e in About(es, id) <==> e in es && e.videoId == id
  {
    if es == [] {
    } else {
      AboutOccurs(es[..|es| - 1], id, e);
      assert es == es[..|es| - 1] + [es[|es| - 1]];
    }
  }

  /** In every reachable state a row is the summary of the events applied to it: their order
      matters only through the last terminal one and the last done one. */
  lemma RowSummarisesItsEvents(s: Sys, fx: Extractor, id: Uuid)
    requires Reachable(s, fx) && id in s.rows
    ensures && s.rows[id] == Summary(Birth(s.rows[id]), About(s.applied, id))
            && (s.rows[id].status.Terminal() <==> exists e :: e in s.applied && e.videoId == id && e.Terminal())
  {
    ReachableInv(s, fx);
    assert Replayed(s, id);
    FoldIsSummary(Birth(s.rows[id]), About(s.applied, id));
    forall e ensures e in About(s.applied, id) <==> e in s.applied && e.videoId == id {
      AboutOccurs(s.applied, id, e);
    }
    var last := LastTerminal(About(s.applied, id));
    if last.Some? { assert last.value in s.applied; }
  }

  /** If every terminal event published for a video writes the same values, then once one of them
      has been applied the row is that write, however often and in whatever order events arrived. */
  lemma AgreedOutcomeIsFinal(s: Sys, fx: Extractor, id: Uuid, t: Event)
    requires Reachable(s, fx) && id in s.rows
    requires t in s.applied && t.Terminal() && t.videoId == id
    requires forall e :: WasPublished(s, e) && e.Terminal() && e.videoId == id ==> SameWrite(e, t)
    ensures var row := s.rows[id]; row == Advance(Birth(row), t)
  {
    ReachableInv(s, fx);
    var es := About(s.applied, id);
    assert Replayed(s, id);
    AboutOccurs(s.applied, id, t);
    forall e | e in es && e.Terminal() ensures SameWrite(e, t) {
      AboutOccurs(s.applied, id, e);
      assert WasPublished(s, e);
    }
    assert [t][0] == t;
    AgreeingListsFoldAlike(Birth(s.rows[id]), es, [t], t);
  }

  // ----- messages -------------------------------------------------------------------------

  /** Every job or event, in whatever queue or state, names an existing row and agrees with the
      upload behind it; the source was stored, and a done event's archive too. */
  lemma MessagesReferToRealVideos(s: Sys, fx: Extractor, m: nat)
    requires Reachable(s, fx) && m < |s.msgs|
    ensures match s.msgs[m].body
            case JobMsg(job) =>
              && job.videoId in s.rows
              && s.rows[job.videoId].user == job.user
              && s.rows[job.videoId].sourceKey == job.sourceKey
              && s.rows[job.videoId].originalName == job.originalName
              && job.sourceKey in s.objects && s.objects[job.sourceKey].SourceVideo?
            case StatusMsg(e) =>
              && e.videoId in s.rows
              && WasPublished(s, e)
              && (e.DoneEvent? ==> e.zipKey == ZipKey(e.videoId) && e.zipKey in s.objects
                                   && s.objects[e.zipKey].Archive? && |s.objects[e.zipKey].frames| == e.frameCount > 0)
            case NoticeMsg(e) =>
              && e.FailedEvent? && e.videoId in s.rows && WasPublished(s, e)
              && e.user == s.rows[e.videoId].user && e.originalName == s.rows[e.videoId].originalName
              && e.reason != NoReason
            case Undecodable(_) => true
  {
    ReachableInv(s, fx);
    assert BodyOk(s, fx, s.msgs[m].body);
    match s.msgs[m].body
    case JobMsg(job) => assert RowOk(s, fx, job.videoId);
    case NoticeMsg(e) => assert RowOk(s, fx, e.videoId);
    case _ =>
  }

  lemma DeliveriesCount(s: Sys, fx: Extractor, a: Action, m: nat)
    requires Enabled(s, a) && m < |s.msgs|
    ensures var t := Next(s, fx, a);
            && m < |t.msgs|
            && t.msgs[m].deliveries == s.msgs[m].deliveries + (if a == Deliver(m) then 1 else 0)
            && t.msgs[m].losses == s.msgs[m].losses + (if a == LoseConnection(m) then 1 else 0)
  {
    Untouched(s, fx, a);
    assert a.Publishes() ==> Next(s, fx, a).msgs == Emit(s, a.h, EventBy(s, a), a.eff).msgs;
  }

  lemma NewMessagesCount(s: Sys, fx: Extractor, a: Action, m: nat)
    requires Enabled(s, a) && |s.msgs| <= m
    ensures m < |Next(s, fx, a).msgs| ==> Next(s, fx, a).msgs[m].deliveries == Next(s, fx, a).msgs[m].losses == 0
    ensures a != Deliver(m) && a != LoseConnection(m)
  {
    Untouched(s, fx, a);
    assert a.Publishes() ==> Next(s, fx, a).msgs == Emit(s, a.h, EventBy(s, a), a.eff).msgs;
  }

  /** The history counters are the number of deliveries and losses in the run. */
  lemma {:induction false} CountersCountActions(fx: Extractor, acts: seq<Action>, m: nat)
    requires Possible(INIT, fx, acts)
    ensures var s := After(INIT, fx, acts);
            if m < |s.msgs|
            then s.msgs[m].deliveries == multiset(acts)[Deliver(m)]
                 && s.msgs[m].losses == multiset(acts)[LoseConnection(m)]
            else multiset(acts)[Deliver(m)] == 0 && multiset(acts)[LoseConnection(m)] == 0
  {
    if acts == [] {
    } else {
      var front, a := acts[..|acts| - 1], acts[|acts| - 1];
      CountersCountActions(fx, front, m);
      assert acts == front + [a];
      assert multiset(acts) == multiset(front) + multiset{a};
      var s := After(INIT, fx, front);
      if m < |s.msgs| { DeliveriesCount(s, fx, a, m); } else { NewMessagesCount(s, fx, a, m); }
    }
  }

  /** On all three queues: one explicit requeue at most, at most two deliveries more than the
      connection losses that returned it, and given up on only when redelivered or undecodable. */
  lemma RetriesAreBounded(fx: Extractor, acts: seq<Action>, m: nat)
    requires Possible(INIT, fx, acts) && m < |After(INIT, fx, acts).msgs|
    ensures var x := After(INIT, fx, acts).msgs[m];
            && x.requeues <= 1
            && multiset(acts)[Deliver(m)] <= 2 + multiset(acts)[LoseConnection(m)]
            && (x.redelivered <==> x.requeues == 1 || multiset(acts)[LoseConnection(m)] > 0)
            && (x.place.DeadLettered? || x.place.Dropped? ==> x.redelivered || x.body.Undecodable?)
            && (x.place.DeadLettered? ==> x.body.Queue() == JobsQueue)
            && (x.place.Dropped? ==> x.body.Queue() != JobsQueue)
  {
    assert Reachable(After(INIT, fx, acts), fx);
    ReachableInv(After(INIT, fx, acts), fx);
    CountersCountActions(fx, acts, m);
    assert PlaceOk(After(INIT, fx, acts), m);
  }

  /** Every delivery is settled at most once, and exactly once when its handler is finished. */
  lemma {:induction false} DeliveriesSettleOnce(fx: Extractor, acts: seq<Action>, h: nat)
    requires Possible(INIT, fx, acts)
    ensures var s := After(INIT, fx, acts);
            multiset(acts)[Settle(h)] == if h < |s.handlers| && s.handlers[h].pc.Finished? then 1 else 0
  {
    hide Next;
    if acts == [] {
    } else {
      var front, a := acts[..|acts| - 1], acts[|acts| - 1];
      DeliveriesSettleOnce(fx, front, h);
      assert acts == front + [a];
      assert multiset(acts) == multiset(front) + multiset{a};
      SettlingStep(After(INIT, fx, front), fx, a, h);
    }
  }

  lemma SettlingStep(s: Sys, fx: Extractor, a: Action, h: nat)
    requires Enabled(s, a)
    ensures var t := Next(s, fx, a);
            var was := h < |s.handlers| && s.handlers[h].pc.Finished?;
            var ends := h < |t.handlers| && t.handlers[h].pc.Finished?;
            (a == Settle(h) ==> !was && ends) && (a != Settle(h) ==> (was <==> ends))
  {
    Untouched(s, fx, a);
    if h < |s.handlers| && !s.handlers[h].pc.Finished? { OnlySettleFinishes(s, fx, a, h); }
  }

  // ----- one Handle ------------------------------------------------------------------------

  /** A worker goroutine publishes no terminal event before it has decided, one if it reports
      success, at most one if it reports an error; an event names the video of its own job. */
  lemma HandleIsSound(s: Sys, fx: Extractor, h: nat)
    requires Reachable(s, fx) && h < |s.handlers|
    ensures && Live(s, h)
            && (BodyOf(s, h).JobMsg? ==>
                  && CountOk(s.handlers[h].pc, Terminals(s.published, h))
                  && (s.handlers[h].pc in {Settling(Handled), Finished(Handled)}
                      ==> TerminalPublished(s, JobOf(s, h).videoId)))
            && forall k :: 0 <= k < |s.published| && s.published[k].author == h
                           ==> BodyOf(s, h).JobMsg? && s.published[k].event.videoId == JobOf(s, h).videoId
  {
    ReachableInv(s, fx);
    assert HandlerOk(s, fx, h);
    forall k | 0 <= k < |s.published| && s.published[k].author == h
      ensures BodyOf(s, h).JobMsg? && s.published[k].event.videoId == JobOf(s, h).videoId
    {
      assert PublicationOk(s, fx, k);
    }
  }

  // ----- failure notifications ----------------------------------------------------------------

  /** What the ledger lists for a queue: as many events as it received failure messages ... */
  lemma {:induction false} FailuresCounted(ms: seq<Message>, q: QueueName)
    ensures |FailuresIn(ms, q)| == |set m | 0 <= m < |ms| && IsFailure(ms[m].body, q)|
  {
    var all := set m | 0 <= m < |ms| && IsFailure(ms[m].body, q);
    if ms == [] {
      assert all == {};
    } else {
      var n := |ms| - 1;
      var front := ms[..n];
      FailuresCounted(front, q);
      LastFailure(ms, q);
      var before := set m | 0 <= m < |front| && IsFailure(front[m].body, q);
      assert all == if IsFailure(ms[n].body, q) then before + {n} else before;
    }
  }

  /** ... and exactly theirs. */
  lemma {:induction false} FailuresListed(ms: seq<Message>, q: QueueName, e: Event)
    ensures e in FailuresIn(ms, q) <==> exists m :: 0 <= m < |ms| && HasFailure(ms, m, q, e)
  {
    hide FailuresIn;
    if ms == [] {
      NoFailures(q);
    } else {
      var n := |ms| - 1;
      var front := ms[..n];
      FailuresListed(front, q, e);
      LastFailure(ms, q);
      if m :| 0 <= m < |front| && HasFailure(front, m, q, e) { assert HasFailure(ms, m, q, e); }
      if m :| 0 <= m < |ms| && HasFailure(ms, m, q, e) { assert m < n ==> HasFailure(front, m, q, e); }
      if IsFailure(ms[n].body, q) && ms[n].body.event == e { assert HasFailure(ms, n, q, e); }
    }
  }

  predicate HasFailure(ms: seq<Message>, m: nat, q: QueueName, e: Event)
    requires m < |ms|
  {
    IsFailure(ms[m].body, q) && ms[m].body.event == e
  }

  lemma NoFailures(q: QueueName)
    ensures FailuresIn([], q) == []
  {
  }

  lemma LastFailure(ms: seq<Message>, q: QueueName)
    requires ms != []
    ensures var front, b := FailuresIn(ms[..|ms| - 1], q), ms[|ms| - 1].body;
            FailuresIn(ms, q) == if IsFailure(b, q) then front + [b.event] else front
  {
  }

  predicate IsFailure(b: Body, q: QueueName) {
    || (q == StatusQueue && b.StatusMsg? && b.event.FailedEvent?)
    || (q == NotificationsQueue && b.NoticeMsg? && b.event.FailedEvent?)
  }

  /** Status and notification queues have received the same failure events, in the order published. */
  lemma FailuresFanOut(s: Sys, fx: Extractor)
    requires Reachable(s, fx)
    ensures && FailuresIn(s.msgs, StatusQueue) == FailuresIn(s.msgs, NotificationsQueue) == FailuresOf(s.published)
            && multiset(FailuresIn(s.msgs, StatusQueue)) == multiset(FailuresIn(s.msgs, NotificationsQueue))
  {
    ReachableInv(s, fx);
  }

  /** Every e-mail reports a published failure to the address captured when that video was uploaded. */
  lemma MailsAreWarranted(s: Sys, fx: Extractor, k: nat)
    requires Reachable(s, fx) && k < |s.mails|
    ensures var mail := s.mails[k];
            && FailurePublished(s, mail.videoId, mail.reason)
            && mail.to != "" && mail.reason != NoReason
            && Known(s, mail.videoId) && mail.to == Origin(s, mail.videoId).email
            && s.rows[mail.videoId].user == Origin(s, mail.videoId).user
  {
    ReachableInv(s, fx);
    assert MailOk(s, k);
    assert BodyOk(s, fx, s.msgs[s.mails[k].msg].body);
    assert RowOk(s, fx, s.mails[k].videoId);
  }

  /** Every failure event with an address is queued, in flight, mailed, or dropped on a redelivery. */
  lemma NoticesAreAccountedFor(s: Sys, fx: Extractor, m: nat)
    requires Reachable(s, fx) && m < |s.msgs|
    requires var b := s.msgs[m].body; b.NoticeMsg? && b.event.FailedEvent? && b.event.email != ""
    ensures match s.msgs[m].place
            case Ready => true
            case Held(h) => h < |s.handlers| && s.handlers[h].msg == m && !s.handlers[h].pc.Finished?
            case Acked => Mailed(s, m)
            case Dropped => s.msgs[m].redelivered
            case DeadLettered => false
  {
    ReachableInv(s, fx);
    assert PlaceOk(s, m);
  }
}
