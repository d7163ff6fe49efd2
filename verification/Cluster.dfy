/** The running system as objects updated in place: broker, object store, videos table, mail
    relay. Every method is one effect, and each leaves the whole in a state the protocol can
    reach by the actions recorded in `trace`. */
module Cluster {
  import opened Domain
  import opened VideoTable
  import opened Protocol
  import opened Invariant
  import Safety
  import Topology

  // ----- object store ------------------------------------------------------------------------

  class ObjectStore {
    var objects: map<Key, Blob>

    constructor ()
      ensures objects == map[]
    {
      objects := map[];
    }

    method Put(key: Key, blob: Blob, eff: Effect) returns (err: bool)
      modifies this
      ensures err <==> eff != Works
      ensures objects == if eff.Landed() then old(objects)[key := blob] else old(objects)
    {
      if eff.Landed() { objects := objects[key := blob]; }
      err := eff != Works;
    }

    /** Copying an object to local disk fails if it is absent, and may fail anyway. */
    method Get(key: Key, ok: bool) returns (got: Option<Bytes>)
      ensures got == if ok && key in objects && objects[key].SourceVideo? then Some(objects[key].content) else None
    {
      if ok && key in objects && objects[key].SourceVideo? { return Some(objects[key].content); }
      return None;
    }

    /** Signing needs no look at the object; it may fail. */
    method PresignGet(key: Key, ok: bool) returns (url: Option<Key>)
      ensures url == if ok then Some(key) else None
    {
      if ok { return Some(key); }
      return None;
    }
  }

  // ----- broker --------------------------------------------------------------------------------

  datatype Payload = JobPayload(job: VideoJob) | EventPayload(event: Event)

  /** The status consumer decodes a body as the event its routing key announces. */
  predicate Announces(key: Topology.RoutingKey, e: Event) {
    match e
    case ProcessingEvent(_) => key == [Topology.Text("video"), Topology.Text("processing")]
    case DoneEvent(_, _, _) => key == [Topology.Text("video"), Topology.Text("done")]
    case FailedEvent(_, _, _, _, _) => key == [Topology.Text("video"), Topology.Text("failed")]
  }

  /** What a payload published under `key` decodes to for the consumer of `q`. */
  function BodyFor(q: QueueName, key: Topology.RoutingKey, p: Payload): Body {
    match (q, p)
    case (JobsQueue, JobPayload(job)) => JobMsg(job)
    case (StatusQueue, EventPayload(e)) => if Announces(key, e) then StatusMsg(e) else Undecodable(q)
    case (NotificationsQueue, EventPayload(e)) => NoticeMsg(e)
    case _ => Undecodable(q)
  }

  /** What queue `q` gets of a payload routed to the queues `to`. */
  function CopyFor(q: QueueName, to: set<Topology.QueueId>, key: Topology.RoutingKey, p: Payload): seq<Message> {
    if Topology.Consumed(q) in to then [Fresh(BodyFor(q, key, p))] else []
  }

  function KeyOf(e: Event): Topology.RoutingKey {
    match e
    case ProcessingEvent(_) => Topology.KEY_PROCESSING
    case DoneEvent(_, _, _) => Topology.KEY_DONE
    case FailedEvent(_, _, _, _, _) => Topology.KEY_FAILED
  }

  /** A delivery as a consumer sees it; `tag` is the handler started for it. */
  datatype Delivery = Delivery(msg: nat, tag: nat, redelivered: bool, body: Body)

  class Broker {
    var msgs: seq<Message>
    ghost var published: seq<Publication>

    constructor ()
      ensures msgs == [] && published == []
    {
      msgs, published := [], [];
    }

    /** The broker appends a copy to every queue the topology routes the message to. */
    method Route(exchange: Topology.ExchangeName, key: Topology.RoutingKey, p: Payload)
      modifies this`msgs
      ensures var to := Topology.Routes(Topology.TARGET, exchange, key);
              msgs == old(msgs) + CopyFor(JobsQueue, to, key, p) + CopyFor(StatusQueue, to, key, p)
                      + CopyFor(NotificationsQueue, to, key, p)
    {
      var to := Topology.Routes(Topology.TARGET, exchange, key);
      if Topology.Consumed(JobsQueue) in to { msgs := msgs + [Fresh(BodyFor(JobsQueue, key, p))]; }
      if Topology.Consumed(StatusQueue) in to { msgs := msgs + [Fresh(BodyFor(StatusQueue, key, p))]; }
      if Topology.Consumed(NotificationsQueue) in to { msgs := msgs + [Fresh(BodyFor(NotificationsQueue, key, p))]; }
    }

    method PublishVideoJob(job: VideoJob, eff: Effect) returns (err: bool)
      modifies this`msgs
      ensures err <==> eff != Works
      ensures msgs == if eff.Landed() then old(msgs) + [Fresh(JobMsg(job))] else old(msgs)
    {
      if eff.Landed() {
        Route(Topology.JobsExchange, Topology.KEY_JOB, JobPayload(job));
        Topology.JobRoutes(Topology.KEY_JOB);
      }
      err := eff != Works;
    }

    /** Lifecycle events go to the topic exchange under their own key; `author` is history. */
    method PublishEvent(e: Event, ghost author: nat, eff: Effect) returns (err: bool)
      modifies this
      ensures err <==> eff != Works
      ensures msgs == if eff.Landed() then old(msgs) + Copies(e) else old(msgs)
      ensures published == if eff.Landed() then old(published) + [Publication(e, author, |old(msgs)|)]
                           else old(published)
    {
      if eff.Landed() {
        published := published + [Publication(e, author, |msgs|)];
        Route(Topology.EventsExchange, KeyOf(e), EventPayload(e));
        Topology.EventRoutes(KeyOf(e));
        Topology.KeysDiffer();
      }
      err := eff != Works;
    }

    /** An ack under a tag the broker no longer knows has no effect. */
    method Ack(d: Delivery)
      requires d.msg < |msgs|
      modifies this`msgs
      ensures msgs == if old(msgs)[d.msg].place == Held(d.tag)
                      then old(msgs)[d.msg := old(msgs)[d.msg].(place := Acked)] else old(msgs)
    {
      if msgs[d.msg].place == Held(d.tag) {
        msgs := msgs[d.msg := msgs[d.msg].(place := Acked)];
      }
    }

    /** Rejected without requeue, a message goes where its queue's dead-letter exchange routes it,
        or is gone if the queue has none. */
    method Nack(d: Delivery, requeue: bool)
      requires d.msg < |msgs|
      modifies this`msgs
      ensures msgs == if old(msgs)[d.msg].place == Held(d.tag)
                      then old(msgs)[d.msg := SettleMessage(old(msgs)[d.msg], Retry, !requeue)] else old(msgs)
    {
      var x := msgs[d.msg];
      if x.place == Held(d.tag) {
        Topology.DeadLettering(x.body.Queue());
        if requeue {
          msgs := msgs[d.msg := x.(place := Ready, redelivered := true, requeues := x.requeues + 1)];
        } else if Topology.TARGET.queues[Topology.Consumed(x.body.Queue())].Some? {
          msgs := msgs[d.msg := x.(place := DeadLettered)];
        } else {
          msgs := msgs[d.msg := x.(place := Dropped)];
        }
      }
    }
  }

  class Mailer {
    var mails: seq<Mail>

    constructor ()
      ensures mails == []
    {
      mails := [];
    }

    method Send(mail: Mail, eff: Effect) returns (err: bool)
      modifies this
      ensures err <==> eff != Works
      ensures mails == if eff.Landed() then old(mails) + [mail] else old(mails)
    {
      if eff.Landed() { mails := mails + [mail]; }
      err := eff != Works;
    }
  }

  // ----- what other participants may do meanwhile ---------------------------------------------------

  /** None of the actions is a step of handler `h`. */
  predicate NotBy(acts: seq<Action>, h: nat) {
    forall i :: 0 <= i < |acts| && (acts[i].OfWorker() || acts[i].OfConsumer()) ==> acts[i].h != h
  }

  /** None of the actions is a step of upload `u`. */
  predicate NotOf(acts: seq<Action>, u: nat) {
    forall i :: 0 <= i < |acts| && acts[i].OfGateway() ==> acts[i].u != u
  }

  lemma {:induction false} OthersLeaveHandlerAlone(s: Sys, fx: Extractor, acts: seq<Action>, h: nat)
    requires Inv(s, fx) && Possible(s, fx, acts) && NotBy(acts, h) && h < |s.handlers|
    ensures var t := After(s, fx, acts);
            Inv(t, fx) && Extends(s, t) && t.handlers[h] == s.handlers[h]
            && Terminals(t.published, h) == Terminals(s.published, h)
  {
    Safety.RunKeepsInv(s, fx, acts);
    if acts == [] {
    } else {
      var front, a := acts[..|acts| - 1], acts[|acts| - 1];
      assert NotBy(front, h);
      OthersLeaveHandlerAlone(s, fx, front, h);
      var mid := After(s, fx, front);
      Safety.Untouched(mid, fx, a);
      Safety.CountsKept(mid, fx, a, h);
      Safety.OtherHandlerUntouched(mid, fx, a, h);
    }
  }

  lemma {:induction false} OthersLeaveUploadAlone(s: Sys, fx: Extractor, acts: seq<Action>, u: nat)
    requires Inv(s, fx) && Possible(s, fx, acts) && NotOf(acts, u) && u < |s.uploads|
    ensures var t := After(s, fx, acts);
            Inv(t, fx) && Extends(s, t) && u < |t.uploads| && t.uploads[u] == s.uploads[u]
  {
    Safety.RunKeepsInv(s, fx, acts);
    if acts == [] {
    } else {
      var front, a := acts[..|acts| - 1], acts[|acts| - 1];
      assert NotOf(front, u);
      OthersLeaveUploadAlone(s, fx, front, u);
      StepLeavesUploadAlone(After(s, fx, front), fx, a, u);
    }
  }

  lemma StepLeavesUploadAlone(s: Sys, fx: Extractor, a: Action, u: nat)
    requires Enabled(s, a) && u < |s.uploads| && (a.OfGateway() ==> a.u != u)
    ensures u < |Next(s, fx, a).uploads| && Next(s, fx, a).uploads[u] == s.uploads[u]
  {
  }

  /** The actions of handler `h`, in order. */
  function Own(acts: seq<Action>, h: nat): seq<Action> {
    if acts == [] then []
    else
      var front, a := Own(acts[..|acts| - 1], h), acts[|acts| - 1];
      if (a.OfWorker() || a.OfConsumer()) && a.h == h then front + [a] else front
  }

  lemma OwnAppend(acts: seq<Action>, a: Action, h: nat)
    ensures Own(acts + [a], h) == Own(acts, h) + (if (a.OfWorker() || a.OfConsumer()) && a.h == h then [a] else [])
  {
    assert (acts + [a])[..|acts|] == acts;
  }

  lemma {:induction false} OwnOfOthers(acts: seq<Action>, more: seq<Action>, h: nat)
    requires NotBy(more, h)
    ensures Own(acts + more, h) == Own(acts, h)
  {
    if more == [] {
      assert acts + more == acts;
    } else {
      var front, a := more[..|more| - 1], more[|more| - 1];
      assert NotBy(front, h);
      OwnOfOthers(acts, front, h);
      OwnAppend(acts + front, a, h);
      assert acts + front + [a] == acts + more;
    }
  }

  /** The actions of upload `u`, in order. */
  function OwnOf(acts: seq<Action>, u: nat): seq<Action> {
    if acts == [] then []
    else
      var front, a := OwnOf(acts[..|acts| - 1], u), acts[|acts| - 1];
      if a.OfGateway() && a.u == u then front + [a] else front
  }

  lemma OwnOfAppend(acts: seq<Action>, a: Action, u: nat)
    ensures OwnOf(acts + [a], u) == OwnOf(acts, u) + (if a.OfGateway() && a.u == u then [a] else [])
  {
    assert (acts + [a])[..|acts|] == acts;
  }

  lemma {:induction false} OwnOfOtherUploads(acts: seq<Action>, more: seq<Action>, u: nat)
    requires NotOf(more, u)
    ensures OwnOf(acts + more, u) == OwnOf(acts, u)
  {
    if more == [] {
      assert acts + more == acts;
    } else {
      var front, a := more[..|more| - 1], more[|more| - 1];
      assert NotOf(front, u);
      OwnOfOtherUploads(acts, front, u);
      OwnOfAppend(acts + front, a, u);
      assert acts + front + [a] == acts + more;
    }
  }

  // ----- one step of the handler of a delivery -----------------------------------------------------------

  /** In `s` delivery `d` is being handled, and its handler is at `pc`. */
  predicate Serves(s: Sys, d: Delivery, pc: Pc) {
    && Live(s, d.tag)
    && s.handlers[d.tag] == Handler(d.msg, d.redelivered, pc)
    && BodyOf(s, d.tag) == d.body
  }

  /** Action `a` takes the handler of `d` to `pc`; everything else becomes what it is in `t`. */
  ghost predicate Moves(s: Sys, fx: Extractor, a: Action, t: Sys, d: Delivery, pc: Pc) {
    && (a.OfWorker() || a.OfConsumer()) && a.h == d.tag
    && Enabled(s, a)
    && d.tag < |t.handlers|
    && Next(s, fx, a) == SetPc(t, d.tag, pc)
    && Serves(Next(s, fx, a), d, pc)
  }

  lemma TagOf(s: Sys, d: Delivery, pc: Pc)
    requires Serves(s, d, pc)
    ensures d.tag < |s.handlers| && s.handlers[d.tag].pc == pc
  {
  }

  lemma ServesKept(s: Sys, t: Sys, d: Delivery, pc: Pc)
    requires Serves(s, d, pc) && Extends(s, t) && t.handlers[d.tag] == s.handlers[d.tag]
    ensures Serves(t, d, pc)
  {
  }

  function AfterReport(err: bool): Pc { Settling(if err then Retry else Handled) }

  lemma AnnounceStep(s: Sys, fx: Extractor, d: Delivery, eff: Effect)
    requires Serves(s, d, Announcing) && d.body.JobMsg?
    ensures Moves(s, fx, Action.PublishProcessing(d.tag, eff),
                  Emit(s, d.tag, ProcessingEvent(d.body.job.videoId), eff), d, MakingDir)
  {
  }

  lemma MakeDirStep(s: Sys, fx: Extractor, d: Delivery, ok: bool)
    requires Serves(s, d, MakingDir) && d.body.JobMsg?
    ensures Moves(s, fx, Action.MakeWorkDir(d.tag, ok), s, d, if ok then Fetching else Settling(Retry))
  {
  }

  lemma DownloadStep(s: Sys, fx: Extractor, d: Delivery, got: Option<Bytes>)
    requires Serves(s, d, Fetching) && d.body.JobMsg?
    requires got.Some? ==> d.body.job.sourceKey in s.objects
                             && s.objects[d.body.job.sourceKey] == SourceVideo(got.value)
    ensures Moves(s, fx, Action.Download(d.tag, got.Some?), s, d,
                  if got.Some? then Extracting(got.value) else ReportingFailed(SourceUnavailable))
  {
  }

  lemma ExtractStep(s: Sys, fx: Extractor, d: Delivery, source: Bytes, ok: bool)
    requires Serves(s, d, Extracting(source)) && (ok ==> fx(source) != [])
    ensures Moves(s, fx, Action.RunExtraction(d.tag, ok), s, d,
                  if ok then StoringZip(fx(source)) else ReportingFailed(NotProcessable))
  {
  }

  lemma PutZipStep(s: Sys, fx: Extractor, d: Delivery, frames: seq<Frame>, eff: Effect)
    requires Serves(s, d, StoringZip(frames)) && d.body.JobMsg?
    ensures var key := ZipKey(d.body.job.videoId);
            Moves(s, fx, Action.PutZip(d.tag, eff),
                  s.(objects := if eff.Landed() then s.objects[key := Archive(frames)] else s.objects), d,
                  if eff == Works then ReportingDone(frames) else Settling(Retry))
  {
  }

  lemma DoneStep(s: Sys, fx: Extractor, d: Delivery, frames: seq<Frame>, eff: Effect)
    requires Serves(s, d, ReportingDone(frames)) && d.body.JobMsg?
    ensures Moves(s, fx, Action.PublishDone(d.tag, eff),
                  Emit(s, d.tag, DoneOf(d.body.job, frames), eff), d, AfterReport(eff != Works))
  {
  }

  lemma FailedStep(s: Sys, fx: Extractor, d: Delivery, reason: Reason, eff: Effect)
    requires Serves(s, d, ReportingFailed(reason)) && d.body.JobMsg?
    ensures Moves(s, fx, Action.PublishFailed(d.tag, eff),
                  Emit(s, d.tag, FailedOf(d.body.job, reason), eff), d, AfterReport(eff != Works))
  {
  }

  lemma ApplyStep(s: Sys, fx: Extractor, d: Delivery, eff: Effect)
    requires Serves(s, d, Applying) && d.body.StatusMsg?
    ensures var e := d.body.event;
            Moves(s, fx, ApplyEvent(d.tag, eff),
                  s.(rows := if eff.Landed() then Apply(s.rows, e) else s.rows,
                     applied := if eff.Landed() then s.applied + [e] else s.applied), d, AfterReport(eff != Works))
  {
  }

  lemma MailStep(s: Sys, fx: Extractor, d: Delivery, eff: Effect)
    requires Serves(s, d, Mailing) && d.body.NoticeMsg? && d.body.event.FailedEvent?
    ensures var e := d.body.event;
            Moves(s, fx, Action.SendMail(d.tag, eff),
                  s.(mails := if eff.Landed() then s.mails + [Mail(e.email, e.videoId, e.reason, d.msg)] else s.mails),
                  d, AfterReport(eff != Works))
  {
  }

  lemma SettleStep(s: Sys, fx: Extractor, d: Delivery, verdict: Verdict)
    requires Serves(s, d, Settling(verdict))
    ensures d.msg < |s.msgs| && s.msgs[d.msg].body == d.body
    ensures Moves(s, fx, Action.Settle(d.tag),
                  s.(msgs := if s.msgs[d.msg].place == Held(d.tag)
                             then s.msgs[d.msg := SettleMessage(s.msgs[d.msg], verdict, d.redelivered)] else s.msgs),
                  d, Finished(verdict))
  {
  }

  // ----- the cluster ------------------------------------------------------------------------------------

  class Cluster {
    const fx: Extractor
    const videos: VideoRepository
    const store: ObjectStore
    const broker: Broker
    const mailer: Mailer
    ghost const repr: set<object>

    ghost var uploads: seq<Upload>
    ghost var origin: map<Uuid, nat>
    ghost var handlers: seq<Handler>
    ghost var applied: seq<Event>
    ghost var trace: seq<Action>

    constructor (fx: Extractor)
      ensures Valid() && trace == [] && this.fx == fx && fresh(repr)
    {
      this.fx := fx;
      videos := new VideoRepository();
      store := new ObjectStore();
      broker := new Broker();
      mailer := new Mailer();
      uploads, origin, handlers, applied, trace := [], map[], [], [], [];
      repr := {this, videos, store, broker, mailer};
    }

    /** The protocol state these objects represent. */
    ghost function Now(): Sys
      reads this, videos, store, broker, mailer
    {
      Sys(uploads, store.objects, videos.rows, origin, broker.msgs, handlers, broker.published, mailer.mails, applied)
    }

    ghost predicate Valid()
      reads this, videos, store, broker, mailer
    {
      && repr == {this, videos, store, broker, mailer}
      && Possible(INIT, fx, trace)
      && After(INIT, fx, trace) == Now()
    }

    lemma Holds()
      requires Valid()
      ensures Inv(Now(), fx)
    {
      assert Reachable(Now(), fx);
      Safety.ReachableInv(Now(), fx);
    }

    /** Record an action whose effect the objects already show. */
    ghost method Record(s: Sys, a: Action)
      requires repr == {this, videos, store, broker, mailer}
      requires Possible(INIT, fx, trace) && After(INIT, fx, trace) == s
      requires Enabled(s, a) && Now() == Next(s, fx, a)
      modifies this`trace
      ensures Valid() && trace == old(trace) + [a]
      ensures a.OfWorker() || a.OfConsumer() ==> Own(trace, a.h) == Own(old(trace), a.h) + [a]
      ensures a.OfGateway() ==> OwnOf(trace, a.u) == OwnOf(old(trace), a.u) + [a]
    {
      RunStep(INIT, fx, trace, a);
      if a.OfGateway() { OwnOfAppend(trace, a, a.u); }
      if a.OfWorker() || a.OfConsumer() { OwnAppend(trace, a, a.h); }
      trace := trace + [a];
    }

    /** Any number of steps by everybody else: other handlers, uploads, the broker, lost connections. */
    method Interfere(ghost h: nat) returns (ghost more: seq<Action>)
      requires Valid()
      modifies repr
      ensures Valid() && trace == old(trace) + more && NotBy(more, h)
      ensures Possible(old(Now()), fx, more) && After(old(Now()), fx, more) == Now()
    {
      more := [];
    }

    /** Interference between two effects of the handler working on `d`. */
    method Yield(ghost d: Delivery, ghost pc: Pc)
      requires At(d, pc)
      modifies repr
      ensures At(d, pc) && old(trace) <= trace && Steps(d) == old(Steps(d))
      ensures Extends(old(Now()), Now())
    {
      hide After, Possible, Next, Enabled, Serves, Inv, Extends, Own;
      ghost var s := Now();
      Holds();
      TagOf(s, d, pc);
      ghost var more := Interfere(d.tag);
      OwnOfOthers(old(trace), more, d.tag);
      OthersLeaveHandlerAlone(s, fx, more, d.tag);
      ServesKept(s, Now(), d, pc);
    }

    /** The same, seen from upload `u`. */
    method InterfereUpload(ghost u: nat) returns (ghost more: seq<Action>)
      requires Valid()
      modifies repr
      ensures Valid() && trace == old(trace) + more && NotOf(more, u)
      ensures Possible(old(Now()), fx, more) && After(old(Now()), fx, more) == Now()
    {
      more := [];
    }

    method YieldUpload(ghost u: nat)
      requires Valid() && u < |uploads|
      modifies repr
      ensures Valid() && old(trace) <= trace
      ensures u < |uploads| && uploads[u] == old(uploads[u]) && OwnOf(trace, u) == OwnOf(old(trace), u)
    {
      ghost var s := Now();
      Holds();
      ghost var more := InterfereUpload(u);
      OwnOfOtherUploads(old(trace), more, u);
      OthersLeaveUploadAlone(s, fx, more, u);
    }

    /** Between two reads, anything may happen. */
    method YieldAll()
      requires Valid()
      modifies repr
      ensures Valid() && old(trace) <= trace
      ensures Inv(Now(), fx) && Extends(old(Now()), Now())
    {
      Holds();
    }

    /** The handler of `d` is at `pc`. */
    ghost predicate At(d: Delivery, pc: Pc)
      reads this, videos, store, broker, mailer
    {
      Valid() && Serves(Now(), d, pc)
    }

    /** What the handler of `d` has done so far. */
    ghost function Steps(d: Delivery): seq<Action>
      reads this
    {
      Own(trace, d.tag)
    }

    /** The state before the last action. */
    ghost function Previous(): Sys
      requires Valid() && trace != []
      reads this, videos, store, broker, mailer
    {
      After(INIT, fx, trace[..|trace| - 1])
    }

    /** The last action settled `d`: the message is at `place` if the delivery was still outstanding,
        and where it was if a lost connection had returned it. */
    ghost predicate LeftAt(d: Delivery, place: Place)
      reads this, videos, store, broker, mailer
    {
      && Valid() && trace != [] && trace[|trace| - 1] == Action.Settle(d.tag)
      && d.msg < |Previous().msgs| == |broker.msgs|
      && broker.msgs[d.msg].place ==
         (if Previous().msgs[d.msg].place == Held(d.tag) then place else Previous().msgs[d.msg].place)
      && broker.msgs[d.msg].place != Held(d.tag)
    }

    /** What a handler that has settled as handled can show. */
    lemma SettledFacts(d: Delivery, pc: Pc)
      requires At(d, pc)
      ensures d.body.JobMsg? ==> CountOk(pc, Terminals(broker.published, d.tag))
      ensures pc == Finished(Handled) ==> Discharged(Now(), d.msg) && Now().msgs[d.msg].body == d.body
    {
      Holds();
      assert HandlerOk(Now(), fx, d.tag);
    }

    /** The source a job names is in the store. */
    lemma SourceFacts(d: Delivery, pc: Pc)
      requires At(d, pc) && d.body.JobMsg?
      ensures d.body.job.sourceKey in store.objects && store.objects[d.body.job.sourceKey].SourceVideo?
    {
      Holds();
      assert BodyOk(Now(), fx, Now().msgs[d.msg].body);
      assert RowOk(Now(), fx, d.body.job.videoId);
    }

    /** What is in the store when a worker is about to report success. */
    lemma ReportingFacts(d: Delivery, frames: seq<Frame>)
      requires At(d, ReportingDone(frames)) && d.body.JobMsg?
      ensures var key := ZipKey(d.body.job.videoId);
              key in store.objects && store.objects[key] == Archive(frames) && frames != []
    {
      Holds();
      assert HandlerOk(Now(), fx, d.tag);
    }

    /** The topology sends the notifications queue nothing but failures. */
    lemma NoticesAreFailures(d: Delivery, pc: Pc)
      requires At(d, pc)
      ensures d.body.NoticeMsg? ==> d.body.event.FailedEvent?
    {
      Holds();
      assert BodyOk(Now(), fx, Now().msgs[d.msg].body);
    }

    /** The handler of `d` moves to `pc` by action `a`, the effect of which the components show. */
    ghost method Commit(s: Sys, a: Action, d: Delivery, pc: Pc)
      requires repr == {this, videos, store, broker, mailer}
      requires Possible(INIT, fx, trace) && After(INIT, fx, trace) == s
      requires Moves(s, fx, a, Now(), d, pc)
      modifies this`handlers, this`trace
      ensures At(d, pc) && trace == old(trace) + [a] && Steps(d) == old(Steps(d)) + [a]
    {
      hide After, Possible, Next, Enabled, Serves;
      handlers := handlers[d.tag := handlers[d.tag].(pc := pc)];
      Record(s, a);
    }

    // --- worker effects ---

    method PublishProcessing(videoId: Uuid, eff: Effect, ghost d: Delivery) returns (err: bool)
      requires At(d, Announcing) && d.body.JobMsg? && d.body.job.videoId == videoId
      modifies repr
      ensures At(d, MakingDir) && (err <==> eff != Works)
      ensures store.objects == old(store.objects)
      ensures trace == old(trace) + [Action.PublishProcessing(d.tag, eff)]
      ensures Steps(d) == old(Steps(d)) + [Action.PublishProcessing(d.tag, eff)]
    {
      hide After, Possible, Next, Enabled, Serves, Moves;
      ghost var s := Now();
      err := broker.PublishEvent(ProcessingEvent(videoId), d.tag, eff);
      AnnounceStep(s, fx, d, eff);
      assert Now() == Emit(s, d.tag, ProcessingEvent(videoId), eff);
      Commit(s, Action.PublishProcessing(d.tag, eff), d, MakingDir);
    }

    method MakeWorkDir(ok: bool, ghost d: Delivery)
      requires At(d, MakingDir) && d.body.JobMsg?
      modifies repr
      ensures At(d, if ok then Fetching else Settling(Retry))
      ensures store.objects == old(store.objects)
      ensures trace == old(trace) + [Action.MakeWorkDir(d.tag, ok)]
      ensures Steps(d) == old(Steps(d)) + [Action.MakeWorkDir(d.tag, ok)]
    {
      hide After, Possible, Next, Enabled, Serves, Moves;
      MakeDirStep(Now(), fx, d, ok);
      Commit(Now(), Action.MakeWorkDir(d.tag, ok), d, if ok then Fetching else Settling(Retry));
    }

    /** Nothing but the transfer can go wrong: the source of a job is there. */
    method Download(key: Key, ok: bool, ghost d: Delivery) returns (got: Option<Bytes>)
      requires At(d, Fetching) && d.body.JobMsg? && d.body.job.sourceKey == key
      modifies repr
      ensures At(d, if got.Some? then Extracting(got.value) else ReportingFailed(SourceUnavailable))
      ensures got.Some? <==> ok
      ensures got.Some? ==> key in store.objects && store.objects[key] == SourceVideo(got.value)
      ensures store.objects == old(store.objects)
      ensures trace == old(trace) + [Action.Download(d.tag, ok)]
      ensures Steps(d) == old(Steps(d)) + [Action.Download(d.tag, ok)]
    {
      hide After, Possible, Next, Enabled, Serves, Moves;
      SourceFacts(d, Fetching);
      got := store.Get(key, ok);
      DownloadStep(Now(), fx, d, got);
      Commit(Now(), Action.Download(d.tag, ok), d,
             if got.Some? then Extracting(got.value) else ReportingFailed(SourceUnavailable));
    }

    /** ffmpeg on the downloaded file; it may fail on any input, and yielding no frame is a failure. */
    method RunExtraction(source: Bytes, ok: bool, ghost d: Delivery) returns (frames: Option<seq<Frame>>)
      requires At(d, Extracting(source))
      modifies repr
      ensures At(d, if frames.Some? then StoringZip(frames.value) else ReportingFailed(NotProcessable))
      ensures frames == if ok && fx(source) != [] then Some(fx(source)) else None
      ensures store.objects == old(store.objects)
      ensures trace == old(trace) + [Action.RunExtraction(d.tag, frames.Some?)]
      ensures Steps(d) == old(Steps(d)) + [Action.RunExtraction(d.tag, frames.Some?)]
    {
      hide After, Possible, Next, Enabled, Serves, Moves;
      frames := if ok && fx(source) != [] then Some(fx(source)) else None;
      ExtractStep(Now(), fx, d, source, frames.Some?);
      Commit(Now(), Action.RunExtraction(d.tag, frames.Some?), d,
             if frames.Some? then StoringZip(frames.value) else ReportingFailed(NotProcessable));
    }

    method PutZip(key: Key, frames: seq<Frame>, eff: Effect, ghost d: Delivery) returns (err: bool)
      requires At(d, StoringZip(frames)) && d.body.JobMsg? && key == ZipKey(d.body.job.videoId)
      modifies repr
      ensures At(d, if err then Settling(Retry) else ReportingDone(frames)) && (err <==> eff != Works)
      ensures !err ==> store.objects == old(store.objects)[key := Archive(frames)]
      ensures trace == old(trace) + [Action.PutZip(d.tag, eff)]
      ensures Steps(d) == old(Steps(d)) + [Action.PutZip(d.tag, eff)]
    {
      hide After, Possible, Next, Enabled, Serves, Moves;
      ghost var s := Now();
      err := store.Put(key, Archive(frames), eff);
      PutZipStep(s, fx, d, frames, eff);
      assert Now() == s.(objects := store.objects);
      Commit(s, Action.PutZip(d.tag, eff), d, if err then Settling(Retry) else ReportingDone(frames));
    }

    method PublishDone(e: Event, ghost frames: seq<Frame>, eff: Effect, ghost d: Delivery) returns (err: bool)
      requires At(d, ReportingDone(frames)) && d.body.JobMsg? && e == DoneOf(d.body.job, frames)
      modifies repr
      ensures At(d, AfterReport(err)) && (err <==> eff != Works)
      ensures !err ==> broker.published == old(broker.published) + [Publication(e, d.tag, |old(broker.msgs)|)]
      ensures store.objects == old(store.objects)
      ensures trace == old(trace) + [Action.PublishDone(d.tag, eff)]
      ensures Steps(d) == old(Steps(d)) + [Action.PublishDone(d.tag, eff)]
    {
      hide After, Possible, Next, Enabled, Serves, Moves;
      ghost var s := Now();
      err := broker.PublishEvent(e, d.tag, eff);
      DoneStep(s, fx, d, frames, eff);
      assert Now() == Emit(s, d.tag, e, eff);
      Commit(s, Action.PublishDone(d.tag, eff), d, AfterReport(err));
    }

    method PublishFailed(e: Event, ghost reason: Reason, eff: Effect, ghost d: Delivery) returns (err: bool)
      requires At(d, ReportingFailed(reason)) && d.body.JobMsg? && e == FailedOf(d.body.job, reason)
      modifies repr
      ensures At(d, AfterReport(err)) && (err <==> eff != Works)
      ensures !err ==> broker.published == old(broker.published) + [Publication(e, d.tag, |old(broker.msgs)|)]
      ensures trace == old(trace) + [Action.PublishFailed(d.tag, eff)]
      ensures Steps(d) == old(Steps(d)) + [Action.PublishFailed(d.tag, eff)]
    {
      hide After, Possible, Next, Enabled, Serves, Moves;
      ghost var s := Now();
      err := broker.PublishEvent(e, d.tag, eff);
      FailedStep(s, fx, d, reason, eff);
      assert Now() == Emit(s, d.tag, e, eff);
      Commit(s, Action.PublishFailed(d.tag, eff), d, AfterReport(err));
    }

    // --- status consumer and notifier effects ---

    /** Control state after an UPDATE for the event of `d` has been sent. */
    ghost method CommitUpdate(s: Sys, d: Delivery, eff: Effect)
      requires repr == {this, videos, store, broker, mailer}
      requires Possible(INIT, fx, trace) && After(INIT, fx, trace) == s
      requires Serves(s, d, Applying) && d.body.StatusMsg?
      requires Now() == s.(rows := if eff.Landed() then Apply(s.rows, d.body.event) else s.rows)
      modifies this`handlers, this`applied, this`trace
      ensures At(d, AfterReport(eff != Works))
      ensures trace == old(trace) + [ApplyEvent(d.tag, eff)]
    {
      hide After, Possible, Next, Enabled, Serves, Moves;
      if eff.Landed() { applied := applied + [d.body.event]; }
      ApplyStep(s, fx, d, eff);
      Commit(s, ApplyEvent(d.tag, eff), d, AfterReport(eff != Works));
    }

    method MarkProcessing(id: Uuid, eff: Effect, ghost d: Delivery) returns (err: bool)
      requires At(d, Applying) && d.body == StatusMsg(ProcessingEvent(id))
      modifies repr
      ensures At(d, AfterReport(err))
      ensures trace == old(trace) + [ApplyEvent(d.tag, eff)] && (err <==> eff != Works)
      ensures !err ==> videos.rows == Apply(old(videos.rows), d.body.event)
    {
      hide After, Possible, Next, Enabled, Serves, Moves, Apply;
      ghost var s := Now();
      err := videos.MarkProcessing(id, eff);
      CommitUpdate(s, d, eff);
    }

    method MarkDone(id: Uuid, zipKey: Key, frameCount: int, eff: Effect, ghost d: Delivery) returns (err: bool)
      requires At(d, Applying) && d.body == StatusMsg(DoneEvent(id, zipKey, frameCount))
      modifies repr
      ensures At(d, AfterReport(err))
      ensures trace == old(trace) + [ApplyEvent(d.tag, eff)] && (err <==> eff != Works)
      ensures !err ==> videos.rows == Apply(old(videos.rows), d.body.event)
    {
      hide After, Possible, Next, Enabled, Serves, Moves, Apply;
      ghost var s := Now();
      err := videos.MarkDone(id, zipKey, frameCount, eff);
      CommitUpdate(s, d, eff);
    }

    method MarkFailed(id: Uuid, reason: Reason, eff: Effect, ghost d: Delivery) returns (err: bool)
      requires At(d, Applying) && d.body.StatusMsg? && d.body.event.FailedEvent?
      requires d.body.event.videoId == id && d.body.event.reason == reason
      modifies repr
      ensures At(d, AfterReport(err))
      ensures trace == old(trace) + [ApplyEvent(d.tag, eff)] && (err <==> eff != Works)
      ensures !err ==> videos.rows == Apply(old(videos.rows), d.body.event)
    {
      hide After, Possible, Next, Enabled, Serves, Moves;
      ghost var s := Now();
      err := videos.MarkFailed(id, reason, eff);
      CommitUpdate(s, d, eff);
    }

    method SendMail(e: Event, m: nat, eff: Effect, ghost d: Delivery) returns (err: bool)
      requires At(d, Mailing) && d.msg == m && d.body == NoticeMsg(e) && e.FailedEvent?
      modifies repr
      ensures At(d, AfterReport(err))
      ensures trace == old(trace) + [Action.SendMail(d.tag, eff)] && (err <==> eff != Works)
      ensures !err ==> mailer.mails == old(mailer.mails) + [Mail(e.email, e.videoId, e.reason, m)]
    {
      hide After, Possible, Next, Enabled, Serves, Moves;
      ghost var s := Now();
      err := mailer.Send(Mail(e.email, e.videoId, e.reason, m), eff);
      MailStep(s, fx, d, eff);
      Commit(s, Action.SendMail(d.tag, eff), d, AfterReport(err));
    }

    // --- settling a delivery ---

    method Ack(d: Delivery)
      requires At(d, Settling(Handled))
      modifies repr
      ensures At(d, Finished(Handled)) && trace == old(trace) + [Settle(d.tag)]
      ensures LeftAt(d, Acked)
    {
      hide After, Possible, Next, Enabled, Serves, Moves;
      ghost var s := Now();
      SettleStep(s, fx, d, Handled);
      broker.Ack(d);
      Commit(s, Action.Settle(d.tag), d, Finished(Handled));
      assert trace[..|trace| - 1] == old(trace);
    }

    method Nack(d: Delivery, requeue: bool)
      requires At(d, Settling(if d.body.Undecodable? then Reject else Retry))
      requires requeue == (!d.body.Undecodable? && !d.redelivered)
      modifies repr
      ensures At(d, Finished(if d.body.Undecodable? then Reject else Retry)) && trace == old(trace) + [Settle(d.tag)]
      ensures LeftAt(d, if requeue then Ready else if d.body.Queue() == JobsQueue then DeadLettered else Dropped)
    {
      hide After, Possible, Next, Enabled, Serves, Moves;
      ghost var s := Now();
      ghost var v := if d.body.Undecodable? then Reject else Retry;
      SettleStep(s, fx, d, v);
      broker.Nack(d, requeue);
      Commit(s, Action.Settle(d.tag), d, Finished(v));
      assert trace[..|trace| - 1] == old(trace);
    }

    // --- gateway effects ---

    /** What the record of an accepted upload guarantees. */
    lemma AcceptedFacts(u: nat)
      requires Valid() && u < |uploads| && uploads[u].pc == Replied(Accepted)
      ensures var up := uploads[u];
              && up.key in store.objects && store.objects[up.key] == SourceVideo(up.content)
              && up.id in videos.rows && videos.rows[up.id].user == up.user
              && videos.rows[up.id].originalName == up.name && videos.rows[up.id].sourceKey == up.key
              && up.job < |broker.msgs| && broker.msgs[up.job].body == JobMsg(up.Job())
    {
      Holds();
      assert UploadOk(Now(), u);
      assert RowOk(Now(), fx, uploads[u].id);
    }

    ghost method StartUpload(user: Uuid, name: string, ext: string, content: Bytes) returns (u: nat)
      requires Valid()
      modifies repr
      ensures Valid() && trace == old(trace) + [Action.StartUpload(user, name, ext, content)]
      ensures u == |old(uploads)|
      ensures uploads == old(uploads) + [Upload(user, name, ext, content, NoKey, 0, "", 0, StoringSource)]
      ensures unchanged(videos) && unchanged(store) && unchanged(broker) && unchanged(mailer)
    {
      var s := Now();
      u := |uploads|;
      uploads := uploads + [Upload(user, name, ext, content, NoKey, 0, "", 0, StoringSource)];
      Record(s, Action.StartUpload(user, name, ext, content));
    }

    ghost method SetUploadTo(u: nat, up: Upload)
      requires u < |uploads|
      modifies this`uploads
      ensures uploads == old(uploads)[u := up]
    {
      uploads := uploads[u := up];
    }

    method PutSource(user: Uuid, ext: string, content: Bytes, eff: Effect, ghost u: nat)
      returns (key: Key, err: bool, ghost uuid: Uuid)
      requires Valid() && UploadAt(Now(), u, StoringSource)
      requires uploads[u].user == user && uploads[u].ext == ext && uploads[u].content == content
      modifies repr
      ensures Valid() && trace == old(trace) + [Action.PutSource(u, uuid, eff)] && (err <==> eff != Works)
      ensures OwnOf(trace, u) == OwnOf(old(trace), u) + [Action.PutSource(u, uuid, eff)]
      ensures key == SourceKey(user, uuid, ext)
      ensures uploads == old(uploads)[u := old(uploads)[u].(
                           key := key, pc := if err then Replied(ServerError) else InsertingRow)]
    {
      hide After, Possible;
      ghost var s := Now();
      ghost var spare := FreshSource(store.objects.Keys, user, ext);
      assert SourceKey(user, spare, ext) !in store.objects;
      var name: Uuid :| SourceKey(user, name, ext) !in store.objects;
      key := SourceKey(user, name, ext);
      err := store.Put(key, SourceVideo(content), eff);
      uuid := name;
      SetUploadTo(u, uploads[u].(key := key, pc := if err then Replied(ServerError) else InsertingRow));
      Record(s, Action.PutSource(u, uuid, eff));
    }

    method InsertRow(user: Uuid, name: string, key: Key, now: nat, eff: Effect, ghost u: nat)
      returns (id: Uuid, err: bool)
      requires Valid() && UploadAt(Now(), u, InsertingRow)
      requires uploads[u].user == user && uploads[u].name == name && uploads[u].key == key
      modifies repr
      ensures Valid() && trace == old(trace) + [Action.InsertRow(u, id, now, eff)] && (err <==> eff != Works)
      ensures OwnOf(trace, u) == OwnOf(old(trace), u) + [Action.InsertRow(u, id, now, eff)]
      ensures uploads == old(uploads)[u := old(uploads)[u].(
                           id := id, pc := if err then Replied(ServerError) else ResolvingOwner)]
    {
      hide After, Possible;
      ghost var s := Now();
      ghost var spare := FreshId(videos.rows.Keys);
      assert spare !in videos.rows;
      id :| id !in videos.rows;
      err := videos.Create(id, user, name, key, now, eff);
      if eff.Landed() { origin := origin[id := u]; }
      SetUploadTo(u, uploads[u].(id := id, pc := if err then Replied(ServerError) else ResolvingOwner));
      Record(s, Action.InsertRow(u, id, now, eff));
    }

    ghost method ResolveOwner(u: nat, address: string)
      requires Valid() && UploadAt(Now(), u, ResolvingOwner)
      modifies repr
      ensures Valid() && trace == old(trace) + [Action.ResolveOwner(u, address)]
      ensures OwnOf(trace, u) == OwnOf(old(trace), u) + [Action.ResolveOwner(u, address)]
      ensures uploads == old(uploads)[u := old(uploads)[u].(email := address, pc := Enqueueing)]
      ensures unchanged(videos) && unchanged(store) && unchanged(broker) && unchanged(mailer)
    {
      var s := Now();
      SetUploadTo(u, uploads[u].(email := address, pc := Enqueueing));
      Record(s, Action.ResolveOwner(u, address));
    }

    method PublishJob(job: VideoJob, eff: Effect, ghost u: nat) returns (err: bool)
      requires Valid() && UploadAt(Now(), u, Enqueueing) && job == uploads[u].Job()
      modifies repr
      ensures Valid() && trace == old(trace) + [Action.PublishJob(u, eff)] && (err <==> eff != Works)
      ensures OwnOf(trace, u) == OwnOf(old(trace), u) + [Action.PublishJob(u, eff)]
      ensures uploads == old(uploads)[u := old(uploads)[u].(
                           job := |old(broker.msgs)|, pc := Replied(if err then ServerError else Accepted))]
    {
      hide After, Possible;
      ghost var s := Now();
      ghost var j := |broker.msgs|;
      err := broker.PublishVideoJob(job, eff);
      SetUploadTo(u, uploads[u].(job := j, pc := Replied(if err then ServerError else Accepted)));
      Record(s, Action.PublishJob(u, eff));
    }
  }
}
