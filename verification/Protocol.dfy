/** The whole pipeline as one state machine. Every action is one atomic effect of one
    participant: a gateway upload handler, the broker, a worker goroutine, a status
    consumer goroutine or a notifier goroutine. Actions interleave freely. */
module Protocol {
  import opened Domain
  import opened VideoTable

  /** The frames a successful extraction yields for an uploaded video (frame rate fixed). */
  type Extractor = Bytes -> seq<Frame>

  // ----- gateway uploads ------------------------------------------------------

  datatype Reply = Accepted | ServerError

  datatype UploadPc = StoringSource | InsertingRow | ResolvingOwner | Enqueueing | Replied(reply: Reply)

  /** One upload request past validation. `job` is the ledger index of the job it published. */
  datatype Upload = Upload(
    user: Uuid, name: string, ext: string, content: Bytes,
    key: Key, id: Uuid, email: string, job: nat, pc: UploadPc)
  {
    function Job(): VideoJob { VideoJob(id, user, email, key, name) }
    predicate Recorded() { !pc.StoringSource? && !pc.InsertingRow? }
  }

  // ----- broker ----------------------------------------------------------------

  datatype Body =
    | JobMsg(job: VideoJob)
    | StatusMsg(event: Event)
    | NoticeMsg(event: Event)
    | Undecodable(queue: QueueName)
  {
    function Queue(): QueueName {
      match this
      case JobMsg(_) => JobsQueue
      case StatusMsg(_) => StatusQueue
      case NoticeMsg(_) => NotificationsQueue
      case Undecodable(q) => q
    }
  }

  /** Where a message is. `Held` names the handler whose delivery is outstanding. */
  datatype Place = Ready | Held(holder: nat) | Acked | DeadLettered | Dropped {
    predicate Settled() { Acked? || DeadLettered? || Dropped? }
  }

  /** `redelivered` is the broker's flag; the three counters are history. */
  datatype Message = Message(
    body: Body, place: Place, redelivered: bool, deliveries: nat, requeues: nat, losses: nat)

  function Fresh(body: Body): Message { Message(body, Ready, false, 0, 0, 0) }

  // ----- handlers ----------------------------------------------------------------

  datatype Verdict = Handled | Retry | Reject

  datatype Pc =
    | Announcing
    | MakingDir
    | Fetching
    | Extracting(source: Bytes)
    | StoringZip(frames: seq<Frame>)
    | ReportingDone(frames: seq<Frame>)
    | ReportingFailed(reason: Reason)
    | Applying
    | Mailing
    | Settling(verdict: Verdict)
    | Finished(verdict: Verdict)

  /** One goroutine: the message it was given, the flag on that delivery, where it is. */
  datatype Handler = Handler(msg: nat, redelivered: bool, pc: Pc)

  /** Where a handler starts, by what the message decodes to. */
  function FirstPc(body: Body): Pc {
    match body
    case JobMsg(_) => Announcing
    case StatusMsg(_) => Applying
    case NoticeMsg(e) => if e.FailedEvent? && e.email != "" then Mailing else Settling(Handled)
    case Undecodable(q) => Settling(if q == StatusQueue then Handled else Reject)
  }

  // ----- history -------------------------------------------------------------------

  /** A landed event publication: the handler that made it and its status-queue copy. */
  datatype Publication = Publication(event: Event, author: nat, copy: nat)

  datatype Mail = Mail(to: string, videoId: Uuid, reason: Reason, msg: nat)

  /** History: `origin` maps a row to the upload that inserted it, `published` lists the landed
      event publications, `applied` the events whose UPDATE landed, in order. */
  datatype Sys = Sys(
    uploads: seq<Upload>, objects: map<Key, Blob>, rows: Rows, origin: map<Uuid, nat>,
    msgs: seq<Message>, handlers: seq<Handler>, published: seq<Publication>, mails: seq<Mail>, applied: seq<Event>)

  const INIT := Sys([], map[], map[], map[], [], [], [], [], [])

  datatype Action =
    | StartUpload(user: Uuid, name: string, ext: string, content: Bytes)
    | PutSource(u: nat, uuid: Uuid, eff: Effect)
    | InsertRow(u: nat, id: Uuid, now: nat, eff: Effect)
    | ResolveOwner(u: nat, address: string)
    | PublishJob(u: nat, eff: Effect)
    | Deliver(m: nat)
    | LoseConnection(m: nat)
    | Inject(queue: QueueName)
    | PublishProcessing(h: nat, eff: Effect)
    | MakeWorkDir(h: nat, ok: bool)
    | Download(h: nat, ok: bool)
    | RunExtraction(h: nat, ok: bool)
    | PutZip(h: nat, eff: Effect)
    | PublishDone(h: nat, eff: Effect)
    | PublishFailed(h: nat, eff: Effect)
    | ApplyEvent(h: nat, eff: Effect)
    | SendMail(h: nat, eff: Effect)
    | Settle(h: nat)
  {
    /** Everything but new uploads, lost connections and foreign garbage. */
    predicate Internal() { !StartUpload? && !LoseConnection? && !Inject? }

    predicate OfGateway() { PutSource? || InsertRow? || ResolveOwner? || PublishJob? }
    predicate OfBroker() { StartUpload? || Deliver? || LoseConnection? || Inject? }
    predicate OfWorker() { Publishes() || MakeWorkDir? || Download? || RunExtraction? || PutZip? }
    predicate OfConsumer() { ApplyEvent? || SendMail? || Settle? }
    predicate Publishes() { PublishProcessing? || PublishDone? || PublishFailed? }
  }

  // ----- reading the state -----------------------------------------------------------

  predicate UploadAt(s: Sys, u: nat, pc: UploadPc) { u < |s.uploads| && s.uploads[u].pc == pc }

  predicate Live(s: Sys, h: nat) { h < |s.handlers| && s.handlers[h].msg < |s.msgs| }

  function BodyOf(s: Sys, h: nat): Body
    requires Live(s, h)
  {
    s.msgs[s.handlers[h].msg].body
  }

  /** Handler `h` is a worker goroutine at `pc`. */
  predicate WorkerAt(s: Sys, h: nat, pc: Pc) {
    Live(s, h) && s.handlers[h].pc == pc && BodyOf(s, h).JobMsg?
  }

  function JobOf(s: Sys, h: nat): VideoJob
    requires Live(s, h) && BodyOf(s, h).JobMsg?
  {
    BodyOf(s, h).job
  }

  function SourceName(s: Sys, u: nat, uuid: Uuid): Key
    requires u < |s.uploads|
  {
    SourceKey(s.uploads[u].user, uuid, s.uploads[u].ext)
  }

  function DoneOf(job: VideoJob, frames: seq<Frame>): Event {
    DoneEvent(job.videoId, ZipKey(job.videoId), |frames|)
  }

  function FailedOf(job: VideoJob, reason: Reason): Event {
    FailedEvent(job.videoId, job.user, job.email, job.originalName, reason)
  }

  ghost predicate Enabled(s: Sys, a: Action) {
    match a
    case StartUpload(_, _, _, _) => true
    case PutSource(u, uuid, _) => UploadAt(s, u, StoringSource) && SourceName(s, u, uuid) !in s.objects
    case InsertRow(u, id, _, _) => UploadAt(s, u, InsertingRow) && id !in s.rows
    case ResolveOwner(u, _) => UploadAt(s, u, ResolvingOwner)
    case PublishJob(u, _) => UploadAt(s, u, Enqueueing)
    case Deliver(m) => m < |s.msgs| && s.msgs[m].place == Ready
    case LoseConnection(m) => m < |s.msgs| && s.msgs[m].place.Held?
    case Inject(_) => true
    case PublishProcessing(h, _) => WorkerAt(s, h, Announcing)
    case MakeWorkDir(h, _) => WorkerAt(s, h, MakingDir)
    case Download(h, ok) =>
      && WorkerAt(s, h, Fetching)
      && (ok ==> JobOf(s, h).sourceKey in s.objects && s.objects[JobOf(s, h).sourceKey].SourceVideo?)
    case RunExtraction(h, _) => Live(s, h) && s.handlers[h].pc.Extracting?
    case PutZip(h, _) => Live(s, h) && s.handlers[h].pc.StoringZip? && BodyOf(s, h).JobMsg?
    case PublishDone(h, _) => Live(s, h) && s.handlers[h].pc.ReportingDone? && BodyOf(s, h).JobMsg?
    case PublishFailed(h, _) => Live(s, h) && s.handlers[h].pc.ReportingFailed? && BodyOf(s, h).JobMsg?
    case ApplyEvent(h, _) => Live(s, h) && s.handlers[h].pc == Applying && BodyOf(s, h).StatusMsg?
    case SendMail(h, _) =>
      Live(s, h) && s.handlers[h].pc == Mailing && BodyOf(s, h).NoticeMsg? && BodyOf(s, h).event.FailedEvent?
    case Settle(h) => Live(s, h) && s.handlers[h].pc.Settling?
  }

  // ----- writing the state -------------------------------------------------------------

  function SetUpload(s: Sys, u: nat, upload: Upload): Sys
    requires u < |s.uploads|
  {
    s.(uploads := s.uploads[u := upload])
  }

  function SetPc(s: Sys, h: nat, pc: Pc): Sys
    requires h < |s.handlers|
  {
    s.(handlers := s.handlers[h := s.handlers[h].(pc := pc)])
  }

  /** The messages a published event becomes: failures fan out to both queues. */
  function Copies(e: Event): seq<Message> {
    if e.FailedEvent? then [Fresh(StatusMsg(e)), Fresh(NoticeMsg(e))] else [Fresh(StatusMsg(e))]
  }

  function Emit(s: Sys, h: nat, e: Event, eff: Effect): Sys {
    if eff.Landed()
    then s.(msgs := s.msgs + Copies(e), published := s.published + [Publication(e, h, |s.msgs|)])
    else s
  }

  /** Settling a delivery by its verdict: the `Redelivered` flag allows one requeue. */
  function SettleMessage(x: Message, verdict: Verdict, redelivered: bool): Message {
    if verdict == Handled then x.(place := Acked)
    else if verdict == Retry && !redelivered
    then x.(place := Ready, redelivered := true, requeues := x.requeues + 1)
    else x.(place := if x.body.Queue() == JobsQueue then DeadLettered else Dropped)
  }

  function NextUpload(s: Sys, a: Action): Sys
    requires a.OfGateway()
    requires a.u < |s.uploads|
  {
    var up := s.uploads[a.u];
    match a
    case PutSource(u, uuid, eff) =>
      var key := SourceName(s, u, uuid);
      SetUpload(s, u, up.(key := key, pc := if eff == Works then InsertingRow else Replied(ServerError)))
        .(objects := if eff.Landed() then s.objects[key := SourceVideo(up.content)] else s.objects)
    case InsertRow(u, id, now, eff) =>
      SetUpload(s, u, up.(id := id, pc := if eff == Works then ResolvingOwner else Replied(ServerError)))
        .(rows := if eff.Landed() then s.rows[id := NewRow(up.user, up.name, up.key, now)] else s.rows,
          origin := if eff.Landed() then s.origin[id := u] else s.origin)
    case ResolveOwner(u, address) =>
      SetUpload(s, u, up.(email := address, pc := Enqueueing))
    case PublishJob(u, eff) =>
      SetUpload(s, u, up.(job := |s.msgs|, pc := Replied(if eff == Works then Accepted else ServerError)))
        .(msgs := if eff.Landed() then s.msgs + [Fresh(JobMsg(up.Job()))] else s.msgs)
  }

  function NextBroker(s: Sys, a: Action): Sys
    requires a.OfBroker()
    requires (a.Deliver? || a.LoseConnection?) ==> a.m < |s.msgs|
  {
    match a
    case StartUpload(user, name, ext, content) =>
      s.(uploads := s.uploads + [Upload(user, name, ext, content, NoKey, 0, "", 0, StoringSource)])
    case Deliver(m) =>
      var x := s.msgs[m];
      s.(msgs := s.msgs[m := x.(place := Held(|s.handlers|), deliveries := x.deliveries + 1)],
         handlers := s.handlers + [Handler(m, x.redelivered, FirstPc(x.body))])
    case LoseConnection(m) =>
      var x := s.msgs[m];
      s.(msgs := s.msgs[m := x.(place := Ready, redelivered := true, losses := x.losses + 1)])
    case Inject(q) =>
      s.(msgs := s.msgs + [Fresh(Undecodable(q))])
  }

  function NextWorker(s: Sys, fx: Extractor, a: Action): Sys
    requires a.OfWorker()
    requires Enabled(s, a)
  {
    var pc := s.handlers[a.h].pc;
    match a
    case PublishProcessing(h, eff) =>
      SetPc(Emit(s, h, ProcessingEvent(JobOf(s, h).videoId), eff), h, MakingDir)
    case MakeWorkDir(h, ok) =>
      SetPc(s, h, if ok then Fetching else Settling(Retry))
    case Download(h, ok) =>
      SetPc(s, h, if ok then Extracting(s.objects[JobOf(s, h).sourceKey].content)
                  else ReportingFailed(SourceUnavailable))
    case RunExtraction(h, ok) =>
      SetPc(s, h, if ok && fx(pc.source) != [] then StoringZip(fx(pc.source))
                  else ReportingFailed(NotProcessable))
    case PutZip(h, eff) =>
      SetPc(s, h, if eff == Works then ReportingDone(pc.frames) else Settling(Retry))
        .(objects := if eff.Landed() then s.objects[ZipKey(JobOf(s, h).videoId) := Archive(pc.frames)]
                     else s.objects)
    case PublishDone(h, eff) =>
      SetPc(Emit(s, h, DoneOf(JobOf(s, h), pc.frames), eff), h, Settling(if eff == Works then Handled else Retry))
    case PublishFailed(h, eff) =>
      SetPc(Emit(s, h, FailedOf(JobOf(s, h), pc.reason), eff), h, Settling(if eff == Works then Handled else Retry))
  }

  function NextConsumer(s: Sys, a: Action): Sys
    requires a.OfConsumer()
    requires Enabled(s, a)
  {
    var m := s.handlers[a.h].msg;
    match a
    case ApplyEvent(h, eff) =>
      SetPc(s, h, Settling(if eff == Works then Handled else Retry))
        .(rows := if eff.Landed() then Apply(s.rows, BodyOf(s, h).event) else s.rows,
          applied := if eff.Landed() then s.applied + [BodyOf(s, h).event] else s.applied)
    case SendMail(h, eff) =>
      var e := BodyOf(s, h).event;
      SetPc(s, h, Settling(if eff == Works then Handled else Retry))
        .(mails := if eff.Landed() then s.mails + [Mail(e.email, e.videoId, e.reason, m)] else s.mails)
    case Settle(h) =>
      var verdict := s.handlers[h].pc.verdict;
      SetPc(s, h, Finished(verdict))
        .(msgs := if s.msgs[m].place == Held(h)
                  then s.msgs[m := SettleMessage(s.msgs[m], verdict, s.handlers[h].redelivered)]
                  else s.msgs)
  }

  function Next(s: Sys, fx: Extractor, a: Action): Sys
    requires Enabled(s, a)
  {
    if a.OfGateway() then NextUpload(s, a)
    else if a.OfBroker() then NextBroker(s, a)
    else if a.OfConsumer() then NextConsumer(s, a)
    else NextWorker(s, fx, a)
  }

  // ----- a fresh name always exists ------------------------------------------------------

  lemma {:induction false} FreshSource(keys: set<Key>, owner: Uuid, ext: string) returns (n: Uuid)
    ensures forall m :: n <= m ==> SourceKey(owner, m, ext) !in keys
    decreases keys
  {
    if keys == {} {
      n := 0;
    } else {
      var k :| k in keys;
      n := FreshSource(keys - {k}, owner, ext);
      if k.SourceKey? && k.name >= n { n := k.name + 1; }
    }
  }

  lemma {:induction false} FreshId(ids: set<Uuid>) returns (n: Uuid)
    ensures forall m :: m in ids ==> m < n
    decreases ids
  {
    if ids == {} {
      n := 0;
    } else {
      var k :| k in ids;
      n := FreshId(ids - {k});
      if k >= n { n := k + 1; }
      assert ids == (ids - {k}) + {k};
    }
  }

  // ----- runs ---------------------------------------------------------------------------

  /** `acts` can be performed in order, starting from `s`. */
  ghost predicate Possible(s: Sys, fx: Extractor, acts: seq<Action>)
    decreases |acts|, 0
  {
    acts == [] ||
    (Possible(s, fx, acts[..|acts| - 1]) && Enabled(After(s, fx, acts[..|acts| - 1]), acts[|acts| - 1]))
  }

  ghost function After(s: Sys, fx: Extractor, acts: seq<Action>): Sys
    requires Possible(s, fx, acts)
    decreases |acts|, 1
  {
    if acts == [] then s
    else Next(After(s, fx, acts[..|acts| - 1]), fx, acts[|acts| - 1])
  }

  /** Some run from the empty system leads to `s`. */
  ghost predicate Reachable(s: Sys, fx: Extractor) {
    exists acts :: Possible(INIT, fx, acts) && After(INIT, fx, acts) == s
  }

  ghost predicate InternalRun(acts: seq<Action>) {
    forall i :: 0 <= i < |acts| ==> acts[i].Internal()
  }

  lemma RunStep(s: Sys, fx: Extractor, acts: seq<Action>, a: Action)
    requires Possible(s, fx, acts) && Enabled(After(s, fx, acts), a)
    ensures Possible(s, fx, acts + [a])
    ensures After(s, fx, acts + [a]) == Next(After(s, fx, acts), fx, a)
  {
    var all := acts + [a];
    assert all[..|all| - 1] == acts;
  }

  lemma {:induction false} RunsCompose(s: Sys, fx: Extractor, acts: seq<Action>, more: seq<Action>)
    requires Possible(s, fx, acts) && Possible(After(s, fx, acts), fx, more)
    ensures Possible(s, fx, acts + more)
    ensures After(s, fx, acts + more) == After(After(s, fx, acts), fx, more)
  {
    hide Next, Enabled;
    if more == [] {
      assert acts + more == acts;
    } else {
      var front, a := more[..|more| - 1], more[|more| - 1];
      var mid := After(s, fx, acts);
      assert Possible(mid, fx, front) && Enabled(After(mid, fx, front), a);
      RunsCompose(s, fx, acts, front);
      RunStep(s, fx, acts + front, a);
      assert acts + front + [a] == acts + more;
    }
  }

  lemma ReachOn(s: Sys, fx: Extractor, more: seq<Action>)
    requires Reachable(s, fx) && Possible(s, fx, more)
    ensures Reachable(After(s, fx, more), fx)
  {
    hide Next, Enabled;
    var acts :| Possible(INIT, fx, acts) && After(INIT, fx, acts) == s;
    RunsCompose(INIT, fx, acts, more);
  }
}
