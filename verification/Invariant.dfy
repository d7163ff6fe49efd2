/** What holds in every reachable state of the pipeline, and what every step preserves of
    the facts already established. */
module Invariant {
  import opened Domain
  import opened VideoTable
  import opened Protocol

  // ----- vocabulary ------------------------------------------------------------------

  /** Row `id` exists and its inserting upload is on record. */
  predicate Known(s: Sys, id: Uuid) {
    && id in s.rows
    && id in s.origin
    && s.origin[id] < |s.uploads|
    && s.uploads[s.origin[id]].Recorded()
    && s.uploads[s.origin[id]].id == id
  }

  /** The upload behind row `id`. */
  function Origin(s: Sys, id: Uuid): Upload
    requires Known(s, id)
  {
    s.uploads[s.origin[id]]
  }

  /** ... and that upload's request has been answered, so its record is final. */
  predicate Frozen(s: Sys, id: Uuid) { Known(s, id) && Origin(s, id).pc.Replied? }

  predicate SourceStored(s: Sys, up: Upload) {
    && up.key.SourceKey?
    && up.key.owner == up.user
    && up.key in s.objects
    && s.objects[up.key] == SourceVideo(up.content)
  }

  /** The archive of `id` is in the object store and holds the frames of `id`'s own source. */
  predicate ZipStored(s: Sys, fx: Extractor, id: Uuid) {
    && Known(s, id)
    && ZipKey(id) in s.objects
    && s.objects[ZipKey(id)] == Archive(fx(Origin(s, id).content))
    && fx(Origin(s, id).content) != []
  }

  predicate WasPublished(s: Sys, e: Event) {
    exists k :: 0 <= k < |s.published| && s.published[k].event == e
  }

  predicate TerminalPublished(s: Sys, id: Uuid) {
    exists k :: 0 <= k < |s.published| && s.published[k].event.Terminal() && s.published[k].event.videoId == id
  }

  predicate FailurePublished(s: Sys, id: Uuid, reason: Reason) {
    exists k :: 0 <= k < |s.published| && s.published[k].event.FailedEvent?
                && s.published[k].event.videoId == id && s.published[k].event.reason == reason
  }

  predicate Mailed(s: Sys, m: nat) {
    exists k :: 0 <= k < |s.mails| && s.mails[k].msg == m
  }

  function Terminals(ps: seq<Publication>, h: nat): nat {
    if ps == [] then 0
    else Terminals(ps[..|ps| - 1], h)
         + (if ps[|ps| - 1].author == h && ps[|ps| - 1].event.Terminal() then 1 else 0)
  }

  /** The failure events a ledger routed to one queue, in order. */
  function FailuresIn(ms: seq<Message>, q: QueueName): seq<Event> {
    if ms == [] then []
    else
      var front, b := FailuresIn(ms[..|ms| - 1], q), ms[|ms| - 1].body;
      if b.Queue() == q && (b.StatusMsg? || b.NoticeMsg?) && b.event.FailedEvent? then front + [b.event] else front
  }

  function FailuresOf(ps: seq<Publication>): seq<Event> {
    if ps == [] then []
    else
      var front, e := FailuresOf(ps[..|ps| - 1]), ps[|ps| - 1].event;
      if e.FailedEvent? then front + [e] else front
  }

  // ----- the invariant, family by family ------------------------------------------------

  predicate UploadOk(s: Sys, u: nat)
    requires u < |s.uploads|
  {
    var up := s.uploads[u];
    match up.pc
    case StoringSource => true
    case InsertingRow => SourceStored(s, up)
    case ResolvingOwner => SourceStored(s, up) && Known(s, up.id) && s.origin[up.id] == u
    case Enqueueing => SourceStored(s, up) && Known(s, up.id) && s.origin[up.id] == u
    case Replied(ServerError) => true
    case Replied(Accepted) =>
      && SourceStored(s, up) && Known(s, up.id) && s.origin[up.id] == u
      && up.job < |s.msgs| && s.msgs[up.job].body == JobMsg(up.Job())
  }

  predicate RowOk(s: Sys, fx: Extractor, id: Uuid)
    requires id in s.rows
  {
    var row := s.rows[id];
    && Known(s, id)
    && SourceStored(s, Origin(s, id))
    && row.user == Origin(s, id).user
    && row.originalName == Origin(s, id).name
    && row.sourceKey == Origin(s, id).key
    && (|| (row.zipKey == NoKey && row.frameCount == 0)
        || (row.zipKey == ZipKey(id) && ZipStored(s, fx, id) && row.frameCount == |fx(Origin(s, id).content)|))
    && (!row.status.Terminal() ==> row.zipKey == NoKey && row.error == NoReason)
    && (row.status == Done ==> row.zipKey == ZipKey(id) && row.error == NoReason)
    && (row.status == Failed ==> row.error != NoReason && FailurePublished(s, id, row.error))
  }

  predicate EventOk(s: Sys, fx: Extractor, e: Event) {
    && Frozen(s, e.videoId)
    && match e
       case ProcessingEvent(_) => true
       case DoneEvent(id, key, n) => key == ZipKey(id) && ZipStored(s, fx, id) && n == |fx(Origin(s, id).content)|
       case FailedEvent(id, user, email, name, reason) =>
         var up := Origin(s, id);
         user == up.user && email == up.email && name == up.name && reason != NoReason
  }

  predicate BodyOk(s: Sys, fx: Extractor, b: Body) {
    match b
    case JobMsg(job) => Frozen(s, job.videoId) && job == Origin(s, job.videoId).Job()
    case StatusMsg(e) => EventOk(s, fx, e) && WasPublished(s, e)
    case NoticeMsg(e) => EventOk(s, fx, e) && WasPublished(s, e) && e.FailedEvent?
    case Undecodable(_) => true
  }

  /** What must be true before message `m` may be acknowledged. */
  predicate Discharged(s: Sys, m: nat)
    requires m < |s.msgs|
  {
    match s.msgs[m].body
    case JobMsg(job) => TerminalPublished(s, job.videoId)
    case StatusMsg(e) =>
      && e.videoId in s.rows
      && (e.Terminal() ==> s.rows[e.videoId].status.Terminal())
      && s.rows[e.videoId].status != Pending
      && e in s.applied
    case NoticeMsg(e) => e.FailedEvent? && e.email != "" ==> Mailed(s, m)
    case Undecodable(q) => q == StatusQueue
  }

  predicate PcOk(s: Sys, fx: Extractor, m: nat, pc: Pc)
    requires m < |s.msgs|
  {
    var b := s.msgs[m].body;
    match pc
    case Announcing => b.JobMsg?
    case MakingDir => b.JobMsg?
    case Fetching => b.JobMsg?
    case Extracting(src) => b.JobMsg? && Known(s, b.job.videoId) && src == Origin(s, b.job.videoId).content
    case StoringZip(fr) =>
      b.JobMsg? && Known(s, b.job.videoId) && fr == fx(Origin(s, b.job.videoId).content) && fr != []
    case ReportingDone(fr) =>
      b.JobMsg? && ZipStored(s, fx, b.job.videoId) && fr == fx(Origin(s, b.job.videoId).content)
    case ReportingFailed(reason) => b.JobMsg? && reason != NoReason
    case Applying => b.StatusMsg?
    case Mailing => b.NoticeMsg? && b.event.FailedEvent? && b.event.email != ""
    case Settling(v) => VerdictOk(s, m, v)
    case Finished(v) => v == Handled ==> Discharged(s, m)
  }

  predicate VerdictOk(s: Sys, m: nat, v: Verdict)
    requires m < |s.msgs|
  {
    match v
    case Handled => Discharged(s, m)
    case Retry => !s.msgs[m].body.Undecodable?
    case Reject => s.msgs[m].body.Undecodable? && s.msgs[m].body.queue != StatusQueue
  }

  /** How many terminal events a worker goroutine has published, by where it is. */
  predicate CountOk(pc: Pc, n: nat) {
    match pc
    case Settling(Handled) => n == 1
    case Finished(Handled) => n == 1
    case Settling(_) => n <= 1
    case Finished(_) => n <= 1
    case _ => n == 0
  }

  predicate HandlerOk(s: Sys, fx: Extractor, h: nat)
    requires h < |s.handlers|
  {
    && s.handlers[h].msg < |s.msgs|
    && PcOk(s, fx, s.handlers[h].msg, s.handlers[h].pc)
    && (s.msgs[s.handlers[h].msg].body.JobMsg? ==> CountOk(s.handlers[h].pc, Terminals(s.published, h)))
  }

  /** Settlement and the retry budget of one message. */
  predicate PlaceOk(s: Sys, m: nat)
    requires m < |s.msgs|
  {
    var x := s.msgs[m];
    && x.requeues <= 1
    && (x.redelivered <==> x.requeues + x.losses > 0)
    && match x.place
       case Ready => x.deliveries == x.requeues + x.losses
       case Held(h) =>
         && x.deliveries == x.requeues + x.losses + 1
         && h < |s.handlers|
         && s.handlers[h].msg == m
         && s.handlers[h].redelivered == x.redelivered
         && !s.handlers[h].pc.Finished?
       case Acked => x.deliveries == x.requeues + x.losses + 1 && Discharged(s, m)
       case DeadLettered =>
         && x.deliveries == x.requeues + x.losses + 1
         && x.body.Queue() == JobsQueue
         && (x.redelivered || x.body.Undecodable?)
       case Dropped =>
         && x.deliveries == x.requeues + x.losses + 1
         && x.body.Queue() != JobsQueue
         && (x.redelivered || x.body.Undecodable?)
  }

  predicate PublicationOk(s: Sys, fx: Extractor, k: nat)
    requires k < |s.published|
  {
    var p := s.published[k];
    && EventOk(s, fx, p.event)
    && Live(s, p.author)
    && BodyOf(s, p.author).JobMsg?
    && JobOf(s, p.author).videoId == p.event.videoId
    && p.copy < |s.msgs|
    && s.msgs[p.copy].body == StatusMsg(p.event)
  }

  predicate MailOk(s: Sys, k: nat)
    requires k < |s.mails|
  {
    var mail := s.mails[k];
    && mail.msg < |s.msgs|
    && s.msgs[mail.msg].body.NoticeMsg?
    && s.msgs[mail.msg].body.event.FailedEvent?
    && var e := s.msgs[mail.msg].body.event;
       mail == Mail(e.email, e.videoId, e.reason, mail.msg) && e.email != ""
  }

  /** The row as INSERT left it. */
  function Birth(row: Video): Video { NewRow(row.user, row.originalName, row.sourceKey, row.createdAt) }

  /** Every row is its birth with the events applied to it replayed. */
  predicate Replayed(s: Sys, id: Uuid)
    requires id in s.rows
  {
    s.rows[id] == Fold(Birth(s.rows[id]), About(s.applied, id))
  }

  predicate UploadsOk(s: Sys) { forall u :: 0 <= u < |s.uploads| ==> UploadOk(s, u) }
  predicate RowsOk(s: Sys, fx: Extractor) { forall id :: id in s.rows ==> RowOk(s, fx, id) }
  ghost predicate ZipsOk(s: Sys, fx: Extractor) {
    && NoKey !in s.objects
    && forall id :: ZipKey(id) in s.objects ==> ZipStored(s, fx, id)
  }
  predicate BodiesOk(s: Sys, fx: Extractor) { forall m :: 0 <= m < |s.msgs| ==> BodyOk(s, fx, s.msgs[m].body) }
  predicate PlacesOk(s: Sys) { forall m :: 0 <= m < |s.msgs| ==> PlaceOk(s, m) }
  predicate HandlersOk(s: Sys, fx: Extractor) { forall h :: 0 <= h < |s.handlers| ==> HandlerOk(s, fx, h) }
  predicate PublishedOk(s: Sys, fx: Extractor) { forall k :: 0 <= k < |s.published| ==> PublicationOk(s, fx, k) }
  predicate MailsOk(s: Sys) { forall k :: 0 <= k < |s.mails| ==> MailOk(s, k) }
  predicate AppliedOk(s: Sys) {
    forall i :: 0 <= i < |s.applied| ==> s.applied[i].videoId in s.rows && WasPublished(s, s.applied[i])
  }
  predicate RowsReplayed(s: Sys) { forall id :: id in s.rows ==> Replayed(s, id) }
  predicate FanOutOk(s: Sys) {
    FailuresIn(s.msgs, StatusQueue) == FailuresOf(s.published) == FailuresIn(s.msgs, NotificationsQueue)
  }

  ghost predicate Inv(s: Sys, fx: Extractor) {
    && UploadsOk(s)
    && RowsOk(s, fx)
    && ZipsOk(s, fx)
    && BodiesOk(s, fx)
    && PlacesOk(s)
    && HandlersOk(s, fx)
    && PublishedOk(s, fx)
    && MailsOk(s)
    && FanOutOk(s)
    && AppliedOk(s)
    && RowsReplayed(s)
  }

  // ----- what a step never undoes ----------------------------------------------------------

  predicate UploadKept(a: Upload, b: Upload) {
    && a.user == b.user && a.name == b.name && a.ext == b.ext && a.content == b.content
    && (!a.pc.StoringSource? ==> !b.pc.StoringSource? && a.key == b.key)
    && (a.Recorded() ==> b.Recorded() && a.id == b.id)
    && (a.pc.Replied? ==> a == b)
  }

  /** The lifecycle: identity columns are fixed, PENDING is never re-entered, {DONE, FAILED} is absorbing. */
  predicate RowKept(a: Video, b: Video) {
    && a.user == b.user && a.originalName == b.originalName
    && a.sourceKey == b.sourceKey && a.createdAt == b.createdAt
    && (b.status == Pending ==> a.status == Pending)
    && (a.status.Terminal() ==> b.status.Terminal())
    && (a.status == b.status && !a.status.Terminal() ==> a == b)
    && (a.zipKey != NoKey ==> b.zipKey == a.zipKey && b.frameCount == a.frameCount)
  }

  predicate MessageKept(a: Message, b: Message) {
    && a.body == b.body
    && (a.place.Settled() ==> a == b)
    && (a.redelivered ==> b.redelivered)
    && a.deliveries <= b.deliveries && a.requeues <= b.requeues && a.losses <= b.losses
  }

  ghost predicate Extends(s: Sys, t: Sys) {
    && |s.uploads| <= |t.uploads|
    && (forall u :: 0 <= u < |s.uploads| ==> UploadKept(s.uploads[u], t.uploads[u]))
    && (forall k :: k in s.objects ==> k in t.objects && t.objects[k] == s.objects[k])
    && (forall id :: id in s.rows ==> id in t.rows && RowKept(s.rows[id], t.rows[id]))
    && (forall id :: id in s.origin && id in s.rows ==> id in t.origin && t.origin[id] == s.origin[id])
    && |s.msgs| <= |t.msgs|
    && (forall m :: 0 <= m < |s.msgs| ==> MessageKept(s.msgs[m], t.msgs[m]))
    && |s.handlers| <= |t.handlers|
    && (forall h :: 0 <= h < |s.handlers| ==>
          t.handlers[h].msg == s.handlers[h].msg && t.handlers[h].redelivered == s.handlers[h].redelivered)
    && s.published <= t.published
    && s.mails <= t.mails
    && s.applied <= t.applied
  }

  lemma ExtendsReflexive(s: Sys)
    ensures Extends(s, s)
  {
  }

  lemma ExtendsTransitive(s: Sys, t: Sys, v: Sys)
    requires Extends(s, t) && Extends(t, v)
    ensures Extends(s, v)
  {
  }

  // ----- stability of the vocabulary under Extends -------------------------------------------

  lemma KnownStable(s: Sys, t: Sys, id: Uuid)
    requires Extends(s, t) && Known(s, id)
    ensures Known(t, id)
    ensures UploadKept(Origin(s, id), Origin(t, id)) && Origin(t, id).key == Origin(s, id).key
    ensures Frozen(s, id) ==> Frozen(t, id) && Origin(t, id) == Origin(s, id)
  {
  }

  lemma ZipStable(s: Sys, t: Sys, fx: Extractor, id: Uuid)
    requires Extends(s, t) && ZipStored(s, fx, id)
    ensures ZipStored(t, fx, id)
  {
    KnownStable(s, t, id);
  }

  lemma HistoryStable(s: Sys, t: Sys)
    requires Extends(s, t)
    ensures forall e :: WasPublished(s, e) ==> WasPublished(t, e)
    ensures forall id :: TerminalPublished(s, id) ==> TerminalPublished(t, id)
    ensures forall id, r :: FailurePublished(s, id, r) ==> FailurePublished(t, id, r)
    ensures forall m :: Mailed(s, m) ==> Mailed(t, m)
  {
    assert forall k :: 0 <= k < |s.published| ==> t.published[k] == s.published[k];
    assert forall k :: 0 <= k < |s.mails| ==> t.mails[k] == s.mails[k];
    forall e | WasPublished(s, e) ensures WasPublished(t, e) {
      var k :| 0 <= k < |s.published| && s.published[k].event == e;
      assert t.published[k].event == e;
    }
    forall id | TerminalPublished(s, id) ensures TerminalPublished(t, id) {
      var k :| 0 <= k < |s.published| && s.published[k].event.Terminal() && s.published[k].event.videoId == id;
      assert t.published[k].event.Terminal();
    }
    forall id, r | FailurePublished(s, id, r) ensures FailurePublished(t, id, r) {
      var k :| 0 <= k < |s.published| && s.published[k].event.FailedEvent?
               && s.published[k].event.videoId == id && s.published[k].event.reason == r;
      assert t.published[k].event.FailedEvent?;
    }
    forall m | Mailed(s, m) ensures Mailed(t, m) {
      var k :| 0 <= k < |s.mails| && s.mails[k].msg == m;
      assert t.mails[k].msg == m;
    }
  }

  lemma EventStable(s: Sys, t: Sys, fx: Extractor, e: Event)
    requires Extends(s, t) && EventOk(s, fx, e)
    ensures EventOk(t, fx, e)
  {
    KnownStable(s, t, e.videoId);
    if e.DoneEvent? { ZipStable(s, t, fx, e.videoId); }
  }

  lemma BodyStable(s: Sys, t: Sys, fx: Extractor, b: Body)
    requires Extends(s, t) && BodyOk(s, fx, b)
    ensures BodyOk(t, fx, b)
  {
    HistoryStable(s, t);
    match b
    case JobMsg(job) => KnownStable(s, t, job.videoId);
    case StatusMsg(e) => EventStable(s, t, fx, e);
    case NoticeMsg(e) => EventStable(s, t, fx, e);
    case Undecodable(_) =>
  }

  lemma DischargeStable(s: Sys, t: Sys, m: nat)
    requires m < |s.msgs| && Extends(s, t) && Discharged(s, m)
    ensures Discharged(t, m)
  {
    HistoryStable(s, t);
    assert t.msgs[m].body == s.msgs[m].body;
  }

  lemma PcStable(s: Sys, t: Sys, fx: Extractor, m: nat, pc: Pc)
    requires m < |s.msgs| && Extends(s, t) && PcOk(s, fx, m, pc)
    ensures PcOk(t, fx, m, pc)
  {
    var b := s.msgs[m].body;
    assert t.msgs[m].body == b;
    match pc
    case Extracting(_) => KnownStable(s, t, b.job.videoId);
    case StoringZip(_) => KnownStable(s, t, b.job.videoId);
    case ReportingDone(_) => ZipStable(s, t, fx, b.job.videoId); KnownStable(s, t, b.job.videoId);
    case Settling(v) => if v == Handled { DischargeStable(s, t, m); }
    case Finished(v) => if v == Handled { DischargeStable(s, t, m); }
    case _ =>
  }

  lemma UploadStable(s: Sys, t: Sys, u: nat)
    requires u < |s.uploads| && Extends(s, t) && UploadOk(s, u) && t.uploads[u] == s.uploads[u]
    ensures UploadOk(t, u)
  {
    var up := s.uploads[u];
    match up.pc
    case ResolvingOwner => KnownStable(s, t, up.id);
    case Enqueueing => KnownStable(s, t, up.id);
    case Replied(Accepted) =>
      KnownStable(s, t, up.id);
      assert t.msgs[up.job].body == s.msgs[up.job].body;
    case _ =>
  }

  lemma RowStable(s: Sys, t: Sys, fx: Extractor, id: Uuid)
    requires id in s.rows && Extends(s, t) && RowOk(s, fx, id) && t.rows[id] == s.rows[id]
    ensures RowOk(t, fx, id)
  {
    KnownStable(s, t, id);
    HistoryStable(s, t);
    if s.rows[id].zipKey == ZipKey(id) { ZipStable(s, t, fx, id); }
  }

  lemma MailStable(s: Sys, t: Sys, k: nat)
    requires k < |s.mails| && Extends(s, t) && MailOk(s, k)
    ensures MailOk(t, k)
  {
    assert t.mails[k] == s.mails[k];
    assert t.msgs[s.mails[k].msg].body == s.msgs[s.mails[k].msg].body;
  }

  lemma PublicationStable(s: Sys, t: Sys, fx: Extractor, k: nat)
    requires k < |s.published| && Extends(s, t) && PublicationOk(s, fx, k)
    ensures PublicationOk(t, fx, k)
  {
    var p := s.published[k];
    assert t.published[k] == p;
    EventStable(s, t, fx, p.event);
    assert t.msgs[p.copy].body == s.msgs[p.copy].body;
    assert t.msgs[s.handlers[p.author].msg].body == BodyOf(s, p.author);
  }
}
