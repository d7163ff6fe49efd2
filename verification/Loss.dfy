/** The one way an accepted upload can be lost without a trace in the dead-letter queue:
    the status queue has none, so a terminal event whose store update fails twice is gone. */
module Loss {
  import opened Domain
  import opened VideoTable
  import opened Protocol
  import opened Invariant
  import opened Drain

  const VIDEO := 7
  const OWNER := 1
  const KEY := SourceKey(1, 2, ".mp4")
  const JOB := VideoJob(VIDEO, OWNER, "", KEY, "clip.mp4")
  const FAILURE := FailedEvent(VIDEO, OWNER, "", "clip.mp4", SourceUnavailable)

  function Settled(b: Body, place: Place, redelivered: bool): Message {
    if redelivered then Message(b, place, true, 2, 1, 0) else Message(b, place, false, 1, 0, 0)
  }

  /** The store after the upload; nothing later changes it. */
  function World(msgs: seq<Message>, handlers: seq<Handler>, published: seq<Publication>): Sys {
    Sys([Upload(OWNER, "clip.mp4", ".mp4", "bytes", KEY, VIDEO, "", 0, Replied(Accepted))],
        map[KEY := SourceVideo("bytes")],
        map[VIDEO := NewRow(OWNER, "clip.mp4", KEY, 0)],
        map[VIDEO := 0],
        msgs, handlers, published, [], [])
  }

  function AfterUpload(): Sys { World([Fresh(JobMsg(JOB))], [], []) }

  function AfterClaim(): Sys {
    World([Message(JobMsg(JOB), Held(0), false, 1, 0, 0)], [Handler(0, false, Fetching)], [])
  }

  function AfterReport(): Sys {
    World([Message(JobMsg(JOB), Held(0), false, 1, 0, 0), Fresh(StatusMsg(FAILURE)), Fresh(NoticeMsg(FAILURE))],
          [Handler(0, false, Settling(Handled))], [Publication(FAILURE, 0, 1)])
  }

  function AfterJob(): Sys {
    World([Settled(JobMsg(JOB), Acked, false), Fresh(StatusMsg(FAILURE)), Fresh(NoticeMsg(FAILURE))],
          [Handler(0, false, Finished(Handled))], [Publication(FAILURE, 0, 1)])
  }

  function AfterRetry(): Sys {
    World([Settled(JobMsg(JOB), Acked, false), Message(StatusMsg(FAILURE), Ready, true, 1, 1, 0),
           Fresh(NoticeMsg(FAILURE))],
          [Handler(0, false, Finished(Handled)), Handler(1, false, Finished(Retry))],
          [Publication(FAILURE, 0, 1)])
  }

  function AfterDrop(): Sys {
    World([Settled(JobMsg(JOB), Acked, false), Settled(StatusMsg(FAILURE), Dropped, true), Fresh(NoticeMsg(FAILURE))],
          [Handler(0, false, Finished(Handled)), Handler(1, false, Finished(Retry)), Handler(1, true, Finished(Retry))],
          [Publication(FAILURE, 0, 1)])
  }

  function AfterSkip(): Sys {
    World([Settled(JobMsg(JOB), Acked, false), Settled(StatusMsg(FAILURE), Dropped, true),
           Settled(NoticeMsg(FAILURE), Acked, false)],
          [Handler(0, false, Finished(Handled)), Handler(1, false, Finished(Retry)), Handler(1, true, Finished(Retry)),
           Handler(2, false, Finished(Handled))],
          [Publication(FAILURE, 0, 1)])
  }

  /** `acts` leads from `s` to `t`. */
  ghost predicate Leads(s: Sys, fx: Extractor, acts: seq<Action>, t: Sys) {
    Possible(s, fx, acts) && After(s, fx, acts) == t
  }

  lemma Then(s: Sys, fx: Extractor, acts: seq<Action>, t: Sys, a: Action) returns (longer: seq<Action>, v: Sys)
    requires Leads(s, fx, acts, t) && Enabled(t, a)
    ensures longer == acts + [a] && v == Next(t, fx, a) && Leads(s, fx, longer, v)
  {
    RunStep(s, fx, acts, a);
    longer, v := acts + [a], Next(t, fx, a);
  }

  lemma Start(s: Sys, fx: Extractor) returns (acts: seq<Action>)
    ensures Leads(s, fx, acts, s)
  {
    acts := [];
  }

  lemma UploadRun(fx: Extractor) returns (acts: seq<Action>)
    ensures Leads(INIT, fx, acts, AfterUpload())
  {
    hide Leads;
    var s := INIT;
    acts := Start(s, fx);
    acts, s := Then(INIT, fx, acts, s, StartUpload(OWNER, "clip.mp4", ".mp4", "bytes"));
    acts, s := Then(INIT, fx, acts, s, PutSource(0, 2, Works));
    acts, s := Then(INIT, fx, acts, s, InsertRow(0, VIDEO, 0, Works));
    acts, s := Then(INIT, fx, acts, s, ResolveOwner(0, ""));
    acts, s := Then(INIT, fx, acts, s, PublishJob(0, Works));
    assert s == AfterUpload();
  }

  lemma ClaimRun(fx: Extractor) returns (acts: seq<Action>)
    ensures Leads(AfterUpload(), fx, acts, AfterClaim())
  {
    hide Leads;
    var s := AfterUpload();
    acts := Start(s, fx);
    acts, s := Then(AfterUpload(), fx, acts, s, Deliver(0));
    acts, s := Then(AfterUpload(), fx, acts, s, PublishProcessing(0, Fails));
    acts, s := Then(AfterUpload(), fx, acts, s, MakeWorkDir(0, true));
    assert s == AfterClaim();
  }

  lemma JobRun(fx: Extractor) returns (acts: seq<Action>)
    ensures Leads(AfterClaim(), fx, acts, AfterJob())
  {
    hide Leads;
    var s := AfterClaim();
    acts := Start(s, fx);
    acts, s := Then(AfterClaim(), fx, acts, s, Download(0, false));
    acts, s := Then(AfterClaim(), fx, acts, s, PublishFailed(0, Works));
    assert s == AfterReport();
    acts, s := Then(AfterClaim(), fx, acts, s, Settle(0));
    assert s == AfterJob();
  }

  lemma RetryRun(fx: Extractor) returns (acts: seq<Action>)
    ensures Leads(AfterJob(), fx, acts, AfterRetry())
  {
    hide Leads;
    var s := AfterJob();
    acts := Start(s, fx);
    acts, s := Then(AfterJob(), fx, acts, s, Deliver(1));
    acts, s := Then(AfterJob(), fx, acts, s, ApplyEvent(1, Fails));
    acts, s := Then(AfterJob(), fx, acts, s, Settle(1));
    assert s == AfterRetry();
  }

  lemma DropRun(fx: Extractor) returns (acts: seq<Action>)
    ensures Leads(AfterRetry(), fx, acts, AfterDrop())
  {
    hide Leads;
    var s := AfterRetry();
    acts := Start(s, fx);
    acts, s := Then(AfterRetry(), fx, acts, s, Deliver(1));
    acts, s := Then(AfterRetry(), fx, acts, s, ApplyEvent(2, Fails));
    acts, s := Then(AfterRetry(), fx, acts, s, Settle(2));
    assert s == AfterDrop();
  }

  lemma SkipRun(fx: Extractor) returns (acts: seq<Action>)
    ensures Leads(AfterDrop(), fx, acts, AfterSkip())
  {
    hide Leads;
    var s := AfterDrop();
    acts := Start(s, fx);
    acts, s := Then(AfterDrop(), fx, acts, s, Deliver(2));
    acts, s := Then(AfterDrop(), fx, acts, s, Settle(3));
    assert s == AfterSkip();
  }

  lemma WholeRun(fx: Extractor) returns (acts: seq<Action>)
    ensures Leads(INIT, fx, acts, AfterSkip())
  {
    acts := UploadRun(fx);
    var next := ClaimRun(fx);
    acts := LeadsOn(fx, acts, AfterUpload(), next, AfterClaim());
    next := JobRun(fx);
    acts := LeadsOn(fx, acts, AfterClaim(), next, AfterJob());
    next := RetryRun(fx);
    acts := LeadsOn(fx, acts, AfterJob(), next, AfterRetry());
    next := DropRun(fx);
    acts := LeadsOn(fx, acts, AfterRetry(), next, AfterDrop());
    next := SkipRun(fx);
    acts := LeadsOn(fx, acts, AfterDrop(), next, AfterSkip());
  }

  lemma LeadsOn(fx: Extractor, acts: seq<Action>, t: Sys, more: seq<Action>, v: Sys) returns (all: seq<Action>)
    requires Leads(INIT, fx, acts, t) && Leads(t, fx, more, v)
    ensures Leads(INIT, fx, all, v)
  {
    RunsCompose(INIT, fx, acts, more);
    all := acts + more;
  }

  /** "No request is lost" fails without any lost connection: the upload was answered 202, all
      queues are empty, the dead-letter queue holds nothing, and the row is PENDING for good. */
  lemma AcceptedVideoCanBeLost(fx: Extractor) returns (acts: seq<Action>)
    ensures Possible(INIT, fx, acts)
    ensures var s := After(INIT, fx, acts);
            && AllSettled(s)
            && UploadAt(s, 0, Replied(Accepted))
            && s.uploads[0].id in s.rows
            && s.rows[s.uploads[0].id].status == Pending
            && forall m :: 0 <= m < |s.msgs| ==> !s.msgs[m].place.DeadLettered?
  {
    acts := WholeRun(fx);
  }
}
