/** Two outcomes for one video: the success report of the first attempt goes out although the worker
    sees an error, and the retry reports a failure. Both reach the row, in order of arrival. */
module Overwrite {
  import opened Domain
  import opened VideoTable
  import opened Protocol
  import opened Loss

  function Frames(fx: Extractor): seq<Frame> { fx("bytes") }
  function Success(fx: Extractor): Event { DoneEvent(VIDEO, ZipKey(VIDEO), |Frames(fx)|) }

  const BORN := NewRow(OWNER, "clip.mp4", KEY, 0)

  /** The state once the archive is stored. */
  function Stored(fx: Extractor, row: Video, msgs: seq<Message>, handlers: seq<Handler>,
                  published: seq<Publication>, applied: seq<Event>): Sys
  {
    Sys([Upload(OWNER, "clip.mp4", ".mp4", "bytes", KEY, VIDEO, "", 0, Replied(Accepted))],
        map[KEY := SourceVideo("bytes"), ZipKey(VIDEO) := Archive(Frames(fx))],
        map[VIDEO := row], map[VIDEO := 0], msgs, handlers, published, [], applied)
  }

  function AfterFetch(): Sys {
    Loss.World([Message(JobMsg(JOB), Held(0), false, 1, 0, 0)], [Handler(0, false, Extracting("bytes"))], [])
  }

  function AfterStore(fx: Extractor): Sys {
    Stored(fx, BORN, [Message(JobMsg(JOB), Held(0), false, 1, 0, 0)], [Handler(0, false, ReportingDone(Frames(fx)))],
           [], [])
  }

  function AfterFirst(fx: Extractor): Sys {
    Stored(fx, BORN, [Message(JobMsg(JOB), Ready, true, 1, 1, 0), Fresh(StatusMsg(Success(fx)))],
           [Handler(0, false, Finished(Retry))], [Publication(Success(fx), 0, 1)], [])
  }

  /** During the second attempt. */
  function Retrying(fx: Extractor, pc: Pc): Sys {
    Stored(fx, BORN, [Message(JobMsg(JOB), Held(1), true, 2, 1, 0), Fresh(StatusMsg(Success(fx)))],
           [Handler(0, false, Finished(Retry)), Handler(0, true, pc)], [Publication(Success(fx), 0, 1)], [])
  }

  /** Both attempts are over; `status` is the delivery state of the two status messages. */
  function Reported(fx: Extractor, row: Video, first: Message, second: Message,
                    consumers: seq<Handler>, applied: seq<Event>): Sys
  {
    Stored(fx, row, [Message(JobMsg(JOB), Acked, true, 2, 1, 0), first, second, Fresh(NoticeMsg(FAILURE))],
           [Handler(0, false, Finished(Retry)), Handler(0, true, Finished(Handled))] + consumers,
           [Publication(Success(fx), 0, 1), Publication(FAILURE, 1, 2)], applied)
  }

  function AfterSecond(fx: Extractor): Sys {
    Reported(fx, BORN, Fresh(StatusMsg(Success(fx))), Fresh(StatusMsg(FAILURE)), [], [])
  }

  function DoneRow(fx: Extractor): Video { Advance(BORN, Success(fx)) }

  function DoneDelivered(fx: Extractor): Sys {
    Reported(fx, BORN, Message(StatusMsg(Success(fx)), Held(2), false, 1, 0, 0), Fresh(StatusMsg(FAILURE)),
             [Handler(1, false, Applying)], [])
  }

  function AfterDone(fx: Extractor): Sys {
    Reported(fx, DoneRow(fx), Settled(StatusMsg(Success(fx)), Acked, false), Fresh(StatusMsg(FAILURE)),
             [Handler(1, false, Finished(Handled))], [Success(fx)])
  }

  function FailedDelivered(fx: Extractor): Sys {
    Reported(fx, DoneRow(fx), Settled(StatusMsg(Success(fx)), Acked, false),
             Message(StatusMsg(FAILURE), Held(3), false, 1, 0, 0),
             [Handler(1, false, Finished(Handled)), Handler(2, false, Applying)], [Success(fx)])
  }

  function AfterFailed(fx: Extractor): Sys {
    Reported(fx, Advance(DoneRow(fx), FAILURE), Settled(StatusMsg(Success(fx)), Acked, false),
             Settled(StatusMsg(FAILURE), Acked, false),
             [Handler(1, false, Finished(Handled)), Handler(2, false, Finished(Handled))], [Success(fx), FAILURE])
  }

  lemma FetchRun(fx: Extractor) returns (acts: seq<Action>)
    ensures Leads(AfterClaim(), fx, acts, AfterFetch())
  {
    hide Leads;
    var s := AfterClaim();
    acts := Start(s, fx);
    acts, s := Then(AfterClaim(), fx, acts, s, Download(0, true));
    assert s == AfterFetch();
  }

  lemma StoreRun(fx: Extractor) returns (acts: seq<Action>)
    requires Frames(fx) != []
    ensures Leads(AfterFetch(), fx, acts, AfterStore(fx))
  {
    hide Leads;
    var s := AfterFetch();
    acts := Start(s, fx);
    acts, s := Then(AfterFetch(), fx, acts, s, RunExtraction(0, true));
    acts, s := Then(AfterFetch(), fx, acts, s, PutZip(0, Works));
    assert s == AfterStore(fx);
  }

  lemma FirstRun(fx: Extractor) returns (acts: seq<Action>)
    ensures Leads(AfterStore(fx), fx, acts, AfterFirst(fx))
  {
    hide Leads;
    var s := AfterStore(fx);
    acts := Start(s, fx);
    acts, s := Then(AfterStore(fx), fx, acts, s, PublishDone(0, Ambiguous));
    acts, s := Then(AfterStore(fx), fx, acts, s, Settle(0));
    assert s == AfterFirst(fx);
  }

  lemma RetryRun(fx: Extractor) returns (acts: seq<Action>)
    ensures Leads(AfterFirst(fx), fx, acts, Retrying(fx, MakingDir))
  {
    hide Leads;
    var s := AfterFirst(fx);
    acts := Start(s, fx);
    acts, s := Then(AfterFirst(fx), fx, acts, s, Deliver(0));
    acts, s := Then(AfterFirst(fx), fx, acts, s, PublishProcessing(1, Fails));
    assert s == Retrying(fx, MakingDir);
  }

  lemma MissRun(fx: Extractor) returns (acts: seq<Action>)
    ensures Leads(Retrying(fx, MakingDir), fx, acts, Retrying(fx, ReportingFailed(SourceUnavailable)))
  {
    hide Leads;
    var s := Retrying(fx, MakingDir);
    acts := Start(s, fx);
    acts, s := Then(Retrying(fx, MakingDir), fx, acts, s, MakeWorkDir(1, true));
    acts, s := Then(Retrying(fx, MakingDir), fx, acts, s, Download(1, false));
    assert s == Retrying(fx, ReportingFailed(SourceUnavailable));
  }

  lemma SecondRun(fx: Extractor) returns (acts: seq<Action>)
    ensures Leads(Retrying(fx, ReportingFailed(SourceUnavailable)), fx, acts, AfterSecond(fx))
  {
    hide Leads;
    var s := Retrying(fx, ReportingFailed(SourceUnavailable));
    acts := Start(s, fx);
    acts, s := Then(Retrying(fx, ReportingFailed(SourceUnavailable)), fx, acts, s, PublishFailed(1, Works));
    acts, s := Then(Retrying(fx, ReportingFailed(SourceUnavailable)), fx, acts, s, Settle(1));
    assert s == AfterSecond(fx);
  }

  lemma TakeDoneRun(fx: Extractor) returns (acts: seq<Action>)
    ensures Leads(AfterSecond(fx), fx, acts, DoneDelivered(fx))
  {
    hide Leads;
    var s := AfterSecond(fx);
    acts := Start(s, fx);
    acts, s := Then(AfterSecond(fx), fx, acts, s, Deliver(1));
    assert s == DoneDelivered(fx);
  }

  lemma DoneRun(fx: Extractor) returns (acts: seq<Action>)
    ensures Leads(DoneDelivered(fx), fx, acts, AfterDone(fx))
  {
    hide Leads;
    var s := DoneDelivered(fx);
    acts := Start(s, fx);
    acts, s := Then(DoneDelivered(fx), fx, acts, s, ApplyEvent(2, Works));
    acts, s := Then(DoneDelivered(fx), fx, acts, s, Settle(2));
    assert s == AfterDone(fx);
  }

  lemma TakeFailedRun(fx: Extractor) returns (acts: seq<Action>)
    ensures Leads(AfterDone(fx), fx, acts, FailedDelivered(fx))
  {
    hide Leads;
    var s := AfterDone(fx);
    acts := Start(s, fx);
    acts, s := Then(AfterDone(fx), fx, acts, s, Deliver(2));
    assert s == FailedDelivered(fx);
  }

  lemma FailedRun(fx: Extractor) returns (acts: seq<Action>)
    ensures Leads(FailedDelivered(fx), fx, acts, AfterFailed(fx))
  {
    hide Leads;
    var s := FailedDelivered(fx);
    acts := Start(s, fx);
    acts, s := Then(FailedDelivered(fx), fx, acts, s, ApplyEvent(3, Works));
    acts, s := Then(FailedDelivered(fx), fx, acts, s, Settle(3));
    assert s == AfterFailed(fx);
  }

  lemma UntilDone(fx: Extractor) returns (acts: seq<Action>)
    requires Frames(fx) != []
    ensures Leads(INIT, fx, acts, AfterDone(fx))
  {
    hide Leads;
    acts := UploadRun(fx);
    var next := ClaimRun(fx);
    acts := LeadsOn(fx, acts, AfterUpload(), next, AfterClaim());
    next := FetchRun(fx);
    acts := LeadsOn(fx, acts, AfterClaim(), next, AfterFetch());
    next := StoreRun(fx);
    acts := LeadsOn(fx, acts, AfterFetch(), next, AfterStore(fx));
    next := FirstRun(fx);
    acts := LeadsOn(fx, acts, AfterStore(fx), next, AfterFirst(fx));
    next := RetryRun(fx);
    acts := LeadsOn(fx, acts, AfterFirst(fx), next, Retrying(fx, MakingDir));
    next := MissRun(fx);
    acts := LeadsOn(fx, acts, Retrying(fx, MakingDir), next, Retrying(fx, ReportingFailed(SourceUnavailable)));
    next := SecondRun(fx);
    acts := LeadsOn(fx, acts, Retrying(fx, ReportingFailed(SourceUnavailable)), next, AfterSecond(fx));
    next := TakeDoneRun(fx);
    acts := LeadsOn(fx, acts, AfterSecond(fx), next, DoneDelivered(fx));
    next := DoneRun(fx);
    acts := LeadsOn(fx, acts, DoneDelivered(fx), next, AfterDone(fx));
  }

  /** Status events are not idempotent across outcomes: whenever extraction can succeed, some run
      shows the owner DONE and later FAILED, with the archive key still in the row. */
  lemma DoneCanBecomeFailed(fx: Extractor) returns (acts: seq<Action>, more: seq<Action>)
    requires fx("bytes") != []
    ensures Possible(INIT, fx, acts) && Possible(After(INIT, fx, acts), fx, more)
    ensures var s, t := After(INIT, fx, acts), After(After(INIT, fx, acts), fx, more);
            && VIDEO in s.rows && s.rows[VIDEO].status == Done && s.rows[VIDEO].error == NoReason
            && VIDEO in t.rows && t.rows[VIDEO].status == Failed && t.rows[VIDEO].error == SourceUnavailable
            && t.rows[VIDEO].zipKey == s.rows[VIDEO].zipKey == ZipKey(VIDEO)
            && t.rows[VIDEO].frameCount == s.rows[VIDEO].frameCount
  {
    acts := UntilDone(fx);
    var taken := TakeFailedRun(fx);
    var applied := FailedRun(fx);
    RunsCompose(AfterDone(fx), fx, taken, applied);
    more := taken + applied;
  }
}
