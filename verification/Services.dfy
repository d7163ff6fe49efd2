/** The services' own code, run against the cluster with everybody else interfering
    between any two of its effects. */
module Services {
  import opened Domain
  import opened VideoTable
  import opened Protocol
  import opened Invariant
  import opened Cluster

  // ----- how the outside world treats one attempt ----------------------------------------------

  /** How each effect of an attempt goes, if the attempt gets there. */
  datatype Weather = Weather(announce: Effect, dir: bool, fetch: bool, extract: bool, put: Effect, report: Effect)

  /** What the weather leaves of an attempt whose source yields `frames`: whatever can succeed does. */
  predicate Decided(w: Weather, frames: seq<Frame>, outcome: Outcome) {
    && (outcome == DoneOutcome <==>
        w.dir && w.fetch && w.extract && frames != [] && w.put == Works && w.report == Works)
    && (outcome == FailedOutcome <==> w.dir && !(w.fetch && w.extract && frames != []) && w.report == Works)
  }

  // ----- what one attempt at a job consists of ------------------------------------------------

  datatype Outcome = DoneOutcome | FailedOutcome | ErrorOutcome

  /** A processing failure: one attempt to publish it decides between failed and error. */
  predicate ReportsFailure(h: nat, steps: seq<Action>, outcome: Outcome) {
    && |steps| == 1 && steps[0].PublishFailed? && steps[0].h == h
    && outcome == if steps[0].eff == Works then FailedOutcome else ErrorOutcome
  }

  /** The archive is stored first; only if that works is it reported. */
  predicate DeliversArchive(h: nat, steps: seq<Action>, outcome: Outcome) {
    || (|steps| == 1 && steps[0].PutZip? && steps[0].h == h && steps[0].eff != Works && outcome == ErrorOutcome)
    || (&& |steps| == 2 && steps[0] == PutZip(h, Works) && steps[1].PublishDone? && steps[1].h == h
        && outcome == if steps[1].eff == Works then DoneOutcome else ErrorOutcome)
  }

  predicate WorksOn(h: nat, steps: seq<Action>, outcome: Outcome) {
    && steps != []
    && (|| (steps[0] == Download(h, false) && ReportsFailure(h, steps[1..], outcome))
        || (steps[0] == Download(h, true) && Extracts(h, steps[1..], outcome)))
  }

  predicate Extracts(h: nat, steps: seq<Action>, outcome: Outcome) {
    && steps != []
    && (|| (steps[0] == RunExtraction(h, false) && ReportsFailure(h, steps[1..], outcome))
        || (steps[0] == RunExtraction(h, true) && DeliversArchive(h, steps[1..], outcome)))
  }

  predicate Attempts(h: nat, steps: seq<Action>, outcome: Outcome) {
    && |steps| >= 2
    && steps[0].PublishProcessing? && steps[0].h == h
    && (|| (steps[1] == MakeWorkDir(h, false) && |steps| == 2 && outcome == ErrorOutcome)
        || (steps[1] == MakeWorkDir(h, true) && WorksOn(h, steps[2..], outcome)))
  }

  /** Infrastructure failures are errors, processing failures are not: an unreadable source or a
      failed extraction, and nothing else, is reported as a failure; the outcome is failed exactly if
      that report went out, done exactly if the success report did, and an error exactly if the
      scratch directory, the archive or a report could not be made. */
  ghost predicate InfraSplit(h: nat, steps: seq<Action>, outcome: Outcome) {
    && (outcome == FailedOutcome <==> PublishFailed(h, Works) in steps)
    && (outcome == DoneOutcome <==> PublishDone(h, Works) in steps)
    && ((exists eff :: PublishFailed(h, eff) in steps)
        <==> Download(h, false) in steps || RunExtraction(h, false) in steps)
    && (outcome == ErrorOutcome <==>
        || MakeWorkDir(h, false) in steps
        || (exists eff :: eff != Works && PutZip(h, eff) in steps)
        || (exists eff :: eff != Works && PublishDone(h, eff) in steps)
        || (exists eff :: eff != Works && PublishFailed(h, eff) in steps))
  }

  /** A step that succeeded, ahead of others, changes nothing about the split. */
  lemma SplitAfter(h: nat, first: Action, rest: seq<Action>, outcome: Outcome)
    requires InfraSplit(h, rest, outcome)
    requires first.PublishProcessing? || first in {MakeWorkDir(h, true), Download(h, true), RunExtraction(h, true)}
    ensures InfraSplit(h, [first] + rest, outcome)
  {
    var steps := [first] + rest;
    assert forall a :: a in steps <==> a == first || a in rest;
  }

  lemma FailureSplits(h: nat, first: Action, rest: seq<Action>, outcome: Outcome)
    requires first == Download(h, false) || first == RunExtraction(h, false)
    requires ReportsFailure(h, rest, outcome)
    ensures InfraSplit(h, [first] + rest, outcome)
  {
    var steps := [first] + rest;
    assert steps == [first, PublishFailed(h, rest[0].eff)];
    assert PublishFailed(h, rest[0].eff) in steps;
  }

  lemma DeliverySplits(h: nat, steps: seq<Action>, outcome: Outcome)
    requires DeliversArchive(h, steps, outcome)
    ensures InfraSplit(h, steps, outcome)
  {
    if |steps| == 1 {
      assert steps == [PutZip(h, steps[0].eff)] && PutZip(h, steps[0].eff) in steps;
    } else {
      assert steps == [PutZip(h, Works), PublishDone(h, steps[1].eff)] && PublishDone(h, steps[1].eff) in steps;
    }
  }

  lemma AttemptSplits(h: nat, steps: seq<Action>, outcome: Outcome)
    requires Attempts(h, steps, outcome)
    ensures InfraSplit(h, steps, outcome)
  {
    hide InfraSplit, ReportsFailure, DeliversArchive;
    var made := steps[1..];
    assert steps == [steps[0]] + made;
    if made[0] == MakeWorkDir(h, false) {
      assert made == [MakeWorkDir(h, false)];
      NoDirSplits(h);
    } else {
      var work := steps[2..];
      assert made == [made[0]] + work && work == [work[0]] + work[1..];
      if work[0] == Download(h, false) {
        FailureSplits(h, work[0], work[1..], outcome);
      } else {
        ExtractSplits(h, work[1..], outcome);
        SplitAfter(h, work[0], work[1..], outcome);
      }
      SplitAfter(h, made[0], work, outcome);
    }
    SplitAfter(h, steps[0], made, outcome);
  }

  lemma AttemptWithoutDir(h: nat, eff: Effect)
    ensures Attempts(h, [PublishProcessing(h, eff)] + [MakeWorkDir(h, false)], ErrorOutcome)
  {
  }

  lemma AttemptWithDir(h: nat, eff: Effect, work: seq<Action>, outcome: Outcome)
    requires WorksOn(h, work, outcome)
    ensures Attempts(h, [PublishProcessing(h, eff)] + [MakeWorkDir(h, true)] + work, outcome)
  {
    assert ([PublishProcessing(h, eff)] + [MakeWorkDir(h, true)] + work)[2..] == work;
  }

  lemma NoDirSplits(h: nat)
    ensures InfraSplit(h, [MakeWorkDir(h, false)], ErrorOutcome)
  {
  }

  lemma ExtractSplits(h: nat, steps: seq<Action>, outcome: Outcome)
    requires Extracts(h, steps, outcome)
    ensures InfraSplit(h, steps, outcome)
  {
    hide InfraSplit, ReportsFailure, DeliversArchive;
    assert steps == [steps[0]] + steps[1..];
    if steps[0] == RunExtraction(h, false) {
      FailureSplits(h, steps[0], steps[1..], outcome);
    } else {
      DeliverySplits(h, steps[1..], outcome);
      SplitAfter(h, steps[0], steps[1..], outcome);
    }
  }

  // ----- worker ----------------------------------------------------------------------------

  /** The goroutines that ended with outcome `o`. */
  ghost function EndedWith(finished: map<nat, Outcome>, o: Outcome): set<nat> {
    set t | t in finished && finished[t] == o
  }

  lemma OneMoreEnded(finished: map<nat, Outcome>, tag: nat, outcome: Outcome, o: Outcome)
    requires tag !in finished
    ensures |EndedWith(finished[tag := outcome], o)| == |EndedWith(finished, o)| + (if o == outcome then 1 else 0)
  {
    var before, after := EndedWith(finished, o), EndedWith(finished[tag := outcome], o);
    assert after == if o == outcome then before + {tag} else before;
  }

  /** One worker process: its goroutines share the gauge and the counters. */
  class Worker {
    const cluster: Cluster
    var inFlight: int
    var processed: map<Outcome, nat>
    ghost var running: set<nat>
    ghost var finished: map<nat, Outcome>

    constructor (cluster: Cluster)
      ensures this.cluster == cluster && Metered() && running == {} && finished == map[]
    {
      this.cluster := cluster;
      inFlight, processed := 0, map[DoneOutcome := 0, FailedOutcome := 0, ErrorOutcome := 0];
      running, finished := {}, map[];
    }

    /** The gauge counts the goroutines inside `Handle`, the counters those that have left it. */
    ghost predicate Metered()
      reads this
    {
      && inFlight == |running|
      && processed.Keys == {DoneOutcome, FailedOutcome, ErrorOutcome}
      && forall o :: o in processed ==> processed[o] == |EndedWith(finished, o)|
    }

    /** The other goroutines of this worker enter and leave `Handle`. */
    method Others(ghost tag: nat)
      requires Metered()
      modifies this
      ensures Metered()
      ensures tag in running <==> tag in old(running)
      ensures tag in finished <==> tag in old(finished)
    {
    }

    method JobStarted(ghost tag: nat)
      requires Metered() && tag !in running
      modifies this
      ensures Metered() && running == old(running) + {tag} && finished == old(finished)
    {
      inFlight := inFlight + 1;
      running := running + {tag};
    }

    method JobFinished(outcome: Outcome, ghost tag: nat)
      requires Metered() && tag in running && tag !in finished
      modifies this
      ensures Metered() && running == old(running) - {tag} && finished == old(finished)[tag := outcome]
    {
      inFlight := inFlight - 1;
      assert outcome.DoneOutcome? || outcome.FailedOutcome? || outcome.ErrorOutcome?;
      processed := processed[outcome := processed[outcome] + 1];
      forall o
        ensures |EndedWith(finished[tag := outcome], o)| == |EndedWith(finished, o)| + (if o == outcome then 1 else 0)
      {
        OneMoreEnded(finished, tag, outcome, o);
      }
      running, finished := running - {tag}, finished[tag := outcome];
    }

    /** What a finished attempt at `job` has to show for itself: nil means its own terminal event
        is the newest publication, agrees with the outcome and is true of the job. */
    ghost predicate Attempted(d: Delivery, job: VideoJob, outcome: Outcome, err: bool)
      reads cluster, cluster.videos, cluster.store, cluster.broker, cluster.mailer
    {
      && cluster.At(d, AfterReport(err))
      && (err <==> outcome == ErrorOutcome)
      && Terminals(cluster.broker.published, d.tag) <= 1
      && (!err ==>
            var ps := cluster.broker.published;
            && Terminals(ps, d.tag) == 1
            && ps != []
            && ps[|ps| - 1].author == d.tag
            && var e := ps[|ps| - 1].event;
               match outcome
               case DoneOutcome =>
                 && e.DoneEvent? && e.videoId == job.videoId && e.zipKey == ZipKey(job.videoId)
                 && e.zipKey in cluster.store.objects && cluster.store.objects[e.zipKey].Archive?
                 && e.frameCount == |cluster.store.objects[e.zipKey].frames| > 0
               case FailedOutcome => e.FailedEvent? && e == FailedOf(job, e.reason) && e.reason != NoReason
               case ErrorOutcome => false)
    }

    /** An infrastructure failure before anything terminal was published. */
    lemma AbortCounts(d: Delivery, job: VideoJob)
      requires cluster.At(d, Settling(Retry)) && d.body == JobMsg(job)
      ensures Attempted(d, job, ErrorOutcome, true)
    {
      cluster.SettledFacts(d, Settling(Retry));
    }

    lemma DoneCounts(d: Delivery, job: VideoJob, frames: seq<Frame>)
      requires cluster.At(d, Settling(Handled)) && d.body == JobMsg(job) && frames != []
      requires var ps, key := cluster.broker.published, ZipKey(job.videoId);
               && ps != [] && ps[|ps| - 1].author == d.tag
               && ps[|ps| - 1].event == DoneEvent(job.videoId, key, |frames|)
               && key in cluster.store.objects && cluster.store.objects[key] == Archive(frames)
      ensures Attempted(d, job, DoneOutcome, false)
    {
      cluster.SettledFacts(d, Settling(Handled));
    }

    lemma AttemptSettles(d: Delivery, job: VideoJob, outcome: Outcome, err: bool)
      requires Attempted(d, job, outcome, err)
      ensures cluster.At(d, AfterReport(err))
    {
    }

    method Fail(d: Delivery, job: VideoJob, reason: Reason, report: Effect)
      returns (outcome: Outcome, err: bool, ghost steps: seq<Action>)
      requires cluster.At(d, ReportingFailed(reason)) && d.body == JobMsg(job) && reason != NoReason
      modifies cluster.repr
      ensures Attempted(d, job, outcome, err)
      ensures ReportsFailure(d.tag, steps, outcome) && cluster.Steps(d) == old(cluster.Steps(d)) + steps
      ensures outcome == if report == Works then FailedOutcome else ErrorOutcome
      ensures !err ==> var ps := cluster.broker.published; ps[|ps| - 1].event == FailedOf(job, reason)
      ensures old(cluster.trace) <= cluster.trace
    {
      hide After, Possible, Next, Serves, Cluster.Valid;
      err := cluster.PublishFailed(FailedOf(job, reason), reason, report, d);
      outcome := if err then ErrorOutcome else FailedOutcome;
      steps := [PublishFailed(d.tag, report)];
      cluster.SettledFacts(d, AfterReport(err));
    }

    /** The ordered effects of one job. */
    method Process(d: Delivery, job: VideoJob, w: Weather)
      returns (outcome: Outcome, err: bool, ghost steps: seq<Action>, ghost source: Bytes)
      requires cluster.At(d, Announcing) && d.body == JobMsg(job)
      modifies cluster.repr
      ensures Attempted(d, job, outcome, err)
      ensures Attempts(d.tag, steps, outcome)
      ensures cluster.Steps(d) == old(cluster.Steps(d)) + steps && old(cluster.trace) <= cluster.trace
      ensures HoldsSource(old(cluster.store.objects), job, source) && Decided(w, cluster.fx(source), outcome)
    {
      hide After, Possible, Next, Attempts, Attempted, Serves, Cluster.Valid, WorksOn, Own, Extends;
      cluster.SourceFacts(d, Announcing);
      source := cluster.store.objects[job.sourceKey].content;
      // Only a hint: a failure to announce is not an error.
      var _ := cluster.PublishProcessing(job.videoId, w.announce, d);
      YieldKeepsSource(d, job, MakingDir, source);

      cluster.MakeWorkDir(w.dir, d);
      steps := [PublishProcessing(d.tag, w.announce)] + [MakeWorkDir(d.tag, w.dir)];
      if !w.dir {
        AbortCounts(d, job);
        AttemptWithoutDir(d.tag, w.announce);
        return ErrorOutcome, true, steps, source;
      }
      YieldKeepsSource(d, job, Fetching, source);

      ghost var more;
      outcome, err, more := Work(d, job, w, source);
      AttemptWithDir(d.tag, w.announce, more, outcome);
      steps := steps + more;
    }

    /** The store holds `source` under the key of `job`. */
    predicate HoldsSource(objects: map<Key, Blob>, job: VideoJob, source: Bytes) {
      job.sourceKey in objects && objects[job.sourceKey] == SourceVideo(source)
    }

    /** Interference does not touch stored sources. */
    method YieldKeepsSource(ghost d: Delivery, job: VideoJob, ghost pc: Pc, ghost source: Bytes)
      requires cluster.At(d, pc) && HoldsSource(cluster.store.objects, job, source)
      modifies cluster.repr
      ensures cluster.At(d, pc) && HoldsSource(cluster.store.objects, job, source)
      ensures old(cluster.trace) <= cluster.trace && cluster.Steps(d) == old(cluster.Steps(d))
    {
      hide After, Possible, Next, Serves, Cluster.Valid, Own;
      cluster.Yield(d, pc);
    }

    /** Fetch the source, extract its frames, deliver them. */
    method Work(d: Delivery, job: VideoJob, w: Weather, ghost source: Bytes)
      returns (outcome: Outcome, err: bool, ghost steps: seq<Action>)
      requires cluster.At(d, Fetching) && d.body == JobMsg(job) && HoldsSource(cluster.store.objects, job, source)
      modifies cluster.repr
      ensures Attempted(d, job, outcome, err)
      ensures WorksOn(d.tag, steps, outcome)
      ensures cluster.Steps(d) == old(cluster.Steps(d)) + steps && old(cluster.trace) <= cluster.trace
      ensures w.dir ==> Decided(w, cluster.fx(source), outcome)
    {
      hide After, Possible, Next, Attempted, Serves, Cluster.Valid, ReportsFailure, Extracts, Own, Extends;
      var got := cluster.Download(job.sourceKey, w.fetch, d);
      ghost var first, more := [Download(d.tag, w.fetch)], [];
      if got.None? {
        cluster.Yield(d, ReportingFailed(SourceUnavailable));
        outcome, err, more := Fail(d, job, SourceUnavailable, w.report);
      } else {
        cluster.Yield(d, Extracting(got.value));
        outcome, err, more := Extract(d, job, got.value, w);
      }
      steps := first + more;
      assert steps[1..] == more;
    }

    method Extract(d: Delivery, job: VideoJob, source: Bytes, w: Weather)
      returns (outcome: Outcome, err: bool, ghost steps: seq<Action>)
      requires cluster.At(d, Extracting(source)) && d.body == JobMsg(job)
      modifies cluster.repr
      ensures Attempted(d, job, outcome, err)
      ensures Extracts(d.tag, steps, outcome)
      ensures cluster.Steps(d) == old(cluster.Steps(d)) + steps && old(cluster.trace) <= cluster.trace
      ensures w.dir && w.fetch ==> Decided(w, cluster.fx(source), outcome)
    {
      hide After, Possible, Next, Attempted, Serves, Cluster.Valid, ReportsFailure, DeliversArchive, Own, Extends;
      var frames := cluster.RunExtraction(source, w.extract, d);
      ghost var first, more := [RunExtraction(d.tag, frames.Some?)], [];
      if frames.None? {
        cluster.Yield(d, ReportingFailed(NotProcessable));
        outcome, err, more := Fail(d, job, NotProcessable, w.report);
      } else {
        cluster.Yield(d, StoringZip(frames.value));
        outcome, err, more := Deliver(d, job, frames.value, w.put, w.report);
      }
      steps := first + more;
      assert steps[1..] == more;
    }

    /** Store the archive, then report it. */
    method Deliver(d: Delivery, job: VideoJob, frames: seq<Frame>, put: Effect, report: Effect)
      returns (outcome: Outcome, err: bool, ghost steps: seq<Action>)
      requires cluster.At(d, StoringZip(frames)) && d.body == JobMsg(job)
      modifies cluster.repr
      ensures Attempted(d, job, outcome, err)
      ensures DeliversArchive(d.tag, steps, outcome)
      ensures cluster.Steps(d) == old(cluster.Steps(d)) + steps && old(cluster.trace) <= cluster.trace
      ensures outcome == if put == report == Works then DoneOutcome else ErrorOutcome
      ensures !err ==>
                var key, ps := ZipKey(job.videoId), cluster.broker.published;
                && ps[|ps| - 1].event == DoneEvent(job.videoId, key, |frames|)
                && key in cluster.store.objects && cluster.store.objects[key] == Archive(frames)
    {
      hide After, Possible, Next, Attempted, Serves, Cluster.Valid, Own, Extends;
      var zipKey := ZipKey(job.videoId);
      err := cluster.PutZip(zipKey, frames, put, d);
      steps := [PutZip(d.tag, put)];
      if err {
        AbortCounts(d, job);
        return ErrorOutcome, true, steps;
      }
      cluster.Yield(d, ReportingDone(frames));
      cluster.ReportingFacts(d, frames);
      err := cluster.PublishDone(DoneEvent(job.videoId, zipKey, |frames|), frames, report, d);
      steps := steps + [PublishDone(d.tag, report)];
      outcome := if err then ErrorOutcome else DoneOutcome;
      if err { AbortCounts(d, job); } else { DoneCounts(d, job, frames); }
    }

    /** One job end to end, counted once whatever the worker's other goroutines do. */
    method Handle(d: Delivery, job: VideoJob, w: Weather)
      returns (err: bool, ghost outcome: Outcome, ghost steps: seq<Action>, ghost source: Bytes)
      requires cluster.At(d, Announcing) && d.body == JobMsg(job) && this !in cluster.repr
      requires Metered() && d.tag !in running && d.tag !in finished
      modifies this, cluster.repr
      ensures Attempted(d, job, outcome, err) && cluster.At(d, AfterReport(err))
      ensures InfraSplit(d.tag, steps, outcome)
      ensures cluster.Steps(d) == old(cluster.Steps(d)) + steps && old(cluster.trace) <= cluster.trace
      ensures Metered() && d.tag !in running && d.tag in finished && finished[d.tag] == outcome
      ensures HoldsSource(old(cluster.store.objects), job, source) && Decided(w, cluster.fx(source), outcome)
    {
      hide After, Possible, Next, Attempted, Serves, Cluster.Valid, Attempts, InfraSplit, Own, Metered, Decided;
      JobStarted(d.tag);
      Others(d.tag);
      var result: Outcome;
      result, err, steps, source := Process(d, job, w);
      AttemptSplits(d.tag, steps, result);
      AttemptSettles(d, job, result, err);
      outcome := result;
      Others(d.tag);
      JobFinished(result, d.tag);
    }

    /** Decode, handle, and settle by the outcome: an error is requeued once, then dead-lettered. */
    method ProcessDelivery(d: Delivery, w: Weather) returns (ghost verdict: Verdict, ghost source: Bytes)
      requires cluster.At(d, FirstPc(d.body)) && d.body.Queue() == JobsQueue && this !in cluster.repr
      requires Metered() && d.tag !in running && d.tag !in finished
      modifies this, cluster.repr
      ensures cluster.At(d, Finished(verdict)) && old(cluster.trace) < cluster.trace
      ensures Metered() && d.tag !in running
      ensures match verdict
              case Handled =>
                && d.body.JobMsg? && Terminals(cluster.broker.published, d.tag) == 1
                && TerminalPublished(cluster.Now(), d.body.job.videoId)
                && d.tag in finished && finished[d.tag] != ErrorOutcome
                && cluster.LeftAt(d, Acked)
              case Retry =>
                && d.body.JobMsg?
                && d.tag in finished && finished[d.tag] == ErrorOutcome
                && cluster.LeftAt(d, if d.redelivered then DeadLettered else Ready)
              case Reject => d.body.Undecodable? && cluster.LeftAt(d, DeadLettered)
      ensures d.body.JobMsg? ==>
                && HoldsSource(old(cluster.store.objects), d.body.job, source)
                && d.tag in finished && Decided(w, cluster.fx(source), finished[d.tag])
    {
      hide After, Possible, Next, Attempted, Terminals, Serves, Cluster.Valid, InfraSplit, Own, Metered, Extends;
      hide Cluster.LeftAt, Decided;
      source := "";
      match d.body {
        case JobMsg(job) =>
          var err, outcome, _, src := Handle(d, job, w);
          source := src;
          OutcomeTellsError(d, job, outcome, err);
          cluster.Yield(d, AfterReport(err));
          if err {
            cluster.Nack(d, !d.redelivered);
          } else {
            cluster.Ack(d);
          }
          verdict := if err then Retry else Handled;
          cluster.SettledFacts(d, Finished(verdict));
        case Undecodable(_) =>
          cluster.Nack(d, false);
          verdict := Reject;
      }
    }

    lemma OutcomeTellsError(d: Delivery, job: VideoJob, outcome: Outcome, err: bool)
      requires Attempted(d, job, outcome, err)
      ensures err <==> outcome == ErrorOutcome
    {
    }
  }

  // ----- status consumer -----------------------------------------------------------------------

  class StatusConsumer {
    const cluster: Cluster

    constructor (cluster: Cluster)
      ensures this.cluster == cluster
    {
      this.cluster := cluster;
    }

    /** Dispatch on the routing key; undecodable events are dropped as handled. */
    method Apply(d: Delivery, eff: Effect) returns (err: bool)
      requires cluster.At(d, FirstPc(d.body)) && d.body.Queue() == StatusQueue
      modifies cluster.repr
      ensures cluster.At(d, AfterReport(err)) && old(cluster.trace) <= cluster.trace
      ensures err <==> d.body.StatusMsg? && eff != Works
      ensures d.body.StatusMsg? && !err ==>
                cluster.videos.rows == VideoTable.Apply(old(cluster.videos.rows), d.body.event)
      ensures d.body.Undecodable? ==> !err && cluster.Now() == old(cluster.Now())
    {
      hide After, Possible, Next, Serves, Cluster.Valid;
      err := false;
      match d.body {
        case StatusMsg(ProcessingEvent(id)) => err := cluster.MarkProcessing(id, eff, d);
        case StatusMsg(DoneEvent(id, zipKey, frameCount)) => err := cluster.MarkDone(id, zipKey, frameCount, eff, d);
        case StatusMsg(FailedEvent(id, _, _, _, reason)) => err := cluster.MarkFailed(id, reason, eff, d);
        case Undecodable(_) =>
      }
    }

    /** Ack what was applied or ignored; requeue a store failure once, then drop. */
    method ProcessDelivery(d: Delivery, eff: Effect) returns (ghost verdict: Verdict)
      requires cluster.At(d, FirstPc(d.body)) && d.body.Queue() == StatusQueue
      modifies cluster.repr
      ensures cluster.At(d, Finished(verdict)) && old(cluster.trace) < cluster.trace
      ensures match verdict
              case Handled =>
                && (d.body.StatusMsg? ==> && d.body.event in cluster.applied
                                          && d.body.event.videoId in cluster.videos.rows)
                && cluster.LeftAt(d, Acked)
              case Retry => cluster.LeftAt(d, if d.redelivered then Dropped else Ready)
              case Reject => false
      ensures verdict == Retry <==> d.body.StatusMsg? && eff != Works
    {
      hide After, Possible, Next, Serves, Cluster.Valid, Cluster.LeftAt;
      var err := Apply(d, eff);
      cluster.Yield(d, AfterReport(err));
      if err {
        cluster.Nack(d, !d.redelivered);
      } else {
        cluster.Ack(d);
      }
      verdict := if err then Retry else Handled;
      cluster.SettledFacts(d, Finished(verdict));
    }
  }

  // ----- notifier --------------------------------------------------------------------------------

  class Notifier {
    const cluster: Cluster
    var sent: nat
    var skipped: nat
    var failed: nat

    constructor (cluster: Cluster)
      ensures this.cluster == cluster && sent == skipped == failed == 0
    {
      this.cluster := cluster;
      sent, skipped, failed := 0, 0, 0;
    }

    /** E-mail the owner; an event without an address is skipped. */
    method Handle(d: Delivery, e: Event, eff: Effect) returns (err: bool)
      requires cluster.At(d, FirstPc(d.body)) && d.body == NoticeMsg(e) && e.FailedEvent? && this !in cluster.repr
      modifies this, cluster.repr
      ensures cluster.At(d, AfterReport(err)) && old(cluster.trace) <= cluster.trace
      ensures err <==> e.email != "" && eff != Works
      ensures e.email == "" ==> cluster.Now() == old(cluster.Now()) && skipped == old(skipped) + 1
                                && sent == old(sent) && failed == old(failed)
      ensures e.email != "" && !err ==>
                cluster.mailer.mails == old(cluster.mailer.mails) + [Mail(e.email, e.videoId, e.reason, d.msg)]
                && sent == old(sent) + 1 && skipped == old(skipped) && failed == old(failed)
      ensures err ==> failed == old(failed) + 1 && sent == old(sent) && skipped == old(skipped)
    {
      hide After, Possible, Next, Serves, Cluster.Valid;
      if e.email == "" {
        skipped := skipped + 1;
        return false;
      }
      err := cluster.SendMail(e, d.msg, eff, d);
      if err {
        failed := failed + 1;
      } else {
        sent := sent + 1;
      }
    }

    /** Best effort: one retry, then the notification is dropped. */
    method ProcessDelivery(d: Delivery, eff: Effect) returns (ghost verdict: Verdict)
      requires cluster.At(d, FirstPc(d.body)) && d.body.Queue() == NotificationsQueue && this !in cluster.repr
      modifies this, cluster.repr
      ensures cluster.At(d, Finished(verdict)) && old(cluster.trace) < cluster.trace
      ensures match verdict
              case Handled =>
                && d.body.NoticeMsg? && d.body.event.FailedEvent?
                && (d.body.event.email != "" ==> Mailed(cluster.Now(), d.msg))
                && cluster.LeftAt(d, Acked)
              case Retry => d.body.NoticeMsg? && cluster.LeftAt(d, if d.redelivered then Dropped else Ready)
              case Reject => d.body.Undecodable? && cluster.LeftAt(d, Dropped)
      ensures verdict == Retry <==>
                d.body.NoticeMsg? && d.body.event.FailedEvent? && d.body.event.email != "" && eff != Works
    {
      hide After, Possible, Next, Serves, Cluster.Valid, Cluster.LeftAt;
      match d.body {
        case NoticeMsg(e) =>
          cluster.NoticesAreFailures(d, FirstPc(d.body));
          var err := Handle(d, e, eff);
          cluster.Yield(d, AfterReport(err));
          if err {
            cluster.Nack(d, !d.redelivered);
          } else {
            cluster.Ack(d);
          }
          verdict := if err then Retry else Handled;
          cluster.SettledFacts(d, Finished(verdict));
        case Undecodable(_) =>
          cluster.Nack(d, false);
          verdict := Reject;
      }
    }
  }
}
