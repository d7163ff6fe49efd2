/** Every step keeps the invariant, so every reachable state has it. */
module Safety {
  import opened Domain
  import opened VideoTable
  import opened Protocol
  import opened Invariant

  // ----- which components an action touches -----------------------------------------------

  /** The components an action may change. */
  predicate OnlyTouches(s: Sys, t: Sys, a: Action) {
    && (t.uploads == s.uploads || a.OfGateway() || a.StartUpload?)
    && (t.objects == s.objects || a.PutSource? || a.PutZip?)
    && (t.rows == s.rows || a.InsertRow? || a.ApplyEvent?)
    && (t.origin == s.origin || a.InsertRow?)
    && (t.msgs == s.msgs || a.PublishJob? || a.Inject? || a.Publishes()
        || a.Deliver? || a.LoseConnection? || a.Settle?)
    && (t.handlers == s.handlers || a.Deliver? || a.OfWorker() || a.OfConsumer())
    && (t.published == s.published || a.Publishes())
    && (t.mails == s.mails || a.SendMail?)
    && (t.applied == s.applied || a.ApplyEvent?)
  }

  lemma Untouched(s: Sys, fx: Extractor, a: Action)
    requires Enabled(s, a)
    ensures OnlyTouches(s, Next(s, fx, a), a)
  {
    hide OnlyTouches, Enabled;
    if a.OfGateway() { GatewayTouches(s, a); }
    else if a.OfBroker() { BrokerTouches(s, a); }
    else if a.OfConsumer() { ConsumerTouches(s, a); }
    else { WorkerTouches(s, fx, a); }
  }

  lemma GatewayTouches(s: Sys, a: Action)
    requires Enabled(s, a) && a.OfGateway()
    ensures OnlyTouches(s, NextUpload(s, a), a)
  {
  }

  lemma BrokerTouches(s: Sys, a: Action)
    requires Enabled(s, a) && a.OfBroker()
    ensures OnlyTouches(s, NextBroker(s, a), a)
  {
  }

  lemma ConsumerTouches(s: Sys, a: Action)
    requires Enabled(s, a) && a.OfConsumer()
    ensures OnlyTouches(s, NextConsumer(s, a), a)
  {
  }

  lemma WorkerTouches(s: Sys, fx: Extractor, a: Action)
    requires Enabled(s, a) && a.OfWorker()
    ensures OnlyTouches(s, NextWorker(s, fx, a), a)
  {
  }

  // ----- each step extends -----------------------------------------------------------

  lemma SetUploadExtends(s: Sys, u: nat, up: Upload)
    requires u < |s.uploads| && UploadKept(s.uploads[u], up)
    ensures Extends(s, SetUpload(s, u, up))
  {
  }

  lemma SetPcExtends(s: Sys, h: nat, pc: Pc)
    requires h < |s.handlers|
    ensures Extends(s, SetPc(s, h, pc))
  {
  }

  lemma EmitExtends(s: Sys, h: nat, e: Event, eff: Effect)
    ensures Extends(s, Emit(s, h, e, eff))
  {
  }

  lemma GatewayStepExtends(s: Sys, fx: Extractor, a: Action)
    requires Enabled(s, a) && a.OfGateway()
    ensures Extends(s, Next(s, fx, a))
  {
    var up := Next(s, fx, a).uploads[a.u];
    SetUploadExtends(s, a.u, up);
    ExtendsTransitive(s, SetUpload(s, a.u, up), Next(s, fx, a));
  }

  lemma BrokerStepExtends(s: Sys, fx: Extractor, a: Action)
    requires Enabled(s, a) && a.OfBroker()
    ensures Extends(s, Next(s, fx, a))
  {
  }

  lemma PublishStepExtends(s: Sys, fx: Extractor, a: Action)
    requires Enabled(s, a) && a.Publishes()
    ensures Extends(s, Next(s, fx, a))
  {
    var mid := Emit(s, a.h, EventBy(s, a), a.eff);
    var pc := Next(s, fx, a).handlers[a.h].pc;
    EmitExtends(s, a.h, EventBy(s, a), a.eff);
    SetPcExtends(mid, a.h, pc);
    ExtendsTransitive(s, mid, SetPc(mid, a.h, pc));
  }

  lemma QuietStepExtends(s: Sys, fx: Extractor, a: Action)
    requires Enabled(s, a) && (a.MakeWorkDir? || a.Download? || a.RunExtraction?)
    ensures Extends(s, Next(s, fx, a))
  {
    SetPcExtends(s, a.h, Next(s, fx, a).handlers[a.h].pc);
  }

  /** Overwriting an archive rewrites the same frames. */
  lemma PutZipExtends(s: Sys, fx: Extractor, a: Action)
    requires Enabled(s, a) && a.PutZip? && HandlerOk(s, fx, a.h) && ZipsOk(s, fx)
    ensures Extends(s, Next(s, fx, a))
  {
    var key := ZipKey(JobOf(s, a.h).videoId);
    assert key in s.objects ==> ZipStored(s, fx, JobOf(s, a.h).videoId);
  }

  lemma ApplyEventExtends(s: Sys, fx: Extractor, a: Action)
    requires Enabled(s, a) && a.ApplyEvent?
    requires EventOk(s, fx, BodyOf(s, a.h).event)
    requires RowOk(s, fx, BodyOf(s, a.h).event.videoId)
    ensures Extends(s, Next(s, fx, a))
  {
    var e := BodyOf(s, a.h).event;
    assert RowKept(s.rows[e.videoId], Advance(s.rows[e.videoId], e));
  }

  lemma SettleExtends(s: Sys, fx: Extractor, a: Action)
    requires Enabled(s, a) && a.Settle?
    ensures Extends(s, Next(s, fx, a))
  {
  }

  lemma SendMailExtends(s: Sys, fx: Extractor, a: Action)
    requires Enabled(s, a) && a.SendMail?
    ensures Extends(s, Next(s, fx, a))
  {
  }

  lemma StepExtends(s: Sys, fx: Extractor, a: Action)
    requires Inv(s, fx) && Enabled(s, a)
    ensures Extends(s, Next(s, fx, a))
  {
    hide Next, Extends;
    if a.OfGateway() { GatewayStepExtends(s, fx, a); }
    else if a.OfBroker() { BrokerStepExtends(s, fx, a); }
    else if a.Publishes() { PublishStepExtends(s, fx, a); }
    else if a.PutZip? { assert HandlerOk(s, fx, a.h); PutZipExtends(s, fx, a); }
    else if a.ApplyEvent? { assert BodyOk(s, fx, BodyOf(s, a.h)); ApplyEventExtends(s, fx, a); }
    else if a.SendMail? { SendMailExtends(s, fx, a); }
    else if a.Settle? { SettleExtends(s, fx, a); }
    else { QuietStepExtends(s, fx, a); }
  }

  function EventBy(s: Sys, a: Action): Event
    requires a.Publishes() && Enabled(s, a)
  {
    match a
    case PublishProcessing(h, _) => ProcessingEvent(JobOf(s, h).videoId)
    case PublishDone(h, _) => DoneOf(JobOf(s, h), s.handlers[h].pc.frames)
    case PublishFailed(h, _) => FailedOf(JobOf(s, h), s.handlers[h].pc.reason)
  }

  // ----- uploads -------------------------------------------------------------------------

  lemma UploadsKept(s: Sys, t: Sys, fx: Extractor, a: Action)
    requires UploadsOk(s) && Extends(s, t) && Enabled(s, a) && t == Next(s, fx, a)
    ensures UploadsOk(t)
  {
    if a.OfGateway() { TouchedUpload(s, fx, a); }
    forall u | 0 <= u < |t.uploads| ensures UploadOk(t, u) {
      if u < |s.uploads| && !(a.OfGateway() && a.u == u) {
        assert t.uploads[u] == s.uploads[u];
        UploadStable(s, t, u);
      }
    }
  }

  lemma TouchedUpload(s: Sys, fx: Extractor, a: Action)
    requires Enabled(s, a) && a.OfGateway() && UploadOk(s, a.u)
    ensures UploadOk(Next(s, fx, a), a.u)
  {
    match a
    case PutSource(_, _, _) =>
    case InsertRow(_, _, _, _) =>
    case ResolveOwner(_, _) =>
    case PublishJob(_, _) =>
  }

  // ----- rows ------------------------------------------------------------------------------

  lemma RowsCarry(s: Sys, t: Sys, fx: Extractor)
    requires RowsOk(s, fx) && Extends(s, t)
    ensures forall id :: id in s.rows && t.rows[id] == s.rows[id] ==> RowOk(t, fx, id)
  {
    forall id | id in s.rows && t.rows[id] == s.rows[id] ensures RowOk(t, fx, id) {
      RowStable(s, t, fx, id);
    }
  }

  lemma RowsKept(s: Sys, t: Sys, fx: Extractor, a: Action)
    requires RowsOk(s, fx) && UploadsOk(s) && BodiesOk(s, fx)
    requires Extends(s, t) && Enabled(s, a) && t == Next(s, fx, a)
    ensures RowsOk(t, fx)
  {
    RowsCarry(s, t, fx);
    Untouched(s, fx, a);
    if a.InsertRow? {
      assert UploadOk(s, a.u);
      assert a.eff.Landed() ==> RowOk(t, fx, a.id);
    } else if a.ApplyEvent? {
      assert BodyOk(s, fx, BodyOf(s, a.h));
      AppliedRow(s, fx, a);
    }
  }

  lemma AppliedRow(s: Sys, fx: Extractor, a: Action)
    requires Enabled(s, a) && a.ApplyEvent?
    requires BodyOk(s, fx, BodyOf(s, a.h)) && RowOk(s, fx, BodyOf(s, a.h).event.videoId)
    ensures RowOk(Next(s, fx, a), fx, BodyOf(s, a.h).event.videoId)
  {
    var t := Next(s, fx, a);
    var e := BodyOf(s, a.h).event;
    if e.FailedEvent? {
      var k :| 0 <= k < |s.published| && s.published[k].event == e;
      assert t.published[k].event.FailedEvent?;
    }
  }

  // ----- archives ----------------------------------------------------------------------------

  lemma ZipsKept(s: Sys, t: Sys, fx: Extractor, a: Action)
    requires ZipsOk(s, fx) && BodiesOk(s, fx) && HandlersOk(s, fx)
    requires Extends(s, t) && Enabled(s, a) && t == Next(s, fx, a)
    ensures ZipsOk(t, fx)
  {
    Untouched(s, fx, a);
    if a.PutZip? {
      assert HandlerOk(s, fx, a.h);
      assert BodyOk(s, fx, BodyOf(s, a.h));
      KnownStable(s, t, JobOf(s, a.h).videoId);
    }
    forall id | ZipKey(id) in t.objects ensures ZipStored(t, fx, id) {
      if ZipKey(id) in s.objects { ZipStable(s, t, fx, id); }
    }
  }

  // ----- message bodies ------------------------------------------------------------------------

  lemma BodiesCarry(s: Sys, t: Sys, fx: Extractor)
    requires BodiesOk(s, fx) && Extends(s, t)
    ensures forall m :: 0 <= m < |s.msgs| ==> BodyOk(t, fx, t.msgs[m].body)
  {
    forall m | 0 <= m < |s.msgs| ensures BodyOk(t, fx, t.msgs[m].body) {
      BodyStable(s, t, fx, s.msgs[m].body);
    }
  }

  lemma BodiesKept(s: Sys, t: Sys, fx: Extractor, a: Action)
    requires BodiesOk(s, fx) && UploadsOk(s) && HandlersOk(s, fx)
    requires Extends(s, t) && Enabled(s, a) && t == Next(s, fx, a)
    ensures BodiesOk(t, fx)
  {
    BodiesCarry(s, t, fx);
    if a.Publishes() {
      NewEvent(s, t, fx, a);
      CopiesOk(s, t, fx, a);
    } else if a.PublishJob? {
      assert UploadOk(s, a.u);
      TouchedUpload(s, fx, a);
      NewJob(s, fx, a);
    } else {
      NoNewBodies(s, fx, a);
    }
  }

  lemma NoNewBodies(s: Sys, fx: Extractor, a: Action)
    requires Enabled(s, a) && !a.Publishes() && !a.PublishJob?
    ensures forall m :: |s.msgs| <= m < |Next(s, fx, a).msgs| ==> Next(s, fx, a).msgs[m].body.Undecodable?
  {
  }

  lemma NewJob(s: Sys, fx: Extractor, a: Action)
    requires Enabled(s, a) && a.PublishJob? && UploadOk(s, a.u)
    ensures var t := Next(s, fx, a); forall m :: |s.msgs| <= m < |t.msgs| ==> BodyOk(t, fx, t.msgs[m].body)
  {
  }

  lemma CopiesOk(s: Sys, t: Sys, fx: Extractor, a: Action)
    requires Enabled(s, a) && a.Publishes() && t == Next(s, fx, a)
    requires EventOk(t, fx, EventBy(s, a)) && (a.eff.Landed() ==> WasPublished(t, EventBy(s, a)))
    ensures forall m :: |s.msgs| <= m < |t.msgs| ==> BodyOk(t, fx, t.msgs[m].body)
  {
    assert t.msgs == Emit(s, a.h, EventBy(s, a), a.eff).msgs;
  }

  /** What a worker publishes is true of the video it is working on. */
  lemma NewEvent(s: Sys, t: Sys, fx: Extractor, a: Action)
    requires Enabled(s, a) && a.Publishes() && Extends(s, t) && t == Next(s, fx, a)
    requires HandlersOk(s, fx) && BodiesOk(s, fx)
    ensures EventOk(t, fx, EventBy(s, a))
    ensures a.eff.Landed() ==> WasPublished(t, EventBy(s, a))
  {
    assert HandlerOk(s, fx, a.h);
    assert BodyOk(s, fx, BodyOf(s, a.h));
    EventStable(s, t, fx, EventBy(s, a));
    if a.eff.Landed() { assert t.published[|s.published|].event == EventBy(s, a); }
  }

  // ----- settlement -------------------------------------------------------------------------------

  lemma PlaceCarries(s: Sys, t: Sys, m: nat)
    requires m < |s.msgs| && PlaceOk(s, m) && Extends(s, t) && t.msgs[m] == s.msgs[m]
    requires s.msgs[m].place.Held? ==> !t.handlers[s.msgs[m].place.holder].pc.Finished?
    ensures PlaceOk(t, m)
  {
    if s.msgs[m].place == Acked { DischargeStable(s, t, m); }
  }

  /** The only handler a step can finish is the one that settles. */
  lemma OnlySettleFinishes(s: Sys, fx: Extractor, a: Action, h: nat)
    requires Enabled(s, a) && h < |s.handlers| && !s.handlers[h].pc.Finished?
    ensures Next(s, fx, a).handlers[h].pc.Finished? ==> a == Settle(h)
  {
  }

  lemma PlacesKept(s: Sys, t: Sys, fx: Extractor, a: Action)
    requires PlacesOk(s) && HandlersOk(s, fx)
    requires Extends(s, t) && Enabled(s, a) && t == Next(s, fx, a)
    ensures PlacesOk(t)
  {
    forall m | 0 <= m < |t.msgs| ensures PlaceOk(t, m) {
      if m < |s.msgs| {
        assert PlaceOk(s, m);
        if a.Settle? && s.handlers[a.h].msg == m {
          assert HandlerOk(s, fx, a.h);
          SettledPlace(s, t, fx, a);
        } else if (a.Deliver? || a.LoseConnection?) && a.m == m {
        } else {
          UntouchedPlace(s, t, fx, a, m);
        }
      } else {
        NewPlace(s, fx, a, m);
      }
    }
  }

  lemma NewPlace(s: Sys, fx: Extractor, a: Action, m: nat)
    requires Enabled(s, a) && |s.msgs| <= m < |Next(s, fx, a).msgs|
    ensures PlaceOk(Next(s, fx, a), m)
  {
    Untouched(s, fx, a);
    assert a.Publishes() ==> Next(s, fx, a).msgs == s.msgs + Copies(EventBy(s, a));
  }

  lemma UntouchedPlace(s: Sys, t: Sys, fx: Extractor, a: Action, m: nat)
    requires m < |s.msgs| && PlaceOk(s, m)
    requires Extends(s, t) && Enabled(s, a) && t == Next(s, fx, a)
    requires !(a.Settle? && s.handlers[a.h].msg == m) && !((a.Deliver? || a.LoseConnection?) && a.m == m)
    ensures PlaceOk(t, m)
  {
    Untouched(s, fx, a);
    assert t.msgs[m] == s.msgs[m];
    if s.msgs[m].place.Held? { OnlySettleFinishes(s, fx, a, s.msgs[m].place.holder); }
    PlaceCarries(s, t, m);
  }

  lemma SettledPlace(s: Sys, t: Sys, fx: Extractor, a: Action)
    requires Enabled(s, a) && a.Settle? && Extends(s, t) && t == Next(s, fx, a)
    requires HandlerOk(s, fx, a.h) && PlaceOk(s, s.handlers[a.h].msg)
    ensures PlaceOk(t, s.handlers[a.h].msg)
  {
    var m := s.handlers[a.h].msg;
    if s.handlers[a.h].pc.verdict == Handled || s.msgs[m].place == Acked { DischargeStable(s, t, m); }
  }

  // ----- handlers ------------------------------------------------------------------------------------

  lemma {:induction false} TerminalsAppend(ps: seq<Publication>, p: Publication, h: nat)
    ensures Terminals(ps + [p], h) == Terminals(ps, h) + (if p.author == h && p.event.Terminal() then 1 else 0)
  {
    assert (ps + [p])[..|ps|] == ps;
  }

  /** Only a landed terminal publication by `h` changes how many terminal events `h` has published. */
  lemma CountsKept(s: Sys, fx: Extractor, a: Action, h: nat)
    requires Enabled(s, a)
    ensures Terminals(Next(s, fx, a).published, h) == Terminals(s.published, h)
            + (if (a.PublishDone? || a.PublishFailed?) && a.eff.Landed() && a.h == h then 1 else 0)
  {
    Untouched(s, fx, a);
    if a.Publishes() && a.eff.Landed() {
      TerminalsAppend(s.published, Publication(EventBy(s, a), a.h, |s.msgs|), h);
    }
  }

  lemma {:induction false} NoTerminalsBy(ps: seq<Publication>, h: nat)
    requires forall k :: 0 <= k < |ps| ==> ps[k].author != h
    ensures Terminals(ps, h) == 0
  {
    if ps == [] {
    } else {
      NoTerminalsBy(ps[..|ps| - 1], h);
    }
  }

  lemma HandlersKept(s: Sys, t: Sys, fx: Extractor, a: Action)
    requires HandlersOk(s, fx) && BodiesOk(s, fx) && RowsOk(s, fx) && PublishedOk(s, fx)
    requires Extends(s, t) && Enabled(s, a) && t == Next(s, fx, a)
    ensures HandlersOk(t, fx)
  {
    hide Next, Extends, BodiesOk, RowsOk, PublishedOk;
    forall h | 0 <= h < |t.handlers| ensures HandlerOk(t, fx, h) {
      HandlerKept(s, t, fx, a, h);
    }
  }

  lemma HandlerKept(s: Sys, t: Sys, fx: Extractor, a: Action, h: nat)
    requires HandlersOk(s, fx) && BodiesOk(s, fx) && RowsOk(s, fx) && PublishedOk(s, fx)
    requires Extends(s, t) && Enabled(s, a) && t == Next(s, fx, a) && h < |t.handlers|
    ensures HandlerOk(t, fx, h)
  {
    hide Next, Extends;
    if h >= |s.handlers| { FirstCount(s, fx); StartedHandler(s, fx, a); }
    else if (a.OfWorker() || a.OfConsumer()) && a.h == h { ActorFacts(s, fx, a); MovedHandler(s, t, fx, a); }
    else { assert HandlerOk(s, fx, h); SameHandler(s, t, fx, a, h); }
  }

  lemma FirstCount(s: Sys, fx: Extractor)
    requires PublishedOk(s, fx)
    ensures Terminals(s.published, |s.handlers|) == 0
  {
    assert forall k :: 0 <= k < |s.published| ==> PublicationOk(s, fx, k) && s.published[k].author != |s.handlers|;
    NoTerminalsBy(s.published, |s.handlers|);
  }

  /** What the invariant says about the handler an action moves. */
  lemma ActorFacts(s: Sys, fx: Extractor, a: Action)
    requires HandlersOk(s, fx) && BodiesOk(s, fx) && RowsOk(s, fx)
    requires Enabled(s, a) && (a.OfWorker() || a.OfConsumer())
    ensures ActorOk(s, fx, a)
  {
    assert HandlerOk(s, fx, a.h);
    assert BodyOk(s, fx, BodyOf(s, a.h));
    if a.ApplyEvent? { assert RowOk(s, fx, BodyOf(s, a.h).event.videoId); }
    if a.OfWorker() { assert RowOk(s, fx, JobOf(s, a.h).videoId); }
  }

  predicate ActorOk(s: Sys, fx: Extractor, a: Action)
    requires a.OfWorker() || a.OfConsumer()
  {
    && a.h < |s.handlers|
    && HandlerOk(s, fx, a.h)
    && BodyOk(s, fx, BodyOf(s, a.h))
    && (a.ApplyEvent? ==> BodyOf(s, a.h).StatusMsg?
                          && BodyOf(s, a.h).event.videoId in s.rows
                          && RowOk(s, fx, BodyOf(s, a.h).event.videoId))
    && (a.OfWorker() ==> BodyOf(s, a.h).JobMsg?
                         && JobOf(s, a.h).videoId in s.rows
                         && RowOk(s, fx, JobOf(s, a.h).videoId))
  }

  lemma MovedHandler(s: Sys, t: Sys, fx: Extractor, a: Action)
    requires a.OfWorker() || a.OfConsumer()
    requires Extends(s, t) && Enabled(s, a) && t == Next(s, fx, a) && ActorOk(s, fx, a)
    ensures HandlerOk(t, fx, a.h)
  {
    if a.OfConsumer() { MovedConsumer(s, t, fx, a); }
    else if a.Publishes() { MovedPublisher(s, t, fx, a); }
    else { MovedWorker(s, t, fx, a); }
  }

  lemma MovedConsumer(s: Sys, t: Sys, fx: Extractor, a: Action)
    requires Extends(s, t) && Enabled(s, a) && t == Next(s, fx, a) && a.OfConsumer() && ActorOk(s, fx, a)
    ensures HandlerOk(t, fx, a.h)
  {
    if a.ApplyEvent? { MovedApplier(s, t, fx, a); }
    else if a.SendMail? { MovedMailer(s, t, fx, a); }
    else { MovedSettler(s, t, fx, a); }
  }

  lemma MovedPublisher(s: Sys, t: Sys, fx: Extractor, a: Action)
    requires Extends(s, t) && Enabled(s, a) && t == Next(s, fx, a) && a.Publishes() && HandlerOk(s, fx, a.h)
    ensures HandlerOk(t, fx, a.h)
  {
    if a.PublishProcessing? { MovedAnnouncer(s, t, fx, a); } else { MovedReporter(s, t, fx, a); }
  }

  lemma StartedHandler(s: Sys, fx: Extractor, a: Action)
    requires Enabled(s, a) && |Next(s, fx, a).handlers| > |s.handlers| && Terminals(s.published, |s.handlers|) == 0
    ensures HandlerOk(Next(s, fx, a), fx, |s.handlers|) && |Next(s, fx, a).handlers| == |s.handlers| + 1
  {
    Untouched(s, fx, a);
    assert a.Deliver?;
  }

  lemma OtherHandlerUntouched(s: Sys, fx: Extractor, a: Action, h: nat)
    requires Enabled(s, a) && h < |s.handlers| && (a.OfWorker() || a.OfConsumer() ==> a.h != h)
    ensures h < |Next(s, fx, a).handlers| && Next(s, fx, a).handlers[h] == s.handlers[h]
  {
  }

  lemma SameHandler(s: Sys, t: Sys, fx: Extractor, a: Action, h: nat)
    requires h < |s.handlers| && HandlerOk(s, fx, h)
    requires Extends(s, t) && Enabled(s, a) && t == Next(s, fx, a)
    requires !((a.OfWorker() || a.OfConsumer()) && a.h == h)
    ensures HandlerOk(t, fx, h)
  {
    hide Next;
    CountsKept(s, fx, a, h);
    OtherHandlerUntouched(s, fx, a, h);
    PcStable(s, t, fx, s.handlers[h].msg, s.handlers[h].pc);
    assert t.msgs[s.handlers[h].msg].body == s.msgs[s.handlers[h].msg].body;
  }

  lemma MovedApplier(s: Sys, t: Sys, fx: Extractor, a: Action)
    requires Enabled(s, a) && a.ApplyEvent? && Extends(s, t) && t == Next(s, fx, a)
    requires ActorOk(s, fx, a)
    ensures HandlerOk(t, fx, a.h)
  {
    var m := s.handlers[a.h].msg;
    assert t.msgs[m].body == s.msgs[m].body;
  }

  lemma MovedMailer(s: Sys, t: Sys, fx: Extractor, a: Action)
    requires Enabled(s, a) && a.SendMail? && Extends(s, t) && t == Next(s, fx, a)
    requires HandlerOk(s, fx, a.h)
    ensures HandlerOk(t, fx, a.h)
  {
    var m := s.handlers[a.h].msg;
    assert t.msgs[m].body == s.msgs[m].body;
    if a.eff.Landed() { assert t.mails[|s.mails|].msg == m; }
  }

  lemma MovedSettler(s: Sys, t: Sys, fx: Extractor, a: Action)
    requires Enabled(s, a) && a.Settle? && Extends(s, t) && t == Next(s, fx, a)
    requires HandlerOk(s, fx, a.h)
    ensures HandlerOk(t, fx, a.h)
  {
    var m := s.handlers[a.h].msg;
    assert t.msgs[m].body == s.msgs[m].body;
    PcStable(s, t, fx, m, s.handlers[a.h].pc);
  }

  lemma MovedAnnouncer(s: Sys, t: Sys, fx: Extractor, a: Action)
    requires Enabled(s, a) && a.PublishProcessing? && Extends(s, t) && t == Next(s, fx, a)
    requires HandlerOk(s, fx, a.h)
    ensures HandlerOk(t, fx, a.h)
  {
    assert t.msgs[s.handlers[a.h].msg].body == s.msgs[s.handlers[a.h].msg].body;
    CountsKept(s, fx, a, a.h);
  }

  lemma MovedReporter(s: Sys, t: Sys, fx: Extractor, a: Action)
    requires Enabled(s, a) && (a.PublishDone? || a.PublishFailed?) && Extends(s, t) && t == Next(s, fx, a)
    requires HandlerOk(s, fx, a.h)
    ensures HandlerOk(t, fx, a.h)
  {
    var m := s.handlers[a.h].msg;
    assert t.msgs[m].body == s.msgs[m].body;
    CountsKept(s, fx, a, a.h);
    if a.eff.Landed() {
      assert t.published[|s.published|].event == EventBy(s, a);
      assert TerminalPublished(t, JobOf(s, a.h).videoId);
    }
  }

  lemma MovedWorker(s: Sys, t: Sys, fx: Extractor, a: Action)
    requires Enabled(s, a) && a.OfWorker() && !a.Publishes() && Extends(s, t) && t == Next(s, fx, a)
    requires HandlerOk(s, fx, a.h) && BodyOf(s, a.h).JobMsg? && BodyOk(s, fx, BodyOf(s, a.h))
    requires SourceStored(s, Origin(s, JobOf(s, a.h).videoId))
    ensures HandlerOk(t, fx, a.h)
  {
    var m := s.handlers[a.h].msg;
    assert t.msgs[m].body == s.msgs[m].body;
    KnownStable(s, t, JobOf(s, a.h).videoId);
    match a
    case MakeWorkDir(_, _) =>
    case Download(_, _) =>
    case RunExtraction(_, _) =>
    case PutZip(_, _) =>
  }

  // ----- publications and mails ---------------------------------------------------------------------

  lemma PublishedKept(s: Sys, t: Sys, fx: Extractor, a: Action)
    requires PublishedOk(s, fx) && HandlersOk(s, fx) && BodiesOk(s, fx)
    requires Extends(s, t) && Enabled(s, a) && t == Next(s, fx, a)
    ensures PublishedOk(t, fx)
  {
    forall k | 0 <= k < |s.published| ensures PublicationOk(t, fx, k) {
      PublicationStable(s, t, fx, k);
    }
    Untouched(s, fx, a);
    if a.Publishes() && a.eff.Landed() {
      NewEvent(s, t, fx, a);
      assert t.published[|s.published|] == Publication(EventBy(s, a), a.h, |s.msgs|);
      assert t.msgs[|s.msgs|].body == StatusMsg(EventBy(s, a));
      assert t.msgs[s.handlers[a.h].msg].body == BodyOf(s, a.h);
      assert PublicationOk(t, fx, |s.published|);
    }
  }

  lemma MailsKept(s: Sys, t: Sys, fx: Extractor, a: Action)
    requires MailsOk(s) && HandlersOk(s, fx)
    requires Extends(s, t) && Enabled(s, a) && t == Next(s, fx, a)
    ensures MailsOk(t)
  {
    forall k | 0 <= k < |s.mails| ensures MailOk(t, k) {
      MailStable(s, t, k);
    }
    Untouched(s, fx, a);
    if a.SendMail? { assert HandlerOk(s, fx, a.h); }
  }

  // ----- fan-out --------------------------------------------------------------------------

  lemma {:induction false} FailuresInUpdate(ms: seq<Message>, m: nat, x: Message, q: QueueName)
    requires m < |ms| && x.body == ms[m].body
    ensures FailuresIn(ms[m := x], q) == FailuresIn(ms, q)
  {
    var ns := ms[m := x];
    if m == |ms| - 1 {
      assert ns[..|ms| - 1] == ms[..|ms| - 1];
    } else {
      assert ns[..|ms| - 1] == ms[..|ms| - 1][m := x];
      FailuresInUpdate(ms[..|ms| - 1], m, x, q);
    }
  }

  function FailureIn(b: Body, q: QueueName): seq<Event> {
    if b.Queue() == q && (b.StatusMsg? || b.NoticeMsg?) && b.event.FailedEvent? then [b.event] else []
  }

  lemma FailuresInAppend(ms: seq<Message>, x: Message, q: QueueName)
    ensures FailuresIn(ms + [x], q) == FailuresIn(ms, q) + FailureIn(x.body, q)
  {
    assert (ms + [x])[..|ms|] == ms;
  }

  lemma FanOutKept(s: Sys, t: Sys, fx: Extractor, a: Action)
    requires FanOutOk(s) && Enabled(s, a) && t == Next(s, fx, a)
    ensures FanOutOk(t)
  {
    hide FailuresIn, FailuresOf;
    Untouched(s, fx, a);
    if a.Publishes() {
      EmitFansOut(s, a.h, EventBy(s, a), a.eff);
    } else if a.Inject? || (a.PublishJob? && a.eff.Landed()) {
      var x := t.msgs[|s.msgs|];
      assert t.msgs == s.msgs + [x];
      FailuresInAppend(s.msgs, x, StatusQueue);
      FailuresInAppend(s.msgs, x, NotificationsQueue);
    } else if t.msgs != s.msgs {
      var m := if a.Settle? then s.handlers[a.h].msg else a.m;
      assert t.msgs == s.msgs[m := t.msgs[m]];
      FailuresInUpdate(s.msgs, m, t.msgs[m], StatusQueue);
      FailuresInUpdate(s.msgs, m, t.msgs[m], NotificationsQueue);
    }
  }

  lemma EmitFansOut(s: Sys, h: nat, e: Event, eff: Effect)
    requires FanOutOk(s)
    ensures FanOutOk(Emit(s, h, e, eff))
  {
    if eff.Landed() {
      var t := Emit(s, h, e, eff);
      assert t.published[..|s.published|] == s.published;
      FailuresInAppend(s.msgs, Fresh(StatusMsg(e)), StatusQueue);
      FailuresInAppend(s.msgs, Fresh(StatusMsg(e)), NotificationsQueue);
      if e.FailedEvent? {
        var mid := s.msgs + [Fresh(StatusMsg(e))];
        assert t.msgs == mid + [Fresh(NoticeMsg(e))];
        FailuresInAppend(mid, Fresh(NoticeMsg(e)), StatusQueue);
        FailuresInAppend(mid, Fresh(NoticeMsg(e)), NotificationsQueue);
      }
    }
  }

  // ----- applied events -------------------------------------------------------------------

  lemma {:induction false} AboutNobody(es: seq<Event>, id: Uuid)
    requires forall i :: 0 <= i < |es| ==> es[i].videoId != id
    ensures About(es, id) == []
  {
    if es == [] {
    } else {
      AboutNobody(es[..|es| - 1], id);
    }
  }

  lemma AboutAppend(es: seq<Event>, e: Event, id: Uuid)
    ensures About(es + [e], id) == if e.videoId == id then About(es, id) + [e] else About(es, id)
  {
    assert (es + [e])[..|es|] == es;
  }

  lemma FoldAppend(row: Video, es: seq<Event>, e: Event)
    ensures Fold(row, es + [e]) == Advance(Fold(row, es), e)
  {
    assert (es + [e])[..|es|] == es;
  }

  lemma AppliedKept(s: Sys, t: Sys, fx: Extractor, a: Action)
    requires AppliedOk(s) && BodiesOk(s, fx) && Enabled(s, a) && Extends(s, t) && t == Next(s, fx, a)
    ensures AppliedOk(t)
  {
    if a.ApplyEvent? { assert BodyOk(s, fx, BodyOf(s, a.h)); }
    Untouched(s, fx, a);
    forall i | 0 <= i < |t.applied| ensures t.applied[i].videoId in t.rows && WasPublished(t, t.applied[i]) {
      PublishedStable(s, t, t.applied[i]);
    }
  }

  lemma PublishedStable(s: Sys, t: Sys, e: Event)
    requires s.published <= t.published && WasPublished(s, e)
    ensures WasPublished(t, e)
  {
    var k :| 0 <= k < |s.published| && s.published[k].event == e;
    assert t.published[k].event == e;
  }

  lemma ReplayKept(s: Sys, t: Sys, fx: Extractor, a: Action)
    requires RowsReplayed(s) && AppliedOk(s) && Enabled(s, a) && t == Next(s, fx, a)
    ensures RowsReplayed(t)
  {
    hide Fold, About, Birth, Replayed;
    Untouched(s, fx, a);
    forall id | id in t.rows ensures Replayed(t, id) {
      if id !in s.rows {
        BornReplayed(s, fx, a, id);
      } else {
        assert Replayed(s, id);
        if a.ApplyEvent? { AppliedReplayed(s, fx, a, id); } else { SameReplayed(s, fx, a, id); }
      }
    }
  }

  lemma BornReplayed(s: Sys, fx: Extractor, a: Action, id: Uuid)
    requires AppliedOk(s) && Enabled(s, a) && id !in s.rows && id in Next(s, fx, a).rows
    ensures Replayed(Next(s, fx, a), id)
  {
    Untouched(s, fx, a);
    AboutNobody(s.applied, id);
  }

  lemma SameReplayed(s: Sys, fx: Extractor, a: Action, id: Uuid)
    requires Enabled(s, a) && !a.ApplyEvent? && id in s.rows && Replayed(s, id)
    ensures id in Next(s, fx, a).rows && Replayed(Next(s, fx, a), id)
  {
    hide Fold, About, Birth;
    Untouched(s, fx, a);
  }

  lemma AppliedReplayed(s: Sys, fx: Extractor, a: Action, id: Uuid)
    requires Enabled(s, a) && a.ApplyEvent? && id in s.rows && Replayed(s, id)
    ensures id in Next(s, fx, a).rows && Replayed(Next(s, fx, a), id)
  {
    hide Fold, About, Birth;
    ApplyReplays(s.rows, s.applied, BodyOf(s, a.h).event, id);
  }

  lemma ApplyReplays(rows: Rows, applied: seq<Event>, e: Event, id: Uuid)
    requires id in rows && rows[id] == Fold(Birth(rows[id]), About(applied, id))
    ensures var now := Apply(rows, e);
            id in now && now[id] == Fold(Birth(now[id]), About(applied + [e], id))
  {
    hide Fold, About, Advance, Birth;
    AboutAppend(applied, e, id);
    if e.videoId == id {
      SameBirth(rows[id], e);
      FoldAppend(Birth(rows[id]), About(applied, id), e);
    }
  }

  lemma SameBirth(row: Video, e: Event)
    ensures Birth(Advance(row, e)) == Birth(row)
  {
  }

  // ----- all steps, all runs --------------------------------------------------------------

  lemma StepKeepsInv(s: Sys, fx: Extractor, a: Action)
    requires Inv(s, fx) && Enabled(s, a)
    ensures Inv(Next(s, fx, a), fx)
  {
    hide Next, Enabled, Extends;
    var t := Next(s, fx, a);
    StepExtends(s, fx, a);
    UploadsKept(s, t, fx, a);
    RowsKept(s, t, fx, a);
    ZipsKept(s, t, fx, a);
    BodiesKept(s, t, fx, a);
    PlacesKept(s, t, fx, a);
    HandlersKept(s, t, fx, a);
    PublishedKept(s, t, fx, a);
    MailsKept(s, t, fx, a);
    FanOutKept(s, t, fx, a);
    AppliedKept(s, t, fx, a);
    ReplayKept(s, t, fx, a);
  }

  /** Every run from a good state ends in a good state that extends it. */
  lemma {:induction false} RunKeepsInv(s: Sys, fx: Extractor, acts: seq<Action>)
    requires Inv(s, fx) && Possible(s, fx, acts)
    ensures Inv(After(s, fx, acts), fx)
    ensures Extends(s, After(s, fx, acts))
  {
    hide Next, Enabled, Inv, Extends;
    if acts == [] {
      ExtendsReflexive(s);
    } else {
      var front := acts[..|acts| - 1];
      RunKeepsInv(s, fx, front);
      var mid := After(s, fx, front);
      StepKeepsInv(mid, fx, acts[|acts| - 1]);
      StepExtends(mid, fx, acts[|acts| - 1]);
      ExtendsTransitive(s, mid, After(s, fx, acts));
    }
  }

  lemma ReachableInv(s: Sys, fx: Extractor)
    requires Reachable(s, fx)
    ensures Inv(s, fx)
  {
    hide Next, Enabled;
    var acts :| Possible(INIT, fx, acts) && After(INIT, fx, acts) == s;
    InitInv(fx);
    RunKeepsInv(INIT, fx, acts);
  }

  lemma InitInv(fx: Extractor)
    ensures Inv(INIT, fx)
  {
  }
}
