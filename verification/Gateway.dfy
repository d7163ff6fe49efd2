/** The gateway's request handlers over the cluster. */
module Gateway {
  import opened Domain
  import opened VideoTable
  import opened Protocol
  import opened Invariant
  import opened Cluster
  import opened FileNames

  // ----- responses ---------------------------------------------------------------------------

  datatype Form = Form(filename: string, size: int, content: Bytes, opens: bool)

  datatype Listed = Listed(id: Uuid, video: Video, url: Option<Key>)

  datatype HttpStatus = Ok | Found | AcceptedStatus | BadRequest | NotFound | Conflict | TooLarge | InternalError

  /** A signed URL given to `caller` is for an archive made from a source the same caller uploaded. */
  predicate UrlHonest(s: Sys, fx: Extractor, caller: Uuid, url: Option<Key>) {
    url.Some? ==>
      && url.value.ZipKey?
      && var id := url.value.video;
         && ZipStored(s, fx, id)
         && s.rows[id].user == caller
         && Origin(s, id).user == caller
         && SourceStored(s, Origin(s, id))
         && s.objects[url.value] == Archive(fx(Origin(s, id).content))
  }

  lemma UrlStable(s: Sys, t: Sys, fx: Extractor, caller: Uuid, url: Option<Key>)
    requires Extends(s, t) && UrlHonest(s, fx, caller, url)
    ensures UrlHonest(t, fx, caller, url)
  {
    if url.Some? {
      KnownStable(s, t, url.value.video);
      ZipStable(s, t, fx, url.value.video);
    }
  }

  /** A row read from the table tells the truth about its archive, then and later. */
  lemma RowVouchesForUrl(s: Sys, t: Sys, fx: Extractor, id: Uuid)
    requires Inv(s, fx) && Extends(s, t) && id in s.rows && s.rows[id].status == Done
    ensures UrlHonest(t, fx, s.rows[id].user, Some(s.rows[id].zipKey))
  {
    assert RowOk(s, fx, id);
    UrlStable(s, t, fx, s.rows[id].user, Some(s.rows[id].zipKey));
  }

  class Server {
    const cluster: Cluster
    const maxUploadBytes: int
    var users: map<Uuid, string>

    constructor (cluster: Cluster, maxUploadBytes: int, users: map<Uuid, string>)
      ensures this.cluster == cluster && this.maxUploadBytes == maxUploadBytes && this.users == users
    {
      this.cluster := cluster;
      this.maxUploadBytes := maxUploadBytes;
      this.users := users;
    }

    /** The owner's address; a failed lookup is not an error. */
    method OwnerEmail(user: Uuid, found: bool) returns (email: string)
      ensures found && user in users ==> email == users[user]
      ensures email != "" ==> found && user in users
    {
      email := "";
      if found && user in users { email := users[user]; }
    }

    function Address(user: Uuid, found: bool): string
      reads this
    {
      if found && user in users then users[user] else ""
    }

    /** How a valid upload was answered. 202 means: the source is stored, the row exists and agrees with
        it, and the jobs queue was sent a job that carries its id, owner, key, name and the owner's
        address as far as it could be found. 500 means the record says so too. */
    ghost predicate Answered(u: nat, user: Uuid, form: Form, found: bool, code: HttpStatus)
      requires u < |cluster.uploads|
      reads this, cluster, cluster.videos, cluster.broker, cluster.store
    {
      var up := cluster.uploads[u];
      && code in {AcceptedStatus, InternalError}
      && up.user == user && up.name == form.filename && up.content == form.content
      && up.pc == Replied(if code == AcceptedStatus then Accepted else ServerError)
      && (code == AcceptedStatus ==>
            && up.key in cluster.store.objects && cluster.store.objects[up.key] == SourceVideo(form.content)
            && up.id in cluster.videos.rows
            && cluster.videos.rows[up.id].user == user
            && cluster.videos.rows[up.id].originalName == form.filename
            && cluster.videos.rows[up.id].sourceKey == up.key
            && up.job < |cluster.broker.msgs|
            && cluster.broker.msgs[up.job].body
               == JobMsg(VideoJob(up.id, user, Address(user, found), up.key, form.filename)))
    }

    /** The name a source is stored under: the owner's, with the extension of the upload in lower case. */
    predicate StoredAs(key: Key, user: Uuid, filename: string) {
      && key.SourceKey? && key.owner == user
      && key.ext in {".mp4", ".avi", ".mov", ".mkv", ".wmv", ".flv", ".webm"}
      && EndsIn(filename, key.ext)
    }

    /** The upload's own actions, in order, up to the first that failed. */
    predicate UploadSteps(u: nat, steps: seq<Action>, put: Effect, insert: Effect, publish: Effect) {
      && steps != [] && steps[0].PutSource? && steps[0].u == u && steps[0].eff == put
      && (put != Works ==> |steps| == 1)
      && (put == Works ==> RegisterSteps(u, steps[1..], insert, publish))
    }

    predicate RegisterSteps(u: nat, steps: seq<Action>, insert: Effect, publish: Effect) {
      && steps != [] && steps[0].InsertRow? && steps[0].u == u && steps[0].eff == insert
      && (insert != Works ==> |steps| == 1)
      && (insert == Works ==> EnqueueSteps(u, steps[1..], publish))
    }

    predicate EnqueueSteps(u: nat, steps: seq<Action>, publish: Effect) {
      |steps| == 2 && steps[0].ResolveOwner? && steps[0].u == u && steps[1] == PublishJob(u, publish)
    }

    /** Accept an upload: store the source, insert the row, enqueue the job. `put`, `insert` and `publish`
        are how these go if they are reached, `found` whether the owner is; `u` is the upload's record. */
    method HandleUpload(user: Uuid, form: Option<Form>, now: nat,
                        put: Effect, insert: Effect, found: bool, publish: Effect)
      returns (code: HttpStatus, ghost u: nat, ghost steps: seq<Action>)
      requires cluster.Valid()
      modifies cluster.repr
      ensures cluster.Valid() && old(cluster.trace) <= cluster.trace
      ensures code == TooLarge <==> form.Some? && form.value.size > maxUploadBytes
      ensures code == BadRequest <==>
                form.None? || (form.value.size <= maxUploadBytes && !IsVideoName(form.value.filename))
      ensures code == AcceptedStatus <==>
                && form.Some? && form.value.size <= maxUploadBytes && IsVideoName(form.value.filename)
                && form.value.opens && put == insert == publish == Works
      ensures code in {TooLarge, BadRequest, AcceptedStatus, InternalError}
      ensures code in {TooLarge, BadRequest} || (code == InternalError && !form.value.opens)
              ==> cluster.Now() == old(cluster.Now())
      ensures code == AcceptedStatus || (code == InternalError && form.value.opens) ==>
                && u < |cluster.uploads| && Answered(u, user, form.value, found, code)
                && old(cluster.trace) + [StartUpload(user, form.value.filename, cluster.uploads[u].ext,
                                                     form.value.content)] <= cluster.trace
                && OwnOf(cluster.trace, u) == OwnOf(old(cluster.trace), u) + steps
                && UploadSteps(u, steps, put, insert, publish)
      ensures code == AcceptedStatus ==> StoredAs(cluster.uploads[u].key, user, form.value.filename)
    {
      hide After, Possible, Next, Cluster.Valid, Ext, Lower, IsVideoName, EndsIn, OwnOf, UploadSteps, Answered;
      u, steps := 0, [];
      if form.None? { return BadRequest, u, steps; }
      if form.value.size > maxUploadBytes { return TooLarge, u, steps; }

      var ext := Lower(Ext(form.value.filename));
      AllowedIffVideoName(form.value.filename);
      if ext !in ALLOWED { return BadRequest, u, steps; }
      LowerExtIffEndsIn(form.value.filename, ext);
      if !form.value.opens { return InternalError, u, steps; }

      code, u, steps := Store(user, form.value, ext, now, put, insert, found, publish);
    }

    /** Store the source of a valid upload, then register it. */
    method Store(user: Uuid, form: Form, ext: string, now: nat,
                 put: Effect, insert: Effect, found: bool, publish: Effect)
      returns (code: HttpStatus, ghost u: nat, ghost steps: seq<Action>)
      requires cluster.Valid()
      modifies cluster.repr
      ensures cluster.Valid()
      ensures old(cluster.trace) + [StartUpload(user, form.filename, ext, form.content)] <= cluster.trace
      ensures code == if put == insert == publish == Works then AcceptedStatus else InternalError
      ensures u < |cluster.uploads| && cluster.uploads[u].ext == ext && Answered(u, user, form, found, code)
      ensures OwnOf(cluster.trace, u) == OwnOf(old(cluster.trace), u) + steps
      ensures UploadSteps(u, steps, put, insert, publish)
      ensures put == Works ==> var key := cluster.uploads[u].key; key.SourceKey? && key.owner == user && key.ext == ext
    {
      hide After, Possible, Next, Cluster.Valid, OwnOf, RegisterSteps;
      u := cluster.StartUpload(user, form.filename, ext, form.content);
      OwnOfAppend(old(cluster.trace), StartUpload(user, form.filename, ext, form.content), u);
      cluster.YieldUpload(u);

      var key, err, uuid := cluster.PutSource(user, ext, form.content, put, u);
      ghost var first := [PutSource(u, uuid, put)];
      if err { return InternalError, u, first; }
      cluster.YieldUpload(u);

      ghost var more;
      code, more := Register(user, key, form, now, insert, found, publish, u);
      steps := first + more;
      assert steps[1..] == more;
    }

    /** Insert the row, then enqueue. */
    method Register(user: Uuid, key: Key, form: Form, now: nat,
                    insert: Effect, found: bool, publish: Effect, ghost u: nat)
      returns (code: HttpStatus, ghost steps: seq<Action>)
      requires cluster.Valid() && u < |cluster.uploads| && cluster.uploads[u].pc == InsertingRow
      requires var up := cluster.uploads[u];
               up.user == user && up.key == key && up.name == form.filename && up.content == form.content
      modifies cluster.repr
      ensures cluster.Valid() && old(cluster.trace) <= cluster.trace
      ensures code == if insert == publish == Works then AcceptedStatus else InternalError
      ensures u < |cluster.uploads| && Answered(u, user, form, found, code)
      ensures cluster.uploads[u].key == key && cluster.uploads[u].ext == old(cluster.uploads[u].ext)
      ensures OwnOf(cluster.trace, u) == OwnOf(old(cluster.trace), u) + steps
      ensures RegisterSteps(u, steps, insert, publish)
    {
      hide After, Possible, Next, Cluster.Valid, OwnOf, EnqueueSteps;
      var id, err := cluster.InsertRow(user, form.filename, key, now, insert, u);
      ghost var first := [InsertRow(u, id, now, insert)];
      if err { return InternalError, first; }
      cluster.YieldUpload(u);
      ghost var more;
      code, more := Enqueue(user, id, key, form, found, publish, u);
      steps := first + more;
      assert steps[1..] == more;
    }

    /** Resolve the owner's address and publish the job that carries it. */
    method Enqueue(user: Uuid, id: Uuid, key: Key, form: Form, found: bool, publish: Effect, ghost u: nat)
      returns (code: HttpStatus, ghost steps: seq<Action>)
      requires cluster.Valid() && u < |cluster.uploads| && cluster.uploads[u].pc == ResolvingOwner
      requires var up := cluster.uploads[u];
               up.user == user && up.id == id && up.key == key && up.name == form.filename && up.content == form.content
      modifies cluster.repr
      ensures cluster.Valid() && old(cluster.trace) <= cluster.trace
      ensures code == if publish == Works then AcceptedStatus else InternalError
      ensures u < |cluster.uploads| && Answered(u, user, form, found, code)
      ensures cluster.uploads[u].key == key && cluster.uploads[u].ext == old(cluster.uploads[u].ext)
      ensures OwnOf(cluster.trace, u) == OwnOf(old(cluster.trace), u) + steps && EnqueueSteps(u, steps, publish)
    {
      hide After, Possible, Next, Cluster.Valid, OwnOf;
      var email := OwnerEmail(user, found);
      cluster.ResolveOwner(u, email);
      cluster.YieldUpload(u);
      var err := cluster.PublishJob(VideoJob(id, user, email, key, form.filename), publish, u);
      steps := [ResolveOwner(u, email), PublishJob(u, publish)];
      code := if err then InternalError else AcceptedStatus;
      if !err { cluster.AcceptedFacts(u); }
    }

    /** A URL exactly for a finished video whose signature works. */
    method DownloadURL(v: Video, signs: bool) returns (url: Option<Key>)
      ensures url.Some? <==> v.status == Done && v.zipKey != NoKey && signs
      ensures url.Some? ==> url.value == v.zipKey
    {
      if v.status != Done || v.zipKey == NoKey {
        return None;
      }
      url := cluster.store.PresignGet(v.zipKey, signs);
    }

    /** All the caller's videos and no others, newest first, with a link exactly for the finished ones
        whose signature works; `signs(i)` is whether it does for the i-th. */
    method HandleList(caller: Uuid, cursor: seq<Uuid>, broken: Option<nat>, signs: nat -> bool)
      returns (code: HttpStatus, resp: seq<Listed>)
      requires cluster.Valid() && IsListing(cluster.videos.rows, caller, cursor)
      modifies cluster.repr
      ensures cluster.Valid() && old(cluster.trace) <= cluster.trace
      ensures code == if broken.Some? && broken.value <= |cursor| then InternalError else Ok
      ensures code != Ok ==> resp == []
      ensures code == Ok ==>
                var rows := old(cluster.videos.rows);
                && (forall id :: Owns(rows, caller, Some(id)) <==> exists i :: 0 <= i < |resp| && resp[i].id == id)
                && (forall i, j :: 0 <= i < j < |resp| ==>
                      resp[i].id != resp[j].id && resp[i].video.createdAt >= resp[j].video.createdAt)
                && forall i :: 0 <= i < |resp| ==>
                     && resp[i].id in rows && resp[i].video == rows[resp[i].id]
                     && (resp[i].url.Some? <==> resp[i].video.status == Done && signs(i))
                     && (resp[i].url.Some? ==> resp[i].url.value == ZipKey(resp[i].id))
                     && UrlHonest(cluster.Now(), cluster.fx, caller, resp[i].url)
    {
      hide After, Possible, Next, Inv, Extends, UrlHonest, Cluster.Valid;
      ghost var s := cluster.Now();
      cluster.Holds();
      ExtendsReflexive(s);
      var err, videos := cluster.videos.ListByUser(caller, cursor, broken);
      if err {
        return InternalError, [];
      }
      resp := [];
      var i := 0;
      while i < |videos|
        invariant 0 <= i <= |videos| == |cursor| && videos == RowsAt(s.rows, cursor)
        invariant cluster.Valid() && old(cluster.trace) <= cluster.trace && Extends(s, cluster.Now())
        invariant |resp| == i
        invariant forall j :: 0 <= j < i ==>
                    && resp[j].id == cursor[j]
                    && resp[j].video == s.rows[cursor[j]]
                    && resp[j].url == LinkTo(cursor[j], resp[j].video, signs(j))
                    && UrlHonest(cluster.Now(), cluster.fx, caller, resp[j].url)
      {
        ghost var before := cluster.Now();
        cluster.YieldAll();
        ExtendsTransitive(s, before, cluster.Now());
        StillHonest(before, caller, resp);
        var (id, v) := videos[i];
        var url := DownloadURL(v, signs(i));
        DoneHasKey(s, id);
        SignedIsHonest(s, caller, id, url);
        resp := resp + [Listed(id, v, url)];
        i := i + 1;
      }
      code := Ok;
      ListsAll(s.rows, caller, cursor, resp);
    }

    /** The link of a listed video. */
    function LinkTo(id: Uuid, v: Video, signs: bool): Option<Key> {
      if v.status == Done && signs then Some(ZipKey(id)) else None
    }

    lemma ListsAll(rows: Rows, caller: Uuid, cursor: seq<Uuid>, resp: seq<Listed>)
      requires IsListing(rows, caller, cursor) && |resp| == |cursor|
      requires forall j :: 0 <= j < |resp| ==>
                 resp[j].id == cursor[j] && cursor[j] in rows && resp[j].video == rows[cursor[j]]
      ensures forall id :: Owns(rows, caller, Some(id)) <==> exists i :: 0 <= i < |resp| && resp[i].id == id
      ensures forall i, j :: 0 <= i < j < |resp| ==>
                resp[i].id != resp[j].id && resp[i].video.createdAt >= resp[j].video.createdAt
    {
      forall id ensures Owns(rows, caller, Some(id)) <==> exists i :: 0 <= i < |resp| && resp[i].id == id {
        if id in cursor {
          var i :| 0 <= i < |cursor| && cursor[i] == id;
          assert resp[i].id == id;
        }
      }
    }

    lemma StillHonest(before: Sys, caller: Uuid, resp: seq<Listed>)
      requires Extends(before, cluster.Now())
      requires forall j :: 0 <= j < |resp| ==> UrlHonest(before, cluster.fx, caller, resp[j].url)
      ensures forall j :: 0 <= j < |resp| ==> UrlHonest(cluster.Now(), cluster.fx, caller, resp[j].url)
    {
      hide UrlHonest, Extends;
      forall j | 0 <= j < |resp| ensures UrlHonest(cluster.Now(), cluster.fx, caller, resp[j].url) {
        UrlStable(before, cluster.Now(), cluster.fx, caller, resp[j].url);
      }
    }

    /** What `DownloadURL` signs for a row of `caller` read in state `s` is honest from then on. */
    lemma SignedIsHonest(s: Sys, caller: Uuid, id: Uuid, url: Option<Key>)
      requires Inv(s, cluster.fx) && Extends(s, cluster.Now()) && id in s.rows && s.rows[id].user == caller
      requires url.Some? ==> s.rows[id].status == Done && url.value == s.rows[id].zipKey
      ensures UrlHonest(cluster.Now(), cluster.fx, caller, url)
    {
      hide Inv, Extends;
      if url.Some? { RowVouchesForUrl(s, cluster.Now(), cluster.fx, id); }
    }

    /** Load a video for its owner. `None` in the parameter is text that is no id; `down` is a failing
        store. */
    method OwnedVideo(caller: Uuid, param: Option<Uuid>, down: bool) returns (status: HttpStatus, v: Option<Video>)
      ensures status == BadRequest <==> param.None?
      ensures status == InternalError <==> param.Some? && down
      ensures status == NotFound <==>
                && param.Some? && !down
                && (param.value !in cluster.videos.rows || cluster.videos.rows[param.value].user != caller)
      ensures status == Ok <==> Owns(cluster.videos.rows, caller, param) && !down
      ensures v == if status == Ok then Some(cluster.videos.rows[param.value]) else None
    {
      if param.None? {
        return BadRequest, None;
      }
      var err, row := cluster.videos.GetByID(param.value, down);
      if err {
        return InternalError, None;
      }
      if row.None? || row.value.user != caller {
        return NotFound, None;
      }
      return Ok, row;
    }

    predicate Owns(rows: Rows, caller: Uuid, param: Option<Uuid>) {
      param.Some? && param.value in rows && rows[param.value].user == caller
    }

    /** The two tables hold the same rows of `caller`. */
    ghost predicate AgreeOn(caller: Uuid, a: Rows, b: Rows) {
      forall id :: Owns(a, caller, Some(id)) || Owns(b, caller, Some(id)) ==> id in a && id in b && a[id] == b[id]
    }

    /** Somebody else's video is indistinguishable from a missing one: where two tables agree on the
        caller's own rows, the answers are the same whatever else they hold. */
    method ForeignLooksMissing(other: Server, caller: Uuid, param: Option<Uuid>, down: bool)
      returns (a: HttpStatus, b: HttpStatus, v: Option<Video>, w: Option<Video>)
      requires AgreeOn(caller, cluster.videos.rows, other.cluster.videos.rows)
      ensures a == b && v == w
    {
      a, v := OwnedVideo(caller, param, down);
      b, w := other.OwnedVideo(caller, param, down);
      assert param.Some? ==> param == Some(param.value);
    }

    /** One video the caller owns, with a link exactly if it is finished and the signature works. */
    method HandleGet(caller: Uuid, param: Option<Uuid>, down: bool, signs: bool)
      returns (code: HttpStatus, resp: Option<Listed>)
      requires cluster.Valid()
      modifies cluster.repr
      ensures cluster.Valid() && old(cluster.trace) <= cluster.trace
      ensures code == BadRequest <==> param.None?
      ensures code == InternalError <==> param.Some? && down
      ensures code == NotFound <==> param.Some? && !down && !Owns(old(cluster.videos.rows), caller, param)
      ensures code == Ok <==> Owns(old(cluster.videos.rows), caller, param) && !down
      ensures code != Ok ==> resp.None?
      ensures code == Ok ==>
                var v := old(cluster.videos.rows)[param.value];
                && resp.Some? && resp.value.id == param.value && resp.value.video == v
                && resp.value.url == (if v.status == Done && signs then Some(ZipKey(param.value)) else None)
                && UrlHonest(cluster.Now(), cluster.fx, caller, resp.value.url)
    {
      hide After, Possible, Next, Inv, Extends, UrlHonest, Cluster.Valid;
      ghost var s := cluster.Now();
      cluster.Holds();
      var status, v := OwnedVideo(caller, param, down);
      if v.None? {
        return status, None;
      }
      DoneHasKey(s, param.value);
      cluster.YieldAll();
      var url := DownloadURL(v.value, signs);
      SignedIsHonest(s, caller, param.value, url);
      return Ok, Some(Listed(param.value, v.value, url));
    }

    /** Redirect the owner to the archive of a finished video. */
    method HandleDownload(caller: Uuid, param: Option<Uuid>, down: bool, signs: bool)
      returns (code: HttpStatus, url: Option<Key>)
      requires cluster.Valid()
      modifies cluster.repr
      ensures cluster.Valid() && old(cluster.trace) <= cluster.trace
      ensures code == BadRequest <==> param.None?
      ensures code == NotFound <==> param.Some? && !down && !Owns(old(cluster.videos.rows), caller, param)
      ensures code == Conflict <==>
                Owns(old(cluster.videos.rows), caller, param) && !down
                && old(cluster.videos.rows)[param.value].status != Done
      ensures code == Found <==>
                Owns(old(cluster.videos.rows), caller, param) && !down
                && old(cluster.videos.rows)[param.value].status == Done && signs
      ensures code in {BadRequest, NotFound, Conflict, Found, InternalError}
      ensures url == if code == Found then Some(ZipKey(param.value)) else None
      ensures UrlHonest(cluster.Now(), cluster.fx, caller, url)
    {
      hide After, Possible, Next, Inv, Extends, UrlHonest, Cluster.Valid;
      ghost var s := cluster.Now();
      cluster.Holds();
      ExtendsReflexive(s);
      var status, v := OwnedVideo(caller, param, down);
      if v.None? {
        SignedNothing(caller);
        return status, None;
      }
      DoneHasKey(s, param.value);
      if v.value.status != Done || v.value.zipKey == NoKey {
        SignedNothing(caller);
        return Conflict, None;
      }
      cluster.YieldAll();
      url := cluster.store.PresignGet(v.value.zipKey, signs);
      SignedIsHonest(s, caller, param.value, url);
      code := if url.Some? then Found else InternalError;
    }

    lemma SignedNothing(caller: Uuid)
      ensures UrlHonest(cluster.Now(), cluster.fx, caller, None)
    {
    }

    /** The second half of the download guard never fires on its own. */
    lemma DoneHasKey(s: Sys, id: Uuid)
      requires Inv(s, cluster.fx) && id in s.rows
      ensures s.rows[id].status == Done ==> s.rows[id].zipKey == ZipKey(id)
    {
      assert RowOk(s, cluster.fx, id);
    }
  }
}
