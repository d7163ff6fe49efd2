/** The `videos` table: what each statement does to it, and what a stream of
    lifecycle events amounts to whatever order it arrives in. */
module VideoTable {
  import opened Domain

  type Rows = map<Uuid, Video>

  // ----- one statement -----------------------------------------------------

  function NewRow(user: Uuid, name: string, key: Key, now: nat): Video {
    Video(user, name, key, Pending, NoKey, 0, NoReason, now)
  }

  /** The effect of one applied event on the row it names. */
  function Advance(row: Video, e: Event): Video {
    match e
    case ProcessingEvent(_) => if row.status == Pending then row.(status := Processing) else row
    case DoneEvent(_, key, n) => row.(status := Done, zipKey := key, frameCount := n, error := NoReason)
    case FailedEvent(_, _, _, _, reason) => row.(status := Failed, error := reason)
  }

  /** An UPDATE whose WHERE clause matches no row changes nothing and is not an error. */
  function Apply(rows: Rows, e: Event): Rows {
    if e.videoId in rows then rows[e.videoId := Advance(rows[e.videoId], e)] else rows
  }

  // ----- many statements ---------------------------------------------------

  function Fold(row: Video, es: seq<Event>): Video {
    if es == [] then row else Advance(Fold(row, es[..|es| - 1]), es[|es| - 1])
  }

  function FoldRows(rows: Rows, es: seq<Event>): Rows {
    if es == [] then rows else Apply(FoldRows(rows, es[..|es| - 1]), es[|es| - 1])
  }

  /** The events that name video `id`, in order. */
  function About(es: seq<Event>, id: Uuid): seq<Event> {
    if es == [] then []
    else
      var rest := About(es[..|es| - 1], id);
      if es[|es| - 1].videoId == id then rest + [es[|es| - 1]] else rest
  }

  function LastTerminal(es: seq<Event>): (last: Option<Event>)
    ensures last.Some? ==> last.value in es && last.value.Terminal()
    ensures last.None? ==> forall e :: e in es ==> !e.Terminal()
  {
    assert es != [] ==> es == es[..|es| - 1] + [es[|es| - 1]];
    if es == [] then None
    else if es[|es| - 1].Terminal() then Some(es[|es| - 1])
    else LastTerminal(es[..|es| - 1])
  }

  function LastDone(es: seq<Event>): (last: Option<Event>)
    ensures last.Some? ==> last.value in es && last.value.DoneEvent?
    ensures last.None? ==> forall e :: e in es ==> !e.DoneEvent?
  {
    assert es != [] ==> es == es[..|es| - 1] + [es[|es| - 1]];
    if es == [] then None
    else if es[|es| - 1].DoneEvent? then Some(es[|es| - 1])
    else LastDone(es[..|es| - 1])
  }

  predicate SomeProcessing(es: seq<Event>) {
    exists i :: 0 <= i < |es| && es[i].ProcessingEvent?
  }

  /** What the row ends up as, read off the list without replaying it. */
  function Summary(row: Video, es: seq<Event>): Video {
    var last := LastTerminal(es);
    var done := LastDone(es);
    row.(status := if last.Some? then (if last.value.DoneEvent? then Done else Failed)
                   else if row.status == Pending && SomeProcessing(es) then Processing
                   else row.status,
         zipKey := if done.Some? then done.value.zipKey else row.zipKey,
         frameCount := if done.Some? then done.value.frameCount else row.frameCount,
         error := if last.None? then row.error
                  else if last.value.DoneEvent? then NoReason else last.value.reason)
  }

  /** Replaying any list of events gives its summary. */
  lemma {:induction false} FoldIsSummary(row: Video, es: seq<Event>)
    ensures Fold(row, es) == Summary(row, es)
  {
    if es == [] {
    } else {
      var front, e := es[..|es| - 1], es[|es| - 1];
      FoldIsSummary(row, front);
      assert SomeProcessing(es) == (e.ProcessingEvent? || SomeProcessing(front)) by {
        if SomeProcessing(front) {
          var i :| 0 <= i < |front| && front[i].ProcessingEvent?;
          assert es[i].ProcessingEvent?;
        }
        if e.ProcessingEvent? { assert es[|es| - 1].ProcessingEvent?; }
        if SomeProcessing(es) && !e.ProcessingEvent? {
          var i :| 0 <= i < |es| && es[i].ProcessingEvent?;
          assert front[i].ProcessingEvent?;
        }
      }
    }
  }

  /** Events about other videos never touch a row. */
  lemma {:induction false} RowsFoldIndependently(rows: Rows, es: seq<Event>, id: Uuid)
    requires id in rows
    ensures FoldRows(rows, es).Keys == rows.Keys
    ensures FoldRows(rows, es)[id] == Fold(rows[id], About(es, id))
  {
    if es == [] {
    } else {
      var front, e := es[..|es| - 1], es[|es| - 1];
      RowsFoldIndependently(rows, front, id);
      if e.videoId == id {
        var mine := About(front, id) + [e];
        assert mine[..|mine| - 1] == About(front, id);
      }
    }
  }

  // ----- order ---------------------------------------------------------------

  /** Two terminal events that write the same values. */
  predicate SameWrite(a: Event, b: Event)
  {
    match (a, b)
    case (DoneEvent(_, k, n), DoneEvent(_, k', n')) => k == k' && n == n'
    case (FailedEvent(_, _, _, _, r), FailedEvent(_, _, _, _, r')) => r == r'
    case _ => false
  }

  predicate TerminalsAgree(es: seq<Event>) {
    forall i, j :: 0 <= i < |es| && 0 <= j < |es| && es[i].Terminal() && es[j].Terminal()
                   ==> SameWrite(es[i], es[j])
  }

  ghost predicate OrderBlind(row: Video, es: seq<Event>) {
    forall ps: seq<Event> :: multiset(ps) == multiset(es) ==> Fold(row, ps) == Fold(row, es)
  }

  /** Any two lists that contain the same terminal write, and no other, fold alike:
      duplicates, reordering and lost processing events make no difference. */
  lemma AgreeingListsFoldAlike(row: Video, es: seq<Event>, fs: seq<Event>, t: Event)
    requires t.Terminal() && t in es && t in fs
    requires forall e :: e in es && e.Terminal() ==> SameWrite(e, t)
    requires forall e :: e in fs && e.Terminal() ==> SameWrite(e, t)
    ensures Fold(row, es) == Fold(row, fs) == Advance(row, t)
  {
    FoldIsSummary(row, es);
    FoldIsSummary(row, fs);
  }

  /** The row is the same for every arrival order exactly when all terminal events write the same. */
  lemma OrderBlindIffTerminalsAgree(row: Video, es: seq<Event>)
    ensures OrderBlind(row, es) <==> TerminalsAgree(es)
  {
    if TerminalsAgree(es) {
      forall ps: seq<Event> | multiset(ps) == multiset(es) ensures Fold(row, ps) == Fold(row, es) {
        SameMembers(ps, es);
        FoldIsSummary(row, es);
        FoldIsSummary(row, ps);
        ProcessingOccurs(es);
        ProcessingOccurs(ps);
      }
    } else {
      var i, j :| 0 <= i < |es| && 0 <= j < |es| && es[i].Terminal() && es[j].Terminal()
                  && !SameWrite(es[i], es[j]);
      MovedLast(row, es, i);
      MovedLast(row, es, j);
      assert Fold(row, ToEnd(es, i)) != Fold(row, ToEnd(es, j));
    }
  }

  function ToEnd(es: seq<Event>, i: nat): seq<Event>
    requires i < |es|
  {
    es[..i] + es[i + 1..] + [es[i]]
  }

  lemma MovedLast(row: Video, es: seq<Event>, i: nat)
    requires i < |es|
    ensures multiset(ToEnd(es, i)) == multiset(es)
    ensures exists r :: Fold(row, ToEnd(es, i)) == Advance(r, es[i])
  {
    assert es == es[..i] + [es[i]] + es[i + 1..];
    var ps := ToEnd(es, i);
    assert ps[..|ps| - 1] == es[..i] + es[i + 1..];
    assert Fold(row, ps) == Advance(Fold(row, ps[..|ps| - 1]), es[i]);
  }

  lemma SameMembers(ps: seq<Event>, es: seq<Event>)
    requires multiset(ps) == multiset(es)
    ensures forall e :: e in ps <==> e in es
  {
    forall e ensures e in ps <==> e in es {
      assert e in ps <==> e in multiset(ps);
      assert e in es <==> e in multiset(es);
    }
  }

  lemma ProcessingOccurs(es: seq<Event>)
    ensures SomeProcessing(es) <==> exists e :: e in es && e.ProcessingEvent?
  {
    if e :| e in es && e.ProcessingEvent? {
      var i :| 0 <= i < |es| && es[i] == e;
    }
  }

  /** Events for different videos commute on the whole table. */
  lemma DifferentVideosCommute(rows: Rows, a: Event, b: Event)
    requires a.videoId != b.videoId
    ensures Apply(Apply(rows, a), b) == Apply(Apply(rows, b), a)
  {
    assert Apply(Apply(rows, a), b).Keys == rows.Keys == Apply(Apply(rows, b), a).Keys;
  }

  // ----- the repository ------------------------------------------------------

  /** A listing of one user's rows, newest first, each exactly once. */
  ghost predicate IsListing(rows: Rows, user: Uuid, ids: seq<Uuid>) {
    && (forall id :: id in ids <==> id in rows && rows[id].user == user)
    && (forall i, j :: 0 <= i < j < |ids| ==>
          ids[i] != ids[j]
          && (ids[i] in rows && ids[j] in rows ==> rows[ids[i]].createdAt >= rows[ids[j]].createdAt))
  }

  /** The rows a cursor over `ids` yields. */
  function RowsAt(rows: Rows, ids: seq<Uuid>): seq<(Uuid, Video)>
    requires forall id :: id in ids ==> id in rows
  {
    seq(|ids|, i requires 0 <= i < |ids| => (ids[i], rows[ids[i]]))
  }

  /** The gateway's store. Every method returns whether the driver reported an error. */
  class VideoRepository {
    var rows: Rows

    constructor ()
      ensures rows == map[]
    {
      rows := map[];
    }

    /** INSERT; `id` is the generated primary key and `now` the database clock. */
    method Create(id: Uuid, user: Uuid, name: string, key: Key, now: nat, eff: Effect) returns (err: bool)
      requires id !in rows
      modifies this
      ensures err <==> eff != Works
      ensures rows == if eff.Landed() then old(rows)[id := NewRow(user, name, key, now)] else old(rows)
      ensures eff.Landed() ==>
                var row := rows[id];
                && row.user == user && row.originalName == name && row.sourceKey == key && row.createdAt == now
                && row.status == Pending && row.zipKey == NoKey && row.frameCount == 0 && row.error == NoReason
    {
      if eff.Landed() {
        rows := rows[id := Video(user, name, key, Pending, NoKey, 0, NoReason, now)];
      }
      err := eff != Works;
    }

    method MarkProcessing(id: Uuid, eff: Effect) returns (err: bool)
      modifies this
      ensures err <==> eff != Works
      ensures rows == if eff.Landed() then Apply(old(rows), ProcessingEvent(id)) else old(rows)
    {
      if eff.Landed() && id in rows && rows[id].status == Pending {
        rows := rows[id := rows[id].(status := Processing)];
      }
      assert eff.Landed() && id in rows ==> rows == Apply(old(rows), ProcessingEvent(id));
      err := eff != Works;
    }

    method MarkDone(id: Uuid, zipKey: Key, frameCount: int, eff: Effect) returns (err: bool)
      modifies this
      ensures err <==> eff != Works
      ensures rows == if eff.Landed() then Apply(old(rows), DoneEvent(id, zipKey, frameCount)) else old(rows)
    {
      if eff.Landed() && id in rows {
        rows := rows[id := rows[id].(status := Done, zipKey := zipKey, frameCount := frameCount, error := NoReason)];
      }
      err := eff != Works;
    }

    /** Only the reason of a failure event reaches the table. */
    method MarkFailed(id: Uuid, reason: Reason, eff: Effect) returns (err: bool)
      modifies this
      ensures err <==> eff != Works
      ensures rows == if eff.Landed() then Apply(old(rows), FailedEvent(id, 0, "", "", reason)) else old(rows)
    {
      if eff.Landed() && id in rows {
        rows := rows[id := rows[id].(status := Failed, error := reason)];
      }
      err := eff != Works;
    }

    /** `down`: the query fails. A row that is not there (the source's ErrNotFound) is no failure. */
    method GetByID(id: Uuid, down: bool) returns (err: bool, v: Option<Video>)
      ensures err <==> down
      ensures v == if !down && id in rows then Some(rows[id]) else None
    {
      if down {
        return true, None;
      }
      if id in rows {
        return false, Some(rows[id]);
      }
      return false, None;
    }

    /** `cursor` is the query's result order (the database breaks ties between equal timestamps);
        `broken`, if any, is the position at which reading it fails. */
    method ListByUser(user: Uuid, cursor: seq<Uuid>, broken: Option<nat>)
      returns (err: bool, videos: seq<(Uuid, Video)>)
      requires IsListing(rows, user, cursor)
      ensures err <==> broken.Some? && broken.value <= |cursor|
      ensures videos == if err then [] else RowsAt(rows, cursor)
    {
      videos := [];
      var i := 0;
      while i < |cursor|
        invariant 0 <= i <= |cursor|
        invariant broken.Some? ==> i <= broken.value
        invariant videos == RowsAt(rows, cursor[..i])
      {
        if broken == Some(i) {
          return true, [];
        }
        videos := videos + [(cursor[i], rows[cursor[i]])];
        i := i + 1;
      }
      if broken == Some(|cursor|) {
        return true, [];
      }
      assert cursor[..i] == cursor;
      err := false;
    }
  }
}
