/** From the uploaded bytes to the archive a DONE row names: the pipeline's extraction is what the
    frame archive builder makes of the files ffmpeg leaves. */
module EndToEnd {
  import opened Domain
  import opened Protocol
  import opened FrameArchive
  import Guarantees

  /** What ffmpeg leaves in the frames directory for a source, if it succeeds. */
  type FrameDump = Bytes -> map<string, Bytes>

  /** A complete listing in file-name order. */
  ghost predicate SortedListing(names: seq<string>, frames: map<string, Bytes>) {
    Lists(names, frames) && forall i, j :: 0 <= i < j < |names| ==> Less(names[i], names[j])
  }

  /** `fx` archives, for every source, the sorted listing of what ffmpeg leaves. */
  ghost predicate Archives(fx: Extractor, ffmpeg: FrameDump) {
    forall source: Bytes :: exists names :: SortedListing(names, ffmpeg(source))
                                            && fx(source) == InListingOrder(names, ffmpeg(source))
  }

  lemma {:induction false} ListingCounts(names: seq<string>, files: set<string>)
    requires forall i, j :: 0 <= i < j < |names| ==> names[i] != names[j]
    requires forall n :: n in names <==> n in files
    ensures |names| == |files|
  {
    if names == [] {
      assert files == {};
    } else {
      var front, last := names[..|names| - 1], names[|names| - 1];
      assert names == front + [last];
      ListingCounts(front, files - {last});
    }
  }

  /** The archive a DONE row names unpacks to exactly the frames ffmpeg extracted from the bytes the
      owner uploaded, and the row's count is their number. */
  lemma DoneRowUnpacks(s: Sys, fx: Extractor, ffmpeg: FrameDump, id: Uuid)
    requires Reachable(s, fx) && Archives(fx, ffmpeg)
    requires id in s.rows && s.rows[id].status == Done
    ensures var row := s.rows[id];
            && row.sourceKey in s.objects && s.objects[row.sourceKey].SourceVideo?
            && row.zipKey in s.objects && s.objects[row.zipKey].Archive?
            && Unpack(s.objects[row.zipKey].frames) == ffmpeg(s.objects[row.sourceKey].content)
            && row.frameCount == |ffmpeg(s.objects[row.sourceKey].content)| > 0
  {
    Guarantees.DoneRowIsTrue(s, fx, id);
    var source := s.objects[s.rows[id].sourceKey].content;
    var frames := ffmpeg(source);
    var names :| SortedListing(names, frames) && fx(source) == InListingOrder(names, frames);
    UnpackRestores(fx(source), frames, names);
    ListingCounts(names, frames.Keys);
  }

  // ----- frame order ------------------------------------------------------------------------------

  lemma {:induction false} LessIsAsymmetric(a: string, b: string)
    requires Less(a, b)
    ensures !Less(b, a)
  {
    if a == "" || a[0] < b[0] {
    } else {
      LessIsAsymmetric(a[1..], b[1..]);
    }
  }

  ghost predicate Increasing(names: seq<string>) {
    forall i, j :: 0 <= i < j < |names| ==> Less(names[i], names[j])
  }

  lemma SameFirst(a: seq<string>, b: seq<string>)
    requires Increasing(a) && Increasing(b) && a != [] && b != []
    requires forall n :: n in a <==> n in b
    ensures a[0] == b[0]
  {
    assert a[0] in b && b[0] in a;
    var j :| 0 <= j < |b| && b[j] == a[0];
    var k :| 0 <= k < |a| && a[k] == b[0];
    if j > 0 && k > 0 { LessIsAsymmetric(b[0], b[j]); }
  }

  lemma SomethingListed(b: seq<string>)
    ensures b != [] ==> exists n :: n in b
  {
    if b != [] { assert b[0] in b; }
  }

  /** A set of names has one sorted listing. */
  lemma {:induction false} SortedIsUnique(a: seq<string>, b: seq<string>)
    requires Increasing(a) && Increasing(b)
    requires forall n :: n in a <==> n in b
    ensures a == b
  {
    if a == [] {
      SomethingListed(b);
    } else {
      assert a[0] in b;
      SameFirst(a, b);
      forall n ensures n in a[1..] <==> n in b[1..] {
        RestIsWithoutFirst(a, n);
        RestIsWithoutFirst(b, n);
      }
      SortedIsUnique(a[1..], b[1..]);
      assert a == [a[0]] + a[1..] && b == [b[0]] + b[1..];
    }
  }

  lemma RestIsWithoutFirst(a: seq<string>, n: string)
    requires Increasing(a) && a != []
    ensures n in a[1..] <==> n in a && n != a[0]
  {
    assert a == [a[0]] + a[1..];
    if n in a[1..] {
      var i :| 0 <= i < |a| - 1 && a[1..][i] == n;
      assert Less(a[0], a[i + 1]);
      if n == a[0] { LessIsAsymmetric(n, n); }
    }
  }

  /** ffmpeg numbers its frames from 1 without gaps. */
  ghost predicate Numbered(frames: map<string, Bytes>, n: nat) {
    forall name :: name in frames <==> exists k :: 1 <= k <= n && name == FrameName(k, 5)
  }

  function NumberedNames(n: nat): seq<string> { seq(n, i requires 0 <= i < n => FrameName(i + 1, 5)) }

  /** Up to 99999 frames, entry k of the archive of a DONE row is frame k + 1. */
  lemma DoneRowIsInFrameOrder(s: Sys, fx: Extractor, ffmpeg: FrameDump, id: Uuid, n: nat)
    requires Reachable(s, fx) && Archives(fx, ffmpeg)
    requires id in s.rows && s.rows[id].status == Done
    requires s.rows[id].sourceKey in s.objects && s.objects[s.rows[id].sourceKey].SourceVideo?
    requires Numbered(ffmpeg(s.objects[s.rows[id].sourceKey].content), n) && n <= 99999
    ensures var row := s.rows[id];
            && row.zipKey in s.objects && s.objects[row.zipKey].Archive?
            && var frames := s.objects[row.zipKey].frames;
               |frames| == row.frameCount == n && forall k :: 0 <= k < n ==> frames[k].name == FrameName(k + 1, 5)
  {
    Guarantees.DoneRowIsTrue(s, fx, id);
    var source := s.objects[s.rows[id].sourceKey].content;
    var frames := ffmpeg(source);
    var names :| SortedListing(names, frames) && fx(source) == InListingOrder(names, frames);
    NumberedListing(names, frames, n);
  }

  lemma NumberedListing(names: seq<string>, frames: map<string, Bytes>, n: nat)
    requires SortedListing(names, frames) && Numbered(frames, n) && n <= 99999
    ensures names == NumberedNames(n)
  {
    hide FrameName, Less;
    var all := NumberedNames(n);
    FiveDigitFrames(n);
    forall i, j | 0 <= i < j < |all| ensures Less(all[i], all[j]) {
      assert all[i] == FrameName(i + 1, 5) && all[j] == FrameName(j + 1, 5);
    }
    forall name ensures name in names <==> name in all {
      if name in all {
        var i :| 0 <= i < n && all[i] == name;
        assert name == FrameName(i + 1, 5);
      }
      if name in names {
        var k :| 1 <= k <= n && name == FrameName(k, 5);
        assert all[k - 1] == name;
      }
    }
    SortedIsUnique(names, all);
  }
}
