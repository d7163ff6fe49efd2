/** Building the archive of extracted frames, and the order of the frames in it. */
module FrameArchive {
  import opened Domain

  // ----- paths --------------------------------------------------------------------------------

  /** The last element of a path: trailing slashes stripped, "." if empty, "/" if nothing but slashes. */
  function Base(path: string): string {
    if path == "" then "."
    else
      var p := StripSlashes(path);
      if p == "" then "/" else LastElement(p)
  }

  function StripSlashes(path: string): string {
    if path != "" && path[|path| - 1] == '/' then StripSlashes(path[..|path| - 1]) else path
  }

  function LastElement(path: string): string {
    if path == "" || path[|path| - 1] == '/' then "" else LastElement(path[..|path| - 1]) + [path[|path| - 1]]
  }

  predicate Flat(name: string) { name != "" && '/' !in name }

  function Join(dir: string, name: string): string { dir + "/" + name }

  lemma {:induction false} LastElementOfJoin(dir: string, name: string)
    requires '/' !in name
    ensures LastElement(Join(dir, name)) == name
  {
    var path := Join(dir, name);
    if name == "" {
    } else {
      var front := name[..|name| - 1];
      assert path[..|path| - 1] == Join(dir, front);
      LastElementOfJoin(dir, front);
    }
  }

  /** A file's entry name is its name within the directory. */
  lemma BaseOfJoin(dir: string, name: string)
    requires Flat(name)
    ensures Base(Join(dir, name)) == name
  {
    var path := Join(dir, name);
    assert path[|path| - 1] == name[|name| - 1];
    LastElementOfJoin(dir, name);
  }

  // ----- the archive ----------------------------------------------------------------------------

  /** Extracting entry by entry; a repeated name overwrites. */
  function Unpack(entries: seq<Frame>): map<string, Bytes> {
    if entries == [] then map[]
    else Unpack(entries[..|entries| - 1])[entries[|entries| - 1].name := entries[|entries| - 1].image]
  }

  function EntriesOf(files: map<string, Bytes>, paths: seq<string>): seq<Frame>
    requires forall i :: 0 <= i < |paths| ==> paths[i] in files
  {
    seq(|paths|, i requires 0 <= i < |paths| => Frame(Base(paths[i]), files[paths[i]]))
  }

  /** Reading or compressing file `i` goes wrong: it is not there, or the step at `broken` fails. */
  predicate Breaks(files: map<string, Bytes>, paths: seq<string>, broken: Option<nat>, i: nat)
    requires i < |paths|
  {
    paths[i] !in files || broken == Some(i)
  }

  /** Write every file, in order, under its base name; stop at the first that goes wrong. */
  method ZipFiles(files: map<string, Bytes>, paths: seq<string>, creatable: bool, broken: Option<nat>)
    returns (err: bool, entries: seq<Frame>)
    ensures err <==> !creatable || exists i :: 0 <= i < |paths| && Breaks(files, paths, broken, i)
    ensures !err ==> (forall i :: 0 <= i < |paths| ==> paths[i] in files) && entries == EntriesOf(files, paths)
  {
    entries := [];
    if !creatable {
      return true, entries;
    }
    var i := 0;
    while i < |paths|
      invariant 0 <= i <= |paths|
      invariant forall j :: 0 <= j < i ==> paths[j] in files && !Breaks(files, paths, broken, j)
      invariant entries == EntriesOf(files, paths[..i])
    {
      if Breaks(files, paths, broken, i) {
        return true, entries;
      }
      entries := entries + [Frame(Base(paths[i]), files[paths[i]])];
      i := i + 1;
    }
    assert paths[..i] == paths;
    err := false;
  }

  // ----- fidelity -----------------------------------------------------------------------------------

  /** `names` lists directory `frames` completely, each file once. */
  ghost predicate Lists(names: seq<string>, frames: map<string, Bytes>) {
    && (forall i, j :: 0 <= i < j < |names| ==> names[i] != names[j])
    && (forall n :: n in names <==> n in frames)
    && (forall n :: n in frames ==> Flat(n))
  }

  function Paths(dir: string, names: seq<string>): seq<string> {
    seq(|names|, i requires 0 <= i < |names| => Join(dir, names[i]))
  }

  /** Every file of the directory is on disk under its path. */
  predicate OnDisk(files: map<string, Bytes>, dir: string, frames: map<string, Bytes>) {
    forall n :: n in frames ==> Join(dir, n) in files && files[Join(dir, n)] == frames[n]
  }

  lemma {:induction false} UnpackDistinct(entries: seq<Frame>)
    requires forall i, j :: 0 <= i < j < |entries| ==> entries[i].name != entries[j].name
    ensures forall n :: n in Unpack(entries) <==> exists i :: 0 <= i < |entries| && entries[i].name == n
    ensures forall i :: 0 <= i < |entries| ==> entries[i].name in Unpack(entries)
                                               && Unpack(entries)[entries[i].name] == entries[i].image
  {
    if entries == [] {
    } else {
      var front := entries[..|entries| - 1];
      UnpackDistinct(front);
      forall n ensures n in Unpack(entries) <==> exists i :: 0 <= i < |entries| && entries[i].name == n {
        if i :| 0 <= i < |front| && front[i].name == n { assert entries[i].name == n; }
        if i :| 0 <= i < |entries| && entries[i].name == n {
          assert i < |front| ==> front[i].name == n;
        }
      }
    }
  }

  /** The frames of a directory in listing order. */
  function InListingOrder(names: seq<string>, frames: map<string, Bytes>): seq<Frame>
    requires forall n :: n in names ==> n in frames
  {
    seq(|names|, i requires 0 <= i < |names| => Frame(names[i], frames[names[i]]))
  }

  lemma PathsOnDisk(files: map<string, Bytes>, dir: string, frames: map<string, Bytes>, names: seq<string>)
    requires Lists(names, frames) && OnDisk(files, dir, frames)
    ensures var paths := Paths(dir, names);
            && (forall i :: 0 <= i < |paths| ==> paths[i] in files)
            && var entries := EntriesOf(files, paths);
               |entries| == |names| && forall i :: 0 <= i < |names| ==> entries[i] == Frame(names[i], frames[names[i]])
  {
    var paths := Paths(dir, names);
    forall i | 0 <= i < |names|
      ensures paths[i] in files && Base(paths[i]) == names[i] && files[paths[i]] == frames[names[i]]
    {
      assert names[i] in frames;
      BaseOfJoin(dir, names[i]);
    }
  }

  lemma UnpackRestores(entries: seq<Frame>, frames: map<string, Bytes>, names: seq<string>)
    requires Lists(names, frames) && |entries| == |names|
    requires forall i :: 0 <= i < |names| ==> names[i] in frames && entries[i] == Frame(names[i], frames[names[i]])
    ensures Unpack(entries) == frames
  {
    UnpackDistinct(entries);
    var out := Unpack(entries);
    forall n | n in frames ensures n in out && out[n] == frames[n] {
      var i :| 0 <= i < |names| && names[i] == n;
      assert entries[i].name == n;
    }
    forall n | n in out ensures n in frames {
      var i :| 0 <= i < |entries| && entries[i].name == n;
      assert names[i] in frames;
    }
  }

  /** One entry per frame, in the order given, flat and pairwise distinct; unpacking gives back
      exactly the directory. */
  lemma ArchiveIsFaithful(files: map<string, Bytes>, dir: string, frames: map<string, Bytes>, names: seq<string>)
    requires Lists(names, frames) && OnDisk(files, dir, frames)
    ensures var paths := Paths(dir, names);
            && (forall i :: 0 <= i < |paths| ==> paths[i] in files)
            && var entries := EntriesOf(files, paths);
               && |entries| == |names|
               && (forall i :: 0 <= i < |names| ==> entries[i].name == names[i] && Flat(entries[i].name))
               && (forall i, j :: 0 <= i < j < |entries| ==> entries[i].name != entries[j].name)
               && Unpack(entries) == frames
  {
    PathsOnDisk(files, dir, frames, names);
    var entries := EntriesOf(files, Paths(dir, names));
    forall i | 0 <= i < |names| ensures names[i] in frames && entries[i] == Frame(names[i], frames[names[i]]) {
      assert names[i] in names;
    }
    UnpackRestores(entries, frames, names);
  }

  datatype Result = Result(entries: seq<Frame>, frameCount: int)

  /** Extract, refuse an empty result, archive. `frames` is what ffmpeg left in the directory and
      `listing` its names, if the command succeeded; the other parameters say which step fails. */
  method Run(files: map<string, Bytes>, workDir: string, ghost frames: map<string, Bytes>,
             listing: Option<seq<string>>, dirMade: bool, creatable: bool, broken: Option<nat>)
    returns (result: Option<Result>)
    requires listing.Some? ==> Lists(listing.value, frames) && OnDisk(files, Join(workDir, "frames"), frames)
    ensures result.Some? <==> dirMade && listing.Some? && listing.value != [] && creatable
                              && (broken.Some? ==> broken.value >= |listing.value|)
    ensures result.Some? ==>
              && result.value.frameCount == |result.value.entries| == |listing.value| > 0
              && result.value.entries == InListingOrder(listing.value, frames)
              && Unpack(result.value.entries) == frames
  {
    if !dirMade || listing.None? || |listing.value| == 0 {
      return None;
    }
    var dir := Join(workDir, "frames");
    var paths := Paths(dir, listing.value);
    ArchiveIsFaithful(files, dir, frames, listing.value);
    var err, entries := ZipFiles(files, paths, creatable, broken);
    assert broken.Some? && broken.value < |paths| ==> Breaks(files, paths, broken, broken.value);
    if err {
      return None;
    }
    PathsOnDisk(files, dir, frames, listing.value);
    result := Some(Result(entries, |listing.value|));
  }

  // ----- frame order ---------------------------------------------------------------------------------

  /** Byte-wise string order, the order of the listing. */
  predicate Less(a: string, b: string) {
    b != "" && (a == "" || a[0] < b[0] || (a[0] == b[0] && Less(a[1..], b[1..])))
  }

  function Pow10(w: nat): (p: nat)
    ensures p >= 1 && (w >= 1 ==> p >= 10)
  {
    if w == 0 then 1 else 10 * Pow10(w - 1)
  }

  function Digit(d: nat): char
    requires d < 10
  {
    '0' + (d as char)
  }

  /** The last w decimal digits of n. */
  function Digits(n: nat, w: nat): string {
    if w == 0 then "" else Digits(n / 10, w - 1) + [Digit(n % 10)]
  }

  function Width(n: nat): nat { if n < 10 then 1 else 1 + Width(n / 10) }

  /** "%0wd": zero-padded to w digits, longer if n needs more. */
  function Padded(n: nat, w: nat): string { Digits(n, if Width(n) > w then Width(n) else w) }

  function FrameName(n: nat, w: nat): string { "frame_" + Padded(n, w) + ".png" }

  lemma {:induction false} LessAfterPrefix(p: string, a: string, b: string)
    ensures Less(p + a, p + b) <==> Less(a, b)
  {
    if p == "" {
      assert p + a == a && p + b == b;
    } else {
      assert (p + a)[1..] == p[1..] + a && (p + b)[1..] == p[1..] + b;
      LessAfterPrefix(p[1..], a, b);
    }
  }

  lemma DigitOrder(a: nat, b: nat)
    requires a < 10 && b < 10
    ensures Digit(a) < Digit(b) <==> a < b
  {
  }

  lemma {:induction false} DigitsOrder(a: nat, b: nat, w: nat, s: string, t: string)
    requires a < b < Pow10(w)
    ensures Less(Digits(a, w) + s, Digits(b, w) + t)
  {
    var x, y := [Digit(a % 10)] + s, [Digit(b % 10)] + t;
    assert Digits(a, w) + s == Digits(a / 10, w - 1) + x;
    assert Digits(b, w) + t == Digits(b / 10, w - 1) + y;
    if a / 10 < b / 10 {
      DigitsOrder(a / 10, b / 10, w - 1, x, y);
    } else {
      DigitOrder(a % 10, b % 10);
      LessAfterPrefix(Digits(a / 10, w - 1), x, y);
    }
  }

  lemma {:induction false} WidthBound(n: nat, w: nat)
    requires w >= 1
    ensures Width(n) <= w <==> n < Pow10(w)
  {
    if w == 1 {
      assert Pow10(1) == 10 * Pow10(0);
    } else if n >= 10 {
      WidthBound(n / 10, w - 1);
    }
  }

  lemma {:induction false} LeadingNine(w: nat)
    requires w >= 1
    ensures Digits(Pow10(w) - 1, w) != "" && Digits(Pow10(w) - 1, w)[0] == '9'
  {
    var n := Pow10(w) - 1;
    assert n == 10 * (Pow10(w - 1) - 1) + 9;
    assert n % 10 == 9 && n / 10 == Pow10(w - 1) - 1;
    if w > 1 { LeadingNine(w - 1); } else { assert Digits(n / 10, 0) == ""; }
  }

  lemma {:induction false} LeadingOne(w: nat)
    ensures Digits(Pow10(w), w + 1) != "" && Digits(Pow10(w), w + 1)[0] == '1'
  {
    if w == 0 {
      assert Digits(1, 1) == Digits(0, 0) + [Digit(1)];
    } else {
      assert Pow10(w) / 10 == Pow10(w - 1);
      LeadingOne(w - 1);
    }
  }

  /** Listing order is frame order for the first n frames. */
  ghost predicate InFrameOrder(n: nat, w: nat) {
    forall a, b :: 1 <= a < b <= n ==> Less(FrameName(a, w), FrameName(b, w))
  }

  lemma NamesInOrder(a: nat, b: nat, w: nat)
    requires w >= 1 && a < b < Pow10(w)
    ensures Less(FrameName(a, w), FrameName(b, w))
  {
    WidthBound(a, w);
    WidthBound(b, w);
    DigitsOrder(a, b, w, ".png", ".png");
    LessAfterPrefix("frame_", Digits(a, w) + ".png", Digits(b, w) + ".png");
    assert FrameName(a, w) == "frame_" + (Digits(a, w) + ".png");
    assert FrameName(b, w) == "frame_" + (Digits(b, w) + ".png");
  }

  /** The first frame number that does not fit comes before the last that does. */
  lemma OverflowOutOfOrder(w: nat)
    requires w >= 1
    ensures !Less(FrameName(Pow10(w) - 1, w), FrameName(Pow10(w), w))
  {
    var a, b := Pow10(w) - 1, Pow10(w);
    WidthBound(a, w);
    WidthBound(b, w);
    WidthBound(b, w + 1);
    LeadingNine(w);
    LeadingOne(w);
    var x, y := Digits(a, w) + ".png", Digits(b, w + 1) + ".png";
    assert x[0] == '9' && y[0] == '1';
    LessAfterPrefix("frame_", x, y);
    assert FrameName(a, w) == "frame_" + x && FrameName(b, w) == "frame_" + y;
  }

  /** The sorted listing is in frame order exactly when every frame number fits the width. */
  lemma SortedIffNumbersFit(n: nat, w: nat)
    requires w >= 1
    ensures InFrameOrder(n, w) <==> n < Pow10(w)
  {
    if n < Pow10(w) {
      forall a, b | 1 <= a < b <= n ensures Less(FrameName(a, w), FrameName(b, w)) {
        NamesInOrder(a, b, w);
      }
    } else {
      OverflowOutOfOrder(w);
    }
  }

  /** What a name looks like. */
  lemma FortySecondFrame()
    ensures FrameName(42, 5) == "frame_00042.png"
  {
    assert Digits(0, 1) == Digits(0, 0) + "0" == "0";
    assert Digits(0, 2) == Digits(0, 1) + "0" == "00";
    assert Digits(0, 3) == Digits(0, 2) + "0" == "000";
    assert Digits(4, 4) == Digits(0, 3) + "4" == "0004";
    assert Digits(42, 5) == Digits(4, 4) + "2" == "00042";
  }

  /** The width in use holds 99999 frames. */
  lemma FiveDigitFrames(n: nat)
    ensures InFrameOrder(n, 5) <==> n <= 99999
  {
    SortedIffNumbersFit(n, 5);
    assert Pow10(3) == 1000;
    assert Pow10(5) == 100 * Pow10(3);
  }
}
