/** Which uploaded files are accepted by name. */
module FileNames {

  /** The suffix from the last dot of the last path element; empty if there is none. */
  function Ext(name: string): string {
    if name == "" || name[|name| - 1] == '/' then ""
    else if name[|name| - 1] == '.' then "."
    else
      var front := Ext(name[..|name| - 1]);
      if front == "" then "" else front + [name[|name| - 1]]
  }

  /** The extension is the longest suffix that starts at the last dot after the last slash. */
  lemma {:induction false} ExtIsLastSuffix(name: string)
    ensures var e := Ext(name);
            && |e| <= |name| && name[|name| - |e|..] == e
            && (e != "" ==> e[0] == '.' && '.' !in e[1..] && '/' !in e)
            && (e == "" ==> forall i :: 0 <= i < |name| && name[i] == '.'
                                        ==> exists j :: i < j < |name| && name[j] == '/')
  {
    if name == "" {
    } else if name[|name| - 1] == '/' {
      assert forall i :: 0 <= i < |name| && name[i] == '.' ==> i < |name| - 1;
    } else if name[|name| - 1] != '.' {
      var front := name[..|name| - 1];
      ExtIsLastSuffix(front);
      var f := Ext(front);
      if f != "" {
        assert Ext(name)[1..] == f[1..] + [name[|name| - 1]];
      } else {
        forall i | 0 <= i < |name| && name[i] == '.' ensures exists j :: i < j < |name| && name[j] == '/' {
          assert front[i] == '.';
          var j :| i < j < |front| && front[j] == '/';
          assert name[j] == '/';
        }
      }
    }
  }

  /** A suffix that starts with its only dot and holds no slash is the extension. */
  lemma SuffixIsExt(name: string, k: nat)
    requires k < |name| && name[k] == '.'
    requires forall i :: k < i < |name| ==> name[i] != '.' && name[i] != '/'
    ensures Ext(name) == name[k..]
  {
    ExtIsLastSuffix(name);
    var e := Ext(name);
    var n := |name| - |e|;
    forall j | n < j < |name| ensures name[j] != '.' {
      assert e[1..][j - n - 1] == name[n..][j - n];
    }
  }

  /** Lower case, as far as it can decide an extension: besides A to Z, only the dotted capital I
      and the Kelvin sign have an ASCII lower case. */
  function LowerChar(c: char): char {
    if 'A' <= c <= 'Z' then c - 'A' + 'a'
    else if c == '\U{130}' then 'i'
    else if c == '\U{212A}' then 'k'
    else c
  }

  function Lower(s: string): string {
    seq(|s|, i requires 0 <= i < |s| => LowerChar(s[i]))
  }

  const ALLOWED := {".mp4", ".avi", ".mov", ".mkv", ".wmv", ".flv", ".webm"}

  // ----- the same, said of the name -------------------------------------------------------------

  /** The characters that stand for `l` in either case. */
  function Spellings(l: char): set<char> {
    match l
    case 'a' => {'a', 'A'}
    case 'e' => {'e', 'E'}
    case 'b' => {'b', 'B'}
    case 'f' => {'f', 'F'}
    case 'i' => {'i', 'I', '\U{130}'}
    case 'k' => {'k', 'K', '\U{212A}'}
    case 'l' => {'l', 'L'}
    case 'm' => {'m', 'M'}
    case 'o' => {'o', 'O'}
    case 'p' => {'p', 'P'}
    case 'v' => {'v', 'V'}
    case 'w' => {'w', 'W'}
    case _ => {l}
  }

  /** `name` ends in `ext`, in any mix of cases. */
  predicate EndsIn(name: string, ext: string) {
    |ext| <= |name| && forall i :: 0 <= i < |ext| ==> name[|name| - |ext| + i] in Spellings(ext[i])
  }

  /** `name` ends in one of the seven video extensions. */
  predicate IsVideoName(name: string) {
    || EndsIn(name, ".mp4") || EndsIn(name, ".avi") || EndsIn(name, ".mov") || EndsIn(name, ".mkv")
    || EndsIn(name, ".wmv") || EndsIn(name, ".flv") || EndsIn(name, ".webm")
  }

  /** The letters, digits and dot of the extensions. */
  const LETTERS := {'.', '4', 'a', 'b', 'e', 'f', 'i', 'k', 'l', 'm', 'o', 'p', 'v', 'w'}

  lemma LowerIsSpelling(c: char, l: char)
    requires l in LETTERS
    ensures LowerChar(c) == l <==> c in Spellings(l)
  {
  }

  predicate Plain(ext: string) {
    ext != "" && ext[0] == '.' && forall i :: 1 <= i < |ext| ==> ext[i] in LETTERS && ext[i] != '.'
  }

  /** Lower-casing the extension and comparing is looking at the end of the name. */
  lemma LowerExtIffEndsIn(name: string, ext: string)
    requires Plain(ext)
    ensures Lower(Ext(name)) == ext <==> EndsIn(name, ext)
  {
    ExtIsLastSuffix(name);
    var e := Ext(name);
    if EndsIn(name, ext) {
      var k := |name| - |ext|;
      forall i | k < i < |name| ensures name[i] != '.' && name[i] != '/' {
        LowerIsSpelling(name[i], ext[i - k]);
      }
      assert name[k] in Spellings(ext[0]);
      SuffixIsExt(name, k);
      forall i | 0 <= i < |ext| ensures Lower(e)[i] == ext[i] { LowerIsSpelling(name[k + i], ext[i]); }
      assert Lower(e) == ext;
    }
    if Lower(e) == ext {
      forall i | 0 <= i < |ext| ensures name[|name| - |ext| + i] in Spellings(ext[i]) {
        assert |e| == |ext| && e[i] == name[|name| - |e| + i] && Lower(e)[i] == LowerChar(e[i]);
        LowerIsSpelling(e[i], ext[i]);
      }
    }
  }

  /** The check the gateway makes accepts exactly the names that end in a video extension. */
  lemma AllowedIffVideoName(name: string)
    ensures Lower(Ext(name)) in ALLOWED <==> IsVideoName(name)
  {
    hide Lower, Ext, EndsIn;
    LowerExtIffEndsIn(name, ".mp4");
    LowerExtIffEndsIn(name, ".avi");
    LowerExtIffEndsIn(name, ".mov");
    LowerExtIffEndsIn(name, ".mkv");
    LowerExtIffEndsIn(name, ".wmv");
    LowerExtIffEndsIn(name, ".flv");
    LowerExtIffEndsIn(name, ".webm");
  }
}
