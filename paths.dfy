/** The parts of `pathlib.PurePosixPath` and `str` the core relies on:
    the last path component (`.name`), its suffix and stem, and lower-casing. */
module Paths {

  /** Index of the last occurrence of `c` in `s`, or -1 (Python's `str.rfind`). */
  function RFind(s: string, c: char): (i: int)
    ensures -1 <= i < |s|
    ensures i >= 0 ==> s[i] == c
    ensures forall j :: i < j < |s| ==> s[j] != c
  {
    if |s| == 0 then -1
    else if s[|s| - 1] == c then |s| - 1
    else RFind(s[..|s| - 1], c)
  }

  /** Index of the first occurrence of `c` in `s`, or -1 (Python's `str.find`). */
  function Find(s: string, c: char): (i: int)
    ensures -1 <= i < |s|
    ensures i >= 0 ==> s[i] == c
    ensures forall j :: 0 <= j < |s| && (i < 0 || j < i) ==> s[j] != c
  {
    if |s| == 0 then -1
    else if s[0] == c then 0
    else var i := Find(s[1..], c); if i < 0 then -1 else i + 1
  }

  /** The piece between two '/' as a list of the components pathlib keeps:
      an empty piece (from "//" or an end slash) and "." are dropped. */
  function Piece(c: string): seq<string>
  {
    if c == "" || c == "." then [] else [c]
  }

  /** The components of a POSIX path read left to right: split at every
      '/', keeping the pieces `Piece` keeps. */
  function Parts(p: string): seq<string>
    decreases |p|
  {
    var j := Find(p, '/');
    if j < 0 then Piece(p) else Piece(p[..j]) + Parts(p[j + 1..])
  }

  /** `Path(p).name`: the last component of a POSIX path, "" when there is
      none (the root, "", "."). Read from the right: the piece after the
      last '/', or, when that piece is empty or ".", the name of what comes
      before the '/'. */
  function Name(p: string): (r: string)
    ensures '/' !in r && r != "."
    decreases |p|
  {
    var i := RFind(p, '/');
    var last := p[i + 1..];
    if last != "" && last != "." then last
    else if i < 0 then ""
    else Name(p[..i])
  }

  /** Splitting at one '/' splits the components. */
  lemma {:induction false} PartsAppend(a: string, b: string)
    ensures Parts(a + "/" + b) == Parts(a) + Parts(b)
    decreases |a|
  {
    var p := a + "/" + b;
    var j := Find(a, '/');
    if j < 0 {
      assert Find(p, '/') == |a| by {
        assert p[|a|] == '/';
        FindIsFirst(p, '/', |a|);
      }
      assert p[..|a|] == a && p[|a| + 1..] == b;
    } else {
      assert Find(p, '/') == j by {
        assert p[j] == '/';
        FindIsFirst(p, '/', j);
      }
      assert p[..j] == a[..j];
      assert p[j + 1..] == a[j + 1..] + "/" + b;
      PartsAppend(a[j + 1..], b);
    }
  }

  /** `Find` is the first occurrence: an occurrence at `k` with none before
      it is what `Find` returns. */
  lemma FindIsFirst(s: string, c: char, k: nat)
    requires k < |s| && s[k] == c && forall j :: 0 <= j < k ==> s[j] != c
    ensures Find(s, c) == k
  {
  }

  /** A path without '/' is a single piece. */
  lemma NoSlashParts(p: string)
    requires '/' !in p
    ensures Parts(p) == Piece(p)
  {
  }

  /** The name is the last of the path's components, "" when it has none. */
  lemma {:induction false} NameIsLastPart(p: string)
    ensures Name(p) == LastPart(Parts(p))
    decreases |p|
  {
    var i := RFind(p, '/');
    var last := p[i + 1..];
    NoSlashParts(last);
    if i < 0 {
      assert last == p;
    } else {
      var front := p[..i];
      assert p == front + "/" + last;
      PartsAppend(front, last);
      if last != "" && last != "." {
        assert Parts(p) == Parts(front) + [last];
      } else {
        assert Parts(p) == Parts(front);
        assert Name(p) == Name(front);
        NameIsLastPart(front);
      }
    }
  }

  /** A final "." component is dropped, as pathlib drops it. */
  lemma DotNameExample()
    ensures Name("cat.jpg/.") == "cat.jpg"
  {
    var p := "cat.jpg/.";
    assert p[8] == '.' && p[7] == '/';
    assert RFind(p, '/') == 7;
    assert p[..7] == "cat.jpg";
    assert '/' !in "cat.jpg";
    assert RFind("cat.jpg", '/') == -1;
  }

  /** An end slash is dropped. */
  lemma SlashNameExample()
    ensures Name("a/b/") == "b"
  {
    var p := "a/b/";
    assert RFind(p, '/') == 3;
    assert p[..3] == "a/b";
    assert RFind("a/b", '/') == 1;
  }

  /** The last of a list of components, "" for none. */
  function LastPart(parts: seq<string>): string
  {
    if parts == [] then "" else parts[|parts| - 1]
  }

  /** True when `name` has a suffix in pathlib's sense: a '.' that is
      neither the first nor the last character. */
  predicate HasSuffix(name: string)
  {
    var i := RFind(name, '.');
    0 < i < |name| - 1
  }

  /** `Path(name).suffix` for a single component: from the last '.' on. */
  function Suffix(name: string): (r: string)
    ensures |r| <= |name| && r == name[|name| - |r|..]
    ensures r == [] <==> !HasSuffix(name)
    ensures r != [] ==> r[0] == '.' && '.' !in r[1..] && |r| < |name|
  {
    var i := RFind(name, '.');
    if 0 < i < |name| - 1 then name[i..] else []
  }

  /** `Path(name).stem` for a single component: everything before the suffix. */
  function Stem(name: string): (r: string)
    ensures r + Suffix(name) == name
  {
    var i := RFind(name, '.');
    if 0 < i < |name| - 1 then name[..i] else name
  }

  /** ASCII lower-casing of one character. */
  function LowerChar(c: char): (r: char)
    ensures 'A' <= c <= 'Z' ==> r as int == c as int + 32
    ensures !('A' <= c <= 'Z') ==> r == c
  {
    if 'A' <= c <= 'Z' then (c as int + 32) as char else c
  }

  /** `s.lower()` restricted to ASCII letters. */
  function Lower(s: string): (r: string)
    ensures |r| == |s|
    ensures forall i :: 0 <= i < |s| ==> r[i] == LowerChar(s[i])
  {
    seq(|s|, i requires 0 <= i < |s| => LowerChar(s[i]))
  }
}
