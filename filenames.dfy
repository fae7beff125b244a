/** `_sanitize_filename` of service.py: every illegal character becomes '_',
    then a name longer than 255 characters is cut, keeping its suffix. */
module Filenames {
  import opened Paths

  /** The characters replaced, in the order the replacements run. */
  const IllegalChars: string := "<>:\"/\\|?*"

  /** The longest name the sanitiser lets through. */
  const MaxLength: nat := 255

  predicate Illegal(c: char)
  {
    c == '<' || c == '>' || c == ':' || c == '"' || c == '/' || c == '\\' || c == '|' || c == '?' || c == '*'
  }

  lemma IllegalCharsListsIllegal(c: char)
    ensures c in IllegalChars <==> Illegal(c)
    ensures '_' !in IllegalChars
  {
  }

  /** `s.replace(c, r)` for one character. */
  function Replace(s: string, c: char, r: char): (t: string)
    ensures |t| == |s|
    ensures forall i :: 0 <= i < |s| ==> t[i] == if s[i] == c then r else s[i]
  {
    seq(|s|, i requires 0 <= i < |s| => if s[i] == c then r else s[i])
  }

  /** The `for char in illegal_chars` loop: one replacement by '_' per
      character of `cs`, in order. */
  function ReplaceEach(s: string, cs: string): string
    decreases |cs|
  {
    if cs == [] then s else ReplaceEach(Replace(s, cs[0], '_'), cs[1..])
  }

  /** The chain of replacements acts character by character: since '_' is
      not among `cs`, a later step never undoes an earlier one. */
  lemma {:induction false} ReplaceEachPointwise(s: string, cs: string)
    requires '_' !in cs
    ensures |ReplaceEach(s, cs)| == |s|
    ensures forall i :: 0 <= i < |s| ==> ReplaceEach(s, cs)[i] == if s[i] in cs then '_' else s[i]
    decreases |cs|
  {
    if cs != [] {
      var s' := Replace(s, cs[0], '_');
      ReplaceEachPointwise(s', cs[1..]);
      assert cs == [cs[0]] + cs[1..];
    }
  }

  /** The first step: illegal characters replaced, nothing else touched. */
  function Replaced(f: string): (r: string)
    ensures |r| == |f|
    ensures forall i :: 0 <= i < |f| ==> r[i] == if Illegal(f[i]) then '_' else f[i]
  {
    IllegalCharsListsIllegal('_');
    ReplaceEachPointwise(f, IllegalChars);
    forall i | 0 <= i < |f|
      ensures f[i] in IllegalChars <==> Illegal(f[i])
    {
      IllegalCharsListsIllegal(f[i]);
    }
    ReplaceEach(f, IllegalChars)
  }

  /** `s[:n]`. */
  function Prefix(s: string, n: nat): (r: string)
    ensures |r| == if n < |s| then n else |s|
    ensures r <= s
  {
    if n < |s| then s[..n] else s
  }

  /** The length cap, applied to a name without '/'. */
  function Cap(f: string): string
  {
    if |f| <= MaxLength then f
    else
      var ext := Suffix(f);
      var room := MaxLength - |ext|;
      if room > 0 then Prefix(Stem(f), room) + ext else Prefix(Stem(f), MaxLength)
  }

  /** `_sanitize_filename`. */
  function Sanitize(f: string): string
  {
    Cap(Replaced(f))
  }

  /** The cap only drops characters. */
  lemma CapKeepsCharacters(f: string, c: char)
    ensures c in Cap(f) ==> c in f
  {
    if |f| > MaxLength {
      var ext := Suffix(f);
      var stem := Stem(f);
      assert stem + ext == f;
      if MaxLength - |ext| > 0 {
        if c in Prefix(stem, MaxLength - |ext|) {
          assert c in stem;
        }
      } else if c in Prefix(stem, MaxLength) {
        assert c in stem;
      }
    }
  }

  /** A sanitised name contains none of the illegal characters. */
  lemma SanitizedIsLegal(f: string)
    ensures forall c :: c in Sanitize(f) ==> !Illegal(c)
  {
    forall c | c in Sanitize(f)
      ensures !Illegal(c)
    {
      CapKeepsCharacters(Replaced(f), c);
      var i :| 0 <= i < |Replaced(f)| && Replaced(f)[i] == c;
    }
  }

  /** A name within the cap keeps its length; only its illegal characters
      change. */
  lemma ShortNameKeepsLength(f: string)
    requires |f| <= MaxLength
    ensures Sanitize(f) == Replaced(f) && |Sanitize(f)| == |f|
  {
  }

  /** A longer name is cut to exactly 255 characters ending in its suffix
      when the suffix is shorter than 255; otherwise it becomes at most the
      first 255 characters of its stem. */
  lemma LongNameIsCut(f: string)
    requires |f| > MaxLength
    ensures var g := Replaced(f); var ext := Suffix(g); var r := Sanitize(f);
      && (|ext| < MaxLength ==> |r| == MaxLength && r[MaxLength - |ext|..] == ext && r[..MaxLength - |ext|] <= Stem(g))
      && (|ext| >= MaxLength ==> r == Prefix(Stem(g), MaxLength))
  {
    var g := Replaced(f);
    var ext := Suffix(g);
    assert Stem(g) + ext == g;
  }

  /** No sanitised name is longer than 255 characters. */
  lemma SanitizedIsShort(f: string)
    ensures |Sanitize(f)| <= MaxLength
  {
    var g := Replaced(f);
    if |g| > MaxLength {
      assert Stem(g) + Suffix(g) == g;
    }
  }

  /** Sanitising is idempotent. */
  lemma SanitizeIdempotent(f: string)
    ensures Sanitize(Sanitize(f)) == Sanitize(f)
  {
    var r := Sanitize(f);
    SanitizedIsShort(f);
    SanitizedIsLegal(f);
    assert Replaced(r) == r by {
      forall i | 0 <= i < |r|
        ensures Replaced(r)[i] == r[i]
      {
        assert r[i] in r;
      }
    }
  }
}
