/** The .NET routines the registration handler relies on. Those whose definitions the
    model cannot see (char.IsLetter, char.IsWhiteSpace, int.TryParse,
    MailAddress.TryCreate) are carried as fields of a `Platform` value that every
    operation takes as a parameter, so nothing is assumed about them beyond `Facts`.
    string.Trim and string.IsNullOrWhiteSpace are defined here over that abstract
    whitespace predicate, as .NET documents them. StartsWith and EndsWith are the
    ordinal tests of the first and last character; the source's culture-sensitive
    string overloads are read that way. */
module Runtime {

  datatype Option<+T> = None | Some(value: T)

  datatype Result<+T, +E> = Success(value: T) | Failure(error: E)

  /** The range of C#'s `int`, which `int.TryParse` produces. */
  newtype int32 = x: int | -0x8000_0000 <= x < 0x8000_0000

  datatype Platform = Platform(
    isLetter: char -> bool,                // char.IsLetter
    isWhiteSpace: char -> bool,            // char.IsWhiteSpace: the set Trim and IsNullOrWhiteSpace use
    tryParseInt: string -> Option<int32>,  // int.TryParse with the default culture and styles
    isMailAddress: string -> bool)         // MailAddress.TryCreate

  /** The only facts about the library predicates that the model uses: a space is
      whitespace, and none of space, hyphen and apostrophe is a letter. That hyphen
      and apostrophe are not whitespace is used only by the concrete examples. */
  predicate Facts(p: Platform)
  {
    && p.isWhiteSpace(' ')
    && !p.isLetter(' ') && !p.isLetter('-') && !p.isLetter('\'')
    && !p.isWhiteSpace('-') && !p.isWhiteSpace('\'')
  }

  /** string.IsNullOrWhiteSpace on a non-null string: every character is whitespace. */
  predicate IsNullOrWhiteSpace(p: Platform, s: string)
  {
    forall i :: 0 <= i < |s| ==> p.isWhiteSpace(s[i])
  }

  /** string.IsNullOrWhiteSpace on a value that may be null (an unset environment variable). */
  predicate IsBlank(p: Platform, s: Option<string>): (r: bool)
    ensures r <==> s.None? || Trim(p, s.value) == []
  {
    s.None? || IsNullOrWhiteSpace(p, s.value)
  }

  predicate StartsWith(s: string, c: char)
  {
    |s| > 0 && s[0] == c
  }

  predicate EndsWith(s: string, c: char)
  {
    |s| > 0 && s[|s| - 1] == c
  }

  /** string.TrimStart(): the suffix left after dropping the leading whitespace. */
  function TrimStart(p: Platform, s: string): (r: string)
    ensures |r| <= |s| && r == s[|s| - |r|..]
    ensures r == [] || !p.isWhiteSpace(r[0])
    ensures forall i :: 0 <= i < |s| - |r| ==> p.isWhiteSpace(s[i])
    decreases |s|
  {
    if |s| > 0 && p.isWhiteSpace(s[0]) then TrimStart(p, s[1..]) else s
  }

  /** string.TrimEnd(): the prefix left after dropping the trailing whitespace. */
  function TrimEnd(p: Platform, s: string): (r: string)
    ensures |r| <= |s| && r == s[..|r|]
    ensures r == [] || !p.isWhiteSpace(r[|r| - 1])
    ensures forall i :: |r| <= i < |s| ==> p.isWhiteSpace(s[i])
    decreases |s|
  {
    if |s| > 0 && p.isWhiteSpace(s[|s| - 1]) then TrimEnd(p, s[..|s| - 1]) else s
  }

  /** `r` is `s` with `k` whitespace characters cut from its front and only
      whitespace cut from its back. */
  predicate CutAt(p: Platform, s: string, r: string, k: int)
  {
    && 0 <= k <= |s| - |r| && r == s[k..k + |r|]
    && (forall i :: 0 <= i < k ==> p.isWhiteSpace(s[i]))
    && (forall i :: k + |r| <= i < |s| ==> p.isWhiteSpace(s[i]))
  }

  /** string.Trim(): the input with its whitespace ends cut off. It leaves no
      whitespace at either end, turns an all-whitespace string into the empty one
      and leaves an already trimmed string alone. */
  function Trim(p: Platform, s: string): (r: string)
    ensures |r| <= |s|
    ensures exists k :: CutAt(p, s, r, k)
    ensures r == [] || (!p.isWhiteSpace(r[0]) && !p.isWhiteSpace(r[|r| - 1]))
    ensures r == [] <==> IsNullOrWhiteSpace(p, s)
    ensures s == [] || (!p.isWhiteSpace(s[0]) && !p.isWhiteSpace(s[|s| - 1])) ==> r == s
  {
    var t := TrimStart(p, s);
    var r := TrimEnd(p, t);
    assert r != [] ==> r[0] == t[0];
    var k := |s| - |t|;
    assert r == s[k..k + |r|];
    forall i | k + |r| <= i < |s| ensures p.isWhiteSpace(s[i]) {
      assert s[i] == t[i - k];
    }
    assert CutAt(p, s, r, k);
    r
  }

  /** After trimming, IsNullOrWhiteSpace says no more than "empty". */
  lemma TrimmedBlankIsEmpty(p: Platform, s: string)
    ensures IsNullOrWhiteSpace(p, Trim(p, s)) <==> Trim(p, s) == []
  {
  }

  /** Trimming twice is trimming once. */
  lemma TrimIdempotent(p: Platform, s: string)
    ensures Trim(p, Trim(p, s)) == Trim(p, s)
  {
  }

  /** A trailing whitespace character does not survive the trim. */
  lemma {:induction false} TrimDropsTrailing(p: Platform, s: string, c: char)
    requires p.isWhiteSpace(c)
    ensures Trim(p, s + [c]) == Trim(p, s)
    decreases |s|
  {
    if s == [] {
      assert TrimStart(p, [c]) == TrimStart(p, []);
    } else if p.isWhiteSpace(s[0]) {
      assert (s + [c])[1..] == s[1..] + [c];
      TrimDropsTrailing(p, s[1..], c);
    } else {
      assert TrimStart(p, s + [c]) == s + [c];
      assert (s + [c])[..|s|] == s;
      assert TrimEnd(p, s + [c]) == TrimEnd(p, s);
    }
  }

  /** A leading and a trailing whitespace character do not survive the trim. */
  lemma TrimDropsPadding(p: Platform, s: string, c: char)
    requires p.isWhiteSpace(c)
    ensures Trim(p, [c] + s + [c]) == Trim(p, s)
  {
    var padded := [c] + s + [c];
    assert Trim(p, padded) == Trim(p, s + [c]) by {
      assert padded[1..] == s + [c];
      assert TrimStart(p, padded) == TrimStart(p, s + [c]);
    }
    TrimDropsTrailing(p, s, c);
  }
}
