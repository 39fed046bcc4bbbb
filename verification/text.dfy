/** The two string transforms of the download handler: Python's `str.strip()`
    applied to the submitted symbol, and the sanitiser that rewrites an
    exception message before it is put into the error response. */
module Text {

  /** Python's `str.isspace()` character class, which is what `str.strip()`
      with no argument removes: the C0 whitespace controls, the information
      separators U+001C to U+001F, space, NEL, no-break space, and the Unicode
      space separators and line/paragraph separators. */
  predicate IsSpace(c: char)
  {
    || ('\U{9}' <= c <= '\U{D}')
    || ('\U{1C}' <= c <= '\U{1F}')
    || c == ' '
    || c == '\U{85}'
    || c == '\U{A0}'
    || c == '\U{1680}'
    || ('\U{2000}' <= c <= '\U{200A}')
    || c == '\U{2028}'
    || c == '\U{2029}'
    || c == '\U{202F}'
    || c == '\U{205F}'
    || c == '\U{3000}'
  }

  /** Every character of `s` is whitespace (vacuously true of the empty string). */
  predicate AllSpace(s: string)
  {
    forall k :: 0 <= k < |s| ==> IsSpace(s[k])
  }

  /** Every character of `s` at a position in `[lo, hi)` is whitespace. */
  predicate SpaceBetween(s: string, lo: int, hi: int)
  {
    forall k :: lo <= k < hi && 0 <= k < |s| ==> IsSpace(s[k])
  }

  /** `s` neither starts nor ends with whitespace. */
  predicate Trimmed(s: string)
  {
    |s| > 0 ==> !IsSpace(s[0]) && !IsSpace(s[|s| - 1])
  }

  /** The left scan of `strip`: from position `i`, the first position that
      does not hold whitespace (or the end of `s`). */
  function SkipSpaceForward(s: string, i: nat): (r: nat)
    requires i <= |s|
    ensures i <= r <= |s|
    ensures SpaceBetween(s, i, r)
    ensures r < |s| ==> !IsSpace(s[r])
    decreases |s| - i
  {
    if i < |s| && IsSpace(s[i]) then SkipSpaceForward(s, i + 1) else i
  }

  /** The right scan of `strip`: moving down from `j` but not below `lo`, the
      position just after the last character that is not whitespace. */
  function SkipSpaceBackward(s: string, lo: nat, j: nat): (r: nat)
    requires lo <= j <= |s|
    ensures lo <= r <= j
    ensures SpaceBetween(s, r, j)
    ensures r > lo ==> !IsSpace(s[r - 1])
  {
    if j > lo && IsSpace(s[j - 1]) then SkipSpaceBackward(s, lo, j - 1) else j
  }

  /** Python's `s.strip()`: the result is the slice of `s` left once the
      whitespace run at each end is cut away, and it is trimmed itself. */
  function Strip(s: string): (r: string)
    ensures exists i, j :: 0 <= i <= j <= |s| && r == s[i..j] && SpaceBetween(s, 0, i) && SpaceBetween(s, j, |s|)
    ensures Trimmed(r)
  {
    var i := SkipSpaceForward(s, 0);
    var j := SkipSpaceBackward(s, i, |s|);
    assert i < j ==> s[i..j][0] == s[i];
    s[i..j]
  }

  /** A trimmed slice of `s` with only whitespace outside it is empty exactly
      when `s` is whitespace only. */
  lemma TrimmedSliceEmptyIff(s: string, r: string, i: int, j: int)
    requires 0 <= i <= j <= |s| && r == s[i..j]
    requires SpaceBetween(s, 0, i) && SpaceBetween(s, j, |s|) && Trimmed(r)
    ensures r == [] <==> AllSpace(s)
  {
    if r != [] {
      assert r[0] == s[i];
    }
  }

  /** The stripped symbol is empty exactly when the input is empty or
      whitespace only. */
  lemma StripEmptyIffAllSpace(s: string)
    ensures Strip(s) == [] <==> AllSpace(s)
  {
    var i, j :| 0 <= i <= j <= |s| && Strip(s) == s[i..j] && SpaceBetween(s, 0, i) && SpaceBetween(s, j, |s|);
    TrimmedSliceEmptyIff(s, Strip(s), i, j);
  }

  /** The stripped result is the only trimmed slice of `s` with nothing but
      whitespace outside it, so the contract of `Strip` pins it down. */
  lemma StripIsUnique(s: string, r: string, i: int, j: int)
    requires 0 <= i <= j <= |s| && r == s[i..j]
    requires SpaceBetween(s, 0, i) && SpaceBetween(s, j, |s|) && Trimmed(r)
    ensures r == Strip(s)
  {
    var i', j' :| 0 <= i' <= j' <= |s| && Strip(s) == s[i'..j'] && SpaceBetween(s, 0, i') && SpaceBetween(s, j', |s|);
    TrimmedSlicesAgree(s, r, i, j, Strip(s), i', j');
  }

  /** Two trimmed slices of `s`, each with only whitespace outside it, are equal. */
  lemma TrimmedSlicesAgree(s: string, r: string, i: int, j: int, r': string, i': int, j': int)
    requires 0 <= i <= j <= |s| && r == s[i..j]
    requires SpaceBetween(s, 0, i) && SpaceBetween(s, j, |s|) && Trimmed(r)
    requires 0 <= i' <= j' <= |s| && r' == s[i'..j']
    requires SpaceBetween(s, 0, i') && SpaceBetween(s, j', |s|) && Trimmed(r')
    ensures r == r'
  {
    TrimmedSliceEmptyIff(s, r, i, j);
    TrimmedSliceEmptyIff(s, r', i', j');
    if r != [] {
      assert r[0] == s[i] && r'[0] == s[i'];
      FirstNonSpaceIsUnique(s, i, i');
      assert r[|r| - 1] == s[j - 1] && r'[|r'| - 1] == s[j' - 1];
      LastNonSpaceIsUnique(s, j, j');
    }
  }

  /** Two positions holding no whitespace, each preceded only by whitespace,
      are the same position. */
  lemma FirstNonSpaceIsUnique(s: string, i: int, i': int)
    requires 0 <= i < |s| && 0 <= i' < |s|
    requires SpaceBetween(s, 0, i) && SpaceBetween(s, 0, i')
    requires !IsSpace(s[i]) && !IsSpace(s[i'])
    ensures i == i'
  {
  }

  /** Two positions just after a character that is not whitespace, each
      followed only by whitespace, are the same position. */
  lemma LastNonSpaceIsUnique(s: string, j: int, j': int)
    requires 0 < j <= |s| && 0 < j' <= |s|
    requires SpaceBetween(s, j, |s|) && SpaceBetween(s, j', |s|)
    requires !IsSpace(s[j - 1]) && !IsSpace(s[j' - 1])
    ensures j == j'
  {
  }

  /** Stripping leaves an already trimmed string alone. */
  lemma StripOfTrimmed(s: string)
    requires Trimmed(s)
    ensures Strip(s) == s
  {
    assert SkipSpaceForward(s, 0) == 0;
    assert SkipSpaceBackward(s, 0, |s|) == |s|;
  }

  /** Stripping twice is stripping once. */
  lemma StripIdempotent(s: string)
    ensures Strip(Strip(s)) == Strip(s)
  {
    StripOfTrimmed(Strip(s));
  }

  /** `s.replace(old, new)` for single characters: every occurrence of `from`
      becomes `to`, nothing else moves. */
  function ReplaceChar(s: string, from: char, to: char): (r: string)
    ensures |r| == |s|
    ensures forall i :: 0 <= i < |s| ==> r[i] == (if s[i] == from then to else s[i])
  {
    if |s| == 0 then [] else [if s[0] == from then to else s[0]] + ReplaceChar(s[1..], from, to)
  }

  /** The exception-message sanitiser: double quotes become single quotes,
      then line feeds become spaces. */
  function Sanitize(s: string): (r: string)
    ensures |r| == |s|
    ensures '"' !in r && '\n' !in r
    ensures forall i :: 0 <= i < |s| && s[i] == '"' ==> r[i] == '\''
    ensures forall i :: 0 <= i < |s| && s[i] == '\n' ==> r[i] == ' '
    ensures forall i :: 0 <= i < |s| && s[i] != '"' && s[i] != '\n' ==> r[i] == s[i]
  {
    ReplaceChar(ReplaceChar(s, '"', '\''), '\n', ' ')
  }

  /** Sanitising twice is sanitising once. */
  lemma SanitizeIdempotent(s: string)
    ensures Sanitize(Sanitize(s)) == Sanitize(s)
  {
    var once := Sanitize(s);
    assert forall i :: 0 <= i < |once| ==> once[i] != '"' && once[i] != '\n';
  }

  /** A message that holds no double quote and no line feed passes through unchanged. */
  lemma SanitizeKeepsCleanText(s: string)
    requires '"' !in s && '\n' !in s
    ensures Sanitize(s) == s
  {
    assert forall i :: 0 <= i < |s| ==> s[i] != '"' && s[i] != '\n';
  }
}
