/** The few pieces of C's <string.h> that the translator and the build driver
    rely on: substring search (strstr), last occurrence of a character
    (strrchr), and the view of a NUL-terminated buffer as a string (strlen). */
module CStrings {

  datatype Option<+T> = None | Some(value: T)

  /** `pat` occurs in `s` starting at index `i`. */
  predicate MatchAt(s: string, pat: string, i: int) {
    0 <= i && i + |pat| <= |s| && s[i..i + |pat|] == pat
  }

  /** The first occurrence of `pat` in `s` at or after index `i`. */
  function FindFrom(s: string, pat: string, i: nat): (r: Option<nat>)
    requires i <= |s|
    ensures r.Some? ==> i <= r.value && MatchAt(s, pat, r.value)
    ensures r.Some? ==> forall j :: i <= j < r.value ==> !MatchAt(s, pat, j)
    ensures r.None? ==> forall j :: i <= j ==> !MatchAt(s, pat, j)
    decreases |s| - i
  {
    if i + |pat| > |s| then None
    else if s[i..i + |pat|] == pat then Some(i)
    else FindFrom(s, pat, i + 1)
  }

  /** strstr: the index of the first occurrence of `pat` in `s`, if any. */
  function Find(s: string, pat: string): (r: Option<nat>)
    ensures r.Some? ==> MatchAt(s, pat, r.value)
    ensures r.Some? ==> forall j :: 0 <= j < r.value ==> !MatchAt(s, pat, j)
    ensures r.None? ==> forall j :: !MatchAt(s, pat, j)
  {
    FindFrom(s, pat, 0)
  }

  /** strstr(s, pat) != NULL */
  predicate Contains(s: string, pat: string) {
    Find(s, pat).Some?
  }

  /** The characters of an occurrence are those of the pattern. */
  lemma MatchAtChar(s: string, pat: string, p: nat, i: nat)
    requires MatchAt(s, pat, p) && i < |pat|
    ensures s[p + i] == pat[i]
  {
    assert s[p + i] == s[p..p + |pat|][i];
  }

  /** An occurrence that has no earlier occurrence is the one strstr finds. */
  lemma FindIsFirst(s: string, pat: string, k: nat)
    requires MatchAt(s, pat, k)
    requires forall j :: 0 <= j < k ==> !MatchAt(s, pat, j)
    ensures Find(s, pat) == Some(k)
  {
  }

  /** strrchr: the index of the last occurrence of `c` in `s`, if any. */
  function LastIndexOf(s: string, c: char): (r: Option<nat>)
    ensures r.Some? ==> r.value < |s| && s[r.value] == c
    ensures r.Some? ==> forall j :: r.value < j < |s| ==> s[j] != c
    ensures r.None? ==> forall j :: 0 <= j < |s| ==> s[j] != c
  {
    if |s| == 0 then None
    else if s[|s| - 1] == c then Some(|s| - 1)
    else LastIndexOf(s[..|s| - 1], c)
  }

  /** What C sees of a character buffer: everything before the first NUL.
      It is the longest prefix of `s` that holds no NUL. */
  function UntilNul(s: seq<char>): (r: string)
    ensures |r| <= |s| && r == s[..|r|]
    ensures '\0' !in r
    ensures |r| < |s| ==> s[|r|] == '\0'
  {
    if s == [] || s[0] == '\0' then []
    else [s[0]] + UntilNul(s[1..])
  }

  /** A NUL at `n` with none before it ends the C string there. */
  lemma UntilNulAt(s: seq<char>, n: nat)
    requires n < |s| && s[n] == '\0'
    requires forall j :: 0 <= j < n ==> s[j] != '\0'
    ensures UntilNul(s) == s[..n]
  {
  }

  /** A NUL anywhere in a text is seen as the end of the C string, also after
      one more NUL has been appended. */
  lemma UntilNulAppendNul(s: string)
    ensures UntilNul(s + ['\0']) == UntilNul(s)
  {
    var r := UntilNul(s);
    var t := s + ['\0'];
    forall j | 0 <= j < |r| ensures t[j] != '\0' {
      assert t[j] == s[j] == r[j];
    }
    assert t[|r|] == '\0';
    UntilNulAt(t, |r|);
    assert t[..|r|] == r;
  }

  /** A buffer that holds a C string: some NUL terminates it. */
  predicate IsCString(a: array<char>)
    reads a
  {
    '\0' in a[..]
  }

  /** The C string held in a buffer. */
  function CStr(a: array<char>): string
    reads a
  {
    UntilNul(a[..])
  }

  /** strlen: the index of the terminating NUL. */
  method Strlen(a: array<char>) returns (n: nat)
    requires IsCString(a)
    ensures n < a.Length && a[n] == '\0'
    ensures forall j :: 0 <= j < n ==> a[j] != '\0'
    ensures n == |CStr(a)| && CStr(a) == a[..n]
  {
    n := 0;
    while a[n] != '\0'
      invariant n < a.Length
      invariant exists k :: n <= k < a.Length && a[k] == '\0'
      invariant forall j :: 0 <= j < n ==> a[j] != '\0'
      decreases a.Length - n
    {
      n := n + 1;
    }
    UntilNulAt(a[..], n);
  }
}
