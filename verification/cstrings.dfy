/** The three C string routines whose results decide process discovery and
  base-address selection: `strstr` (as a containment test), `strrchr` (to
  cut a path down to its basename) and `strcasecmp` (as an equality test).
  Strings are `seq<char>`; a C string is the model string up to its end.
 */
module CStrings {
  import opened Results

  /** `p` occurs in `s` starting at index `i`. */
  ghost predicate OccursAt(s: string, p: string, i: int) {
    0 <= i && i + |p| <= |s| && s[i..i + |p|] == p
  }

  /** `strstr(s, p) != nullptr`: some occurrence of `p` lies inside `s`. */
  function Contains(s: string, p: string): (r: bool)
    ensures r <==> exists i :: OccursAt(s, p, i)
    decreases |s|
  {
    if |s| < |p| then false
    else if s[..|p|] == p then
      assert OccursAt(s, p, 0);
      true
    else
      OccursAtShift(s, p);
      Contains(s[1..], p)
  }

  /** Occurrences in the tail of `s` are the occurrences in `s` that do not start at 0. */
  lemma OccursAtShift(s: string, p: string)
    requires |s| > 0
    ensures forall i :: OccursAt(s[1..], p, i) <==> i >= 0 && OccursAt(s, p, i + 1)
    ensures forall i :: OccursAt(s, p, i) && i > 0 ==> OccursAt(s[1..], p, i - 1)
    ensures OccursAt(s, p, 0) <==> |p| <= |s| && s[..|p|] == p
  {
    forall i | 0 <= i
      ensures OccursAt(s[1..], p, i) <==> OccursAt(s, p, i + 1)
    {
      if i + 1 + |p| <= |s| {
        assert s[1..][i..i + |p|] == s[i + 1..i + 1 + |p|];
      }
    }
    forall i | OccursAt(s, p, i) && i > 0
      ensures OccursAt(s[1..], p, i - 1)
    {
      assert s[1..][i - 1..i - 1 + |p|] == s[i..i + |p|];
    }
  }

  /** A pattern whose first character never appears in `s` does not occur in it. */
  lemma AbsentFirstChar(s: string, p: string)
    requires |p| > 0 && p[0] !in s
    ensures !Contains(s, p)
  {
    forall i | OccursAt(s, p, i)
      ensures false
    {
    }
  }

  /** `strrchr(s, c)`: the index of the last occurrence of `c`, if any. */
  function LastIndexOf(s: string, c: char): (r: Option<nat>)
    ensures r.Some? ==> r.value < |s| && s[r.value] == c
    ensures r.Some? ==> forall j :: r.value < j < |s| ==> s[j] != c
    ensures r.None? <==> c !in s
  {
    if |s| == 0 then None
    else if s[|s| - 1] == c then Some(|s| - 1)
    else
      var r := LastIndexOf(s[..|s| - 1], c);
      assert forall j :: 0 <= j < |s| - 1 ==> s[..|s| - 1][j] == s[j];
      r
  }

  /** The executable name of a link target (Process.cpp:33-38): the text
      after the last `/`, or the whole path when it has none. */
  function Basename(path: string): (b: string)
    ensures '/' !in b
    ensures |b| <= |path| && b == path[|path| - |b|..]
    ensures '/' !in path ==> b == path
    ensures '/' in path ==> |b| < |path| && path[|path| - |b| - 1] == '/'
  {
    match LastIndexOf(path, '/')
    case None => path
    case Some(i) =>
      var b := path[i + 1..];
      assert forall k :: 0 <= k < |b| ==> b[k] == path[i + 1 + k];
      b
  }

  /** Joining a directory and a slash-free name and taking the basename gives the name back. */
  lemma {:induction false} BasenameOfJoin(dir: string, name: string)
    requires '/' !in name
    ensures Basename(dir + "/" + name) == name
  {
    var p := dir + "/" + name;
    var b := Basename(p);
    assert p[|dir|] == '/';
    assert p[|p| - |name|..] == name;
  }

  /** A basename is its own basename. */
  lemma BasenameIdempotent(path: string)
    ensures Basename(Basename(path)) == Basename(path)
  {
  }

  /** `tolower` in the C locale: only `A`-`Z` change. */
  function ToLower(c: char): (l: char)
    ensures 'A' <= c <= 'Z' ==> 'a' <= l <= 'z' && l as int - c as int == 32
    ensures !('A' <= c <= 'Z') ==> l == c
  {
    if 'A' <= c <= 'Z' then (c as int + 32) as char else c
  }

  /** `strcasecmp(a, b) == 0`: the strings agree character by character once
      both are folded to lower case. */
  function CaseEq(a: string, b: string): (r: bool)
    ensures r <==> |a| == |b| && forall i :: 0 <= i < |a| ==> ToLower(a[i]) == ToLower(b[i])
  {
    if |a| == 0 || |b| == 0 then |a| == |b|
    else if ToLower(a[0]) != ToLower(b[0]) then false
    else
      var r := CaseEq(a[1..], b[1..]);
      assert forall i :: 1 <= i < |a| ==> a[1..][i - 1] == a[i];
      assert forall i :: 1 <= i < |b| ==> b[1..][i - 1] == b[i];
      r
  }

  /** The whole string folded to lower case. */
  function Lower(s: string): (t: string)
    decreases |s|
  {
    if |s| == 0 then "" else [ToLower(s[0])] + Lower(s[1..])
  }

  /** Case-insensitive equality is equality of the lower-case foldings. */
  lemma {:induction false} CaseEqIsLowerEq(a: string, b: string)
    ensures CaseEq(a, b) <==> Lower(a) == Lower(b)
    decreases |a|
  {
    LowerLength(a);
    LowerLength(b);
    if |a| > 0 && |b| > 0 {
      CaseEqIsLowerEq(a[1..], b[1..]);
      assert Lower(a)[0] == ToLower(a[0]) && Lower(a)[1..] == Lower(a[1..]);
      assert Lower(b)[0] == ToLower(b[0]) && Lower(b)[1..] == Lower(b[1..]);
      if CaseEq(a, b) {
        assert CaseEq(a[1..], b[1..]);
      }
    }
  }

  lemma {:induction false} LowerLength(s: string)
    ensures |Lower(s)| == |s|
    decreases |s|
  {
    if |s| > 0 {
      LowerLength(s[1..]);
    }
  }

  /** Case-insensitive equality is an equivalence. */
  lemma CaseEqEquivalence(a: string, b: string, c: string)
    ensures CaseEq(a, a)
    ensures CaseEq(a, b) ==> CaseEq(b, a)
    ensures CaseEq(a, b) && CaseEq(b, c) ==> CaseEq(a, c)
  {
  }
}
