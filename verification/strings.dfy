/** The JavaScript string operations the token extraction uses:
    `startsWith`, `indexOf`, `split(sep)[1]`, `split(c)[0]` and
    `replace(pattern, "")`, each specified by where the pattern occurs. */
module Strings {
  import opened Values

  predicate StartsWith(s: string, p: string) {
    |p| <= |s| && s[..|p|] == p
  }

  /** `p` occurs in `s` at position `i`. */
  predicate OccursAt(s: string, p: string, i: int) {
    0 <= i && i + |p| <= |s| && s[i..i + |p|] == p
  }

  /** Position of the leftmost occurrence of `p` in `s` at or after `from`
      (`s.indexOf(p, from)`, with `None` for -1). */
  function FindFrom(s: string, p: string, from: nat): (r: Option<nat>)
    decreases |s| - from
    ensures r.Some? ==> from <= r.value && OccursAt(s, p, r.value)
    ensures r.Some? ==> forall j :: from <= j < r.value ==> !OccursAt(s, p, j)
    ensures r.None? ==> forall j :: from <= j ==> !OccursAt(s, p, j)
  {
    if from + |p| > |s| then None
    else if s[from..from + |p|] == p then Some(from)
    else FindFrom(s, p, from + 1)
  }

  /** `s.indexOf(p)`. */
  function Find(s: string, p: string): Option<nat> {
    FindFrom(s, p, 0)
  }

  /** `s.split(c)[0]`: the text before the first `c`, or all of `s`. */
  function TakeUntil(s: string, c: char): (r: string)
    ensures StartsWith(s, r)
    ensures c !in r
    ensures |r| < |s| ==> s[|r|] == c
  {
    if s == [] || s[0] == c then [] else [s[0]] + TakeUntil(s[1..], c)
  }

  /** `s.split(sep)[1]` for a non-empty separator: the text between the first
      and the second occurrence of `sep` (or the end of `s`); `None` for
      `undefined`, when `sep` does not occur. */
  function SecondPiece(s: string, sep: string): (r: Option<string>)
    requires sep != ""
    ensures r.None? <==> Find(s, sep).None?
    ensures r.Some? ==>
      var start := Find(s, sep).value + |sep|;
      && start + |r.value| <= |s|
      && s[start..start + |r.value|] == r.value
      && (start + |r.value| == |s| || OccursAt(s, sep, start + |r.value|))
      && (forall j :: start <= j < start + |r.value| ==> !OccursAt(s, sep, j))
  {
    match Find(s, sep)
    case None => None
    case Some(i) =>
      var start := i + |sep|;
      match FindFrom(s, sep, start)
      case None => Some(s[start..])
      case Some(j) => Some(s[start..j])
  }

  /** `s.replace(p, "")` for a string pattern: the first occurrence of `p` is
      cut out. Putting `p` back where it was gives `s` again. */
  function RemoveFirst(s: string, p: string): (r: string)
    ensures Find(s, p).None? ==> r == s
    ensures Find(s, p).Some? ==>
      var i := Find(s, p).value;
      && |r| == |s| - |p|
      && i <= |r|
      && r[..i] + p + r[i..] == s
  {
    match Find(s, p)
    case None => s
    case Some(i) =>
      var r := s[..i] + s[i + |p|..];
      assert r[..i] == s[..i] && r[i..] == s[i + |p|..];
      assert s == s[..i] + s[i..i + |p|] + s[i + |p|..];
      r
  }
}
