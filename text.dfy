/** The few Python `str` operations the agents rely on: `in`, `split`, `strip`,
    `upper`, `lower` and slicing a prefix. */
module Text {
  import opened Wrappers

  /** Python's `str.isspace()` for one character (the characters with Unicode
      bidirectional class WS, B or S, or general category Zs). */
  predicate IsSpace(c: char) {
    || c == ' '
    || ('\t' <= c <= '\r')
    || ('\U{1c}' <= c <= '\U{1f}')
    || c == '\U{85}' || c == '\U{a0}' || c == '\U{1680}'
    || ('\U{2000}' <= c <= '\U{200a}')
    || c == '\U{2028}' || c == '\U{2029}' || c == '\U{202f}' || c == '\U{205f}' || c == '\U{3000}'
  }

  /** Every character of `s` is white space. */
  predicate AllSpace(s: string) {
    forall k :: 0 <= k < |s| ==> IsSpace(s[k])
  }

  /** `s.lstrip()` */
  function StripStart(s: string): (r: string)
    ensures |r| <= |s| && r == s[|s| - |r|..] && AllSpace(s[..|s| - |r|])
    ensures r != [] ==> !IsSpace(r[0])
  {
    if s != [] && IsSpace(s[0]) then
      var r := StripStart(s[1..]);
      var n := |s| - |r|;
      assert r == s[n..] by { assert s[1..][n - 1..] == s[n..]; }
      SpacePrefixGrows(s, n);
      r
    else s
  }

  /** A white-space character before white space is white space. */
  lemma SpacePrefixGrows(s: string, n: nat)
    requires 1 <= n <= |s| && IsSpace(s[0]) && AllSpace(s[1..][..n - 1])
    ensures AllSpace(s[..n])
  {
    forall k | 0 <= k < n ensures IsSpace(s[..n][k]) {
      if k > 0 {
        assert s[..n][k] == s[1..][..n - 1][k - 1];
      }
    }
  }

  /** `s.rstrip()` */
  function StripEnd(s: string): (r: string)
    ensures |r| <= |s| && r == s[..|r|] && AllSpace(s[|r|..])
    ensures r != [] ==> !IsSpace(r[|r| - 1])
  {
    if s != [] && IsSpace(s[|s| - 1]) then
      var r := StripEnd(s[..|s| - 1]);
      assert s[|r|..] == s[..|s| - 1][|r|..] + [s[|s| - 1]];
      r
    else s
  }

  /** `s.strip()`: neither end of the result is white space. */
  function Strip(s: string): (r: string)
    ensures r != [] ==> !IsSpace(r[0]) && !IsSpace(r[|r| - 1])
  {
    StripEnd(StripStart(s))
  }

  /** What `strip` removes is white space, and what it keeps is one piece of `s`. */
  lemma StripIsInfix(s: string)
    ensures var i := |s| - |StripStart(s)|; var r := Strip(s);
            && i + |r| <= |s| && s == s[..i] + r + s[i + |r|..]
            && AllSpace(s[..i]) && AllSpace(s[i + |r|..])
  {
    var t := StripStart(s);
    var r := StripEnd(t);
    var i := |s| - |t|;
    assert r == s[i..i + |r|];
    assert s[i + |r|..] == t[|r|..];
    SliceAround(s, i, r);
  }

  lemma SliceAround(s: string, i: nat, r: string)
    requires i + |r| <= |s| && r == s[i..i + |r|]
    ensures s == s[..i] + r + s[i + |r|..]
  {
  }

  /** `pat` occurs in `s` starting at index `i`. */
  predicate OccursAt(s: string, pat: string, i: nat) {
    i + |pat| <= |s| && s[i..i + |pat|] == pat
  }

  /** `s.find(pat)` from index `from` on, as an option. */
  function FindFrom(s: string, pat: string, from: nat): (r: Option<nat>)
    requires from <= |s|
    ensures r.Some? ==> from <= r.value && OccursAt(s, pat, r.value)
    ensures r.Some? ==> forall k :: from <= k < r.value ==> !OccursAt(s, pat, k)
    ensures r.None? ==> forall k :: from <= k <= |s| ==> !OccursAt(s, pat, k)
    decreases |s| - from
  {
    if OccursAt(s, pat, from) then Some(from)
    else if from == |s| then None
    else FindFrom(s, pat, from + 1)
  }

  /** `s.find(pat)`: the first occurrence of `pat` in `s`, if any. */
  function Find(s: string, pat: string): (r: Option<nat>)
    ensures r.Some? ==> OccursAt(s, pat, r.value) && forall k :: 0 <= k < r.value ==> !OccursAt(s, pat, k)
    ensures r.None? ==> forall k :: 0 <= k <= |s| ==> !OccursAt(s, pat, k)
  {
    FindFrom(s, pat, 0)
  }

  /** Python's `pat in s`. */
  predicate Contains(s: string, pat: string) {
    Find(s, pat).Some?
  }

  /** An occurrence in `s[from..to]` is an occurrence in `s` that ends by `to`. */
  lemma OccursInSlice(s: string, pat: string, from: nat, to: nat, k: nat)
    requires from <= to <= |s|
    ensures OccursAt(s[from..to], pat, k) <==> from + k + |pat| <= to && OccursAt(s, pat, from + k)
  {
    if from + k + |pat| <= to {
      var t := s[from..to];
      var x := t[k..k + |pat|];
      var y := s[from + k..from + k + |pat|];
      forall j | 0 <= j < |pat| ensures x[j] == y[j] {
        assert x[j] == t[k + j];
      }
      assert x == y;
    }
  }

  /** The first occurrence is the one before which there is none. */
  lemma FindIs(s: string, pat: string, i: nat)
    requires OccursAt(s, pat, i) && forall k: nat :: k < i ==> !OccursAt(s, pat, k)
    ensures Find(s, pat) == Some(i)
  {
  }

  /** The first occurrence in `s[from..to]` is the first occurrence in `s` from
      `from` on, when that one ends by `to`; otherwise there is none. */
  lemma FindInSlice(s: string, pat: string, from: nat, to: nat)
    requires from <= to <= |s|
    ensures var f := FindFrom(s, pat, from);
            Find(s[from..to], pat) == if f.Some? && f.value + |pat| <= to then Some(f.value - from) else None
  {
    var t := s[from..to];
    var f := FindFrom(s, pat, from);
    if f.Some? && f.value + |pat| <= to {
      var m := f.value - from;
      OccursInSlice(s, pat, from, to, m);
      forall k: nat | k < m ensures !OccursAt(t, pat, k) {
        OccursInSlice(s, pat, from, to, k);
      }
      FindIs(t, pat, m);
    } else {
      forall k: nat | k <= |t| ensures !OccursAt(t, pat, k) {
        OccursInSlice(s, pat, from, to, k);
      }
    }
  }

  /** Where the text that follows `from` ends: at the next `pat`, or at the end. */
  function NextOr(s: string, pat: string, from: nat): (e: nat)
    requires from <= |s|
    ensures from <= e <= |s|
  {
    match FindFrom(s, pat, from)
    case Some(j) => j
    case None => |s|
  }

  /** `s.split(sep)[0]`: everything before the first `sep`, or all of `s`. */
  function SplitFirst(s: string, sep: string): (r: string)
    requires sep != []
    ensures r == s[..NextOr(s, sep, 0)]
    ensures forall k: nat :: !OccursAt(r, sep, k)
  {
    match Find(s, sep)
    case None => s
    case Some(i) =>
      var r := s[..i];
      assert forall k: nat :: OccursAt(r, sep, k) ==> OccursAt(s, sep, k) && k < i by {
        forall k: nat | OccursAt(r, sep, k) ensures OccursAt(s, sep, k) && k < i {
          assert r[k..k + |sep|] == s[k..k + |sep|];
        }
      }
      r
  }

  /** `s.split(sep)[1]`: the text between the first and the second `sep`
      (or up to the end when there is no second one). */
  function SplitSecond(s: string, sep: string): (r: string)
    requires sep != [] && Contains(s, sep)
    ensures var i := Find(s, sep).value + |sep|; r == s[i..NextOr(s, sep, i)]
    ensures forall k: nat :: !OccursAt(r, sep, k)
  {
    var i := Find(s, sep).value + |sep|;
    var rest := s[i..];
    assert rest == s[i..|s|];
    FindInSlice(s, sep, i, |s|);
    assert rest[..NextOr(rest, sep, 0)] == s[i..NextOr(s, sep, i)];
    SplitFirst(rest, sep)
  }

  /** `s[:n]` */
  function Prefix(s: string, n: nat): (r: string)
    ensures r <= s && |r| == if |s| < n then |s| else n
  {
    if |s| < n then s else s[..n]
  }

  function UpperChar(c: char): char {
    if 'a' <= c <= 'z' then (c as int - 'a' as int + 'A' as int) as char else c
  }

  function LowerChar(c: char): char {
    if 'A' <= c <= 'Z' then (c as int - 'A' as int + 'a' as int) as char else c
  }

  /** `s.upper()` (ASCII letters). */
  function Upper(s: string): (r: string)
    ensures |r| == |s| && forall k :: 0 <= k < |s| ==> r[k] == UpperChar(s[k])
  {
    seq(|s|, k requires 0 <= k < |s| => UpperChar(s[k]))
  }

  /** `s.lower()` (ASCII letters). */
  function Lower(s: string): (r: string)
    ensures |r| == |s| && forall k :: 0 <= k < |s| ==> r[k] == LowerChar(s[k])
  {
    seq(|s|, k requires 0 <= k < |s| => LowerChar(s[k]))
  }

  /** No upper-case letter occurs in `s`. */
  predicate IsLowerCase(s: string) {
    forall k :: 0 <= k < |s| ==> !('A' <= s[k] <= 'Z')
  }

  /** Lower-casing yields lower-case text, and leaves lower-case text as it is. */
  lemma LowerIsLowerCase(s: string)
    ensures IsLowerCase(Lower(s))
    ensures IsLowerCase(s) ==> Lower(s) == s
  {
  }
}
