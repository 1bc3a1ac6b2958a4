/** String and sequence helpers shared by every component: Python's `str.lower`,
    `str.split`, `str.strip`, `in` on strings, `startswith`, negative slicing and
    `Path(p).parent`, stated over `seq<char>`. */
module Text {

  datatype Option<+T> = None | Some(value: T) {
    function GetOr(default: T): T {
      match this
      case Some(v) => v
      case None => default
    }
  }

  /** The regular-expression engine: `Search(pattern, text)` holds when Python's
      `re.search(pattern, text)` (no flags) finds a match. It is a parameter of
      every operation that runs a pattern; a few patterns are hand-coded. */
  type Search = (string, string) -> bool

  /** Python's whitespace (`str.isspace`, `str.split`, `\s`). */
  predicate IsSpace(c: char) {
    var n := c as int;
    (9 <= n <= 13) || (28 <= n <= 32) || n == 0x85 || n == 0xA0 || n == 0x1680
    || (0x2000 <= n <= 0x200A) || n == 0x2028 || n == 0x2029 || n == 0x202F
    || n == 0x205F || n == 0x3000
  }

  /** `\w` restricted to ASCII: letters, digits and underscore. */
  predicate IsWordChar(c: char) {
    ('a' <= c <= 'z') || ('A' <= c <= 'Z') || ('0' <= c <= '9') || c == '_'
  }

  function LowerChar(c: char): (r: char)
    ensures !('A' <= r <= 'Z')
    ensures !('A' <= c <= 'Z') ==> r == c
  {
    if 'A' <= c <= 'Z' then (c as int + 32) as char else c
  }

  /** `str.lower()` on ASCII letters. */
  function Lower(s: string): (r: string)
    ensures |r| == |s|
    ensures forall i :: 0 <= i < |s| ==> r[i] == LowerChar(s[i])
  {
    seq(|s|, i requires 0 <= i < |s| => LowerChar(s[i]))
  }

  lemma LowerIdempotent(s: string)
    ensures Lower(Lower(s)) == Lower(s)
  {
    assert forall i :: 0 <= i < |s| ==> LowerChar(LowerChar(s[i])) == LowerChar(s[i]);
  }

  /** `t in s` for strings: `t` occurs in `s` as a contiguous substring. */
  predicate Contains(s: string, t: string) {
    exists i :: 0 <= i <= |s| && t <= s[i..]
  }

  lemma ContainsAt(s: string, t: string, i: nat)
    requires i <= |s| && t <= s[i..]
    ensures Contains(s, t)
  {
  }

  /** A needle with a character that the haystack lacks does not occur in it. */
  lemma NotContainsChar(s: string, t: string, k: nat)
    requires k < |t| && t[k] !in s
    ensures !Contains(s, t)
  {
    forall i | 0 <= i <= |s| ensures !(t <= s[i..]) {
      if i + k < |s| { assert s[i..][k] == s[i + k]; }
    }
  }

  /** A needle with two adjacent characters that never stand side by side in the
      haystack does not occur in it. */
  lemma NotContainsPair(s: string, t: string, k: nat)
    requires k + 1 < |t|
    requires forall i :: 0 <= i < |s| - 1 ==> !(s[i] == t[k] && s[i + 1] == t[k + 1])
    ensures !Contains(s, t)
  {
    forall i | 0 <= i <= |s| ensures !(t <= s[i..]) {
      if i + k + 1 < |s| {
        assert s[i..][k] == s[i + k];
        assert s[i..][k + 1] == s[i + k + 1];
      }
    }
  }

  /** The lower-cased haystack lacks a character of the needle. */
  lemma NotContainsLoweredChar(s: string, t: string, k: nat)
    requires k < |t| && 'a' <= t[k] <= 'z'
    requires t[k] !in s && (t[k] as int - 32) as char !in s
    ensures !Contains(Lower(s), t)
  {
    forall i | 0 <= i < |s| ensures Lower(s)[i] != t[k] {
      assert s[i] != t[k] && s[i] != (t[k] as int - 32) as char;
    }
    NotContainsChar(Lower(s), t, k);
  }

  /** The lower-cased haystack never holds two adjacent characters of the needle side by side. */
  lemma NotContainsLoweredPair(s: string, t: string, k: nat)
    requires k + 1 < |t|
    requires forall i :: 0 <= i < |s| - 1 ==> !(LowerChar(s[i]) == t[k] && LowerChar(s[i + 1]) == t[k + 1])
    ensures !Contains(Lower(s), t)
  {
    NotContainsPair(Lower(s), t, k);
  }

  /** The needle occurs in the lower-cased haystack at position `i`. */
  lemma ContainsLowered(s: string, t: string, i: nat)
    requires i + |t| <= |s| && forall k :: 0 <= k < |t| ==> LowerChar(s[i + k]) == t[k]
    ensures Contains(Lower(s), t)
  {
    assert t <= Lower(s)[i..] by {
      forall k | 0 <= k < |t| ensures Lower(s)[i..][k] == t[k] { }
    }
    ContainsAt(Lower(s), t, i);
  }

  /** Every string contains its own substrings' substrings. */
  lemma ContainsTransitive(s: string, u: string, t: string)
    requires Contains(s, u) && Contains(u, t)
    ensures Contains(s, t)
  {
    var i :| 0 <= i <= |s| && u <= s[i..];
    var j :| 0 <= j <= |u| && t <= u[j..];
    assert s[i + j..][..|t|] == u[j..][..|t|];
    ContainsAt(s, t, i + j);
  }

  /** `s[:n]` for n >= 0. */
  function Take<T>(s: seq<T>, n: nat): (r: seq<T>)
    ensures |r| == if n < |s| then n else |s|
    ensures r <= s
  {
    if n < |s| then s[..n] else s
  }

  /** `s[-n:]` for n > 0: the last min(n, |s|) elements. */
  function Last<T>(s: seq<T>, n: nat): (r: seq<T>)
    ensures |r| == if n < |s| then n else |s|
    ensures forall k :: 0 <= k < |r| ==> r[k] == s[|s| - |r| + k]
  {
    if n < |s| then s[|s| - n..] else s
  }

  /** Python's `s[-k:]` for any integer k: for k <= 0 the slice starts at
      position -k (so `s[-0:]` is all of `s`). */
  function PySuffix<T>(s: seq<T>, k: int): (r: seq<T>)
    ensures k > 0 ==> r == Last(s, k)
    ensures k <= 0 ==> r == s[if -k < |s| then -k else |s|..]
  {
    if k > 0 then Last(s, k) else s[if -k < |s| then -k else |s|..]
  }

  lemma PrefixOfConcat<T>(a: seq<T>, b: seq<T>)
    ensures a <= a + b
  {
    assert (a + b)[..|a|] == a;
  }

  lemma PrefixByChars<T>(a: seq<T>, b: seq<T>)
    requires |a| <= |b| && forall i :: 0 <= i < |a| ==> a[i] == b[i]
    ensures a <= b
  {
    assert b[..|a|] == a;
  }

  /** The position of the first element satisfying `p`: what a loop with an
      early return finds. */
  function FirstIndex<T>(xs: seq<T>, p: T -> bool): (r: Option<nat>)
    ensures r.None? <==> forall i :: 0 <= i < |xs| ==> !p(xs[i])
    ensures r.Some? ==> r.value < |xs| && p(xs[r.value]) && forall j :: 0 <= j < r.value ==> !p(xs[j])
    ensures forall k :: 0 <= k < |xs| && p(xs[k]) && (forall j :: 0 <= j < k ==> !p(xs[j])) ==> r == Some(k)
  {
    FirstIndexFrom(xs, p, 0)
  }

  /** The scan from position `n` on. */
  function FirstIndexFrom<T>(xs: seq<T>, p: T -> bool, n: nat): (r: Option<nat>)
    requires n <= |xs|
    ensures r.None? <==> forall i :: n <= i < |xs| ==> !p(xs[i])
    ensures r.Some? ==> n <= r.value < |xs| && p(xs[r.value]) && forall j :: n <= j < r.value ==> !p(xs[j])
    decreases |xs| - n
  {
    if n == |xs| then None
    else if p(xs[n]) then Some(n)
    else FirstIndexFrom(xs, p, n + 1)
  }

  /** The first element satisfying `p`, if any. */
  function FirstMatch<T>(xs: seq<T>, p: T -> bool): (r: Option<T>)
    ensures r.None? <==> forall i :: 0 <= i < |xs| ==> !p(xs[i])
    ensures r.Some? ==> exists i :: 0 <= i < |xs| && r.value == xs[i] && p(xs[i]) && forall j :: 0 <= j < i ==> !p(xs[j])
  {
    match FirstIndex(xs, p)
    case None => None
    case Some(i) => Some(xs[i])
  }

  /** A `for` loop with an early return on the first element satisfying `p`. */
  method FindFirst<T>(xs: seq<T>, p: T -> bool) returns (r: Option<nat>)
    ensures r == FirstIndex(xs, p)
  {
    var k := 0;
    while k < |xs|
      invariant 0 <= k <= |xs|
      invariant forall j :: 0 <= j < k ==> !p(xs[j])
    {
      if p(xs[k]) {
        var f := FirstIndex(xs, p);
        assert f.Some? && !(f.value < k) && !(k < f.value);
        return Some(k);
      }
      k := k + 1;
    }
    return None;
  }

  /** `counts.get(key, 0)`. */
  function Get(counts: map<string, nat>, key: string): nat {
    if key in counts then counts[key] else 0
  }

  /** `counts[key] = counts.get(key, 0) + 1`. */
  function Bump(counts: map<string, nat>, key: string): (r: map<string, nat>)
    ensures key in r && r[key] == Get(counts, key) + 1
    ensures forall k :: k != key ==> (k in r <==> k in counts) && (k in counts ==> r[k] == counts[k])
    ensures forall k :: Get(r, k) == Get(counts, k) + (if k == key then 1 else 0)
  {
    counts[key := Get(counts, key) + 1]
  }

  predicate NoDuplicates<T(==)>(s: seq<T>) {
    forall i, j :: 0 <= i < j < |s| ==> s[i] != s[j]
  }

  /** `if x not in xs: xs.append(x)`. */
  function AppendNew<T(==, !new)>(xs: seq<T>, x: T): (r: seq<T>)
    ensures forall y :: y in r <==> y in xs || y == x
    ensures NoDuplicates(xs) ==> NoDuplicates(r)
    ensures xs <= r && |r| <= |xs| + 1
  {
    if x in xs then xs else xs + [x]
  }

  /** Appending the same element twice is appending it once. */
  lemma AppendNewIdempotent<T(!new)>(xs: seq<T>, x: T)
    ensures AppendNew(AppendNew(xs, x), x) == AppendNew(xs, x)
  {
  }

  function Join(sep: string, xs: seq<string>): string {
    if xs == [] then "" else if |xs| == 1 then xs[0] else xs[0] + sep + Join(sep, xs[1..])
  }

  function DigitChar(d: nat): char
    requires d < 10
  {
    ['0', '1', '2', '3', '4', '5', '6', '7', '8', '9'][d]
  }

  /** `str(n)` for a natural number. */
  function NatToString(n: nat): (r: string)
    ensures |r| > 0
    ensures forall i :: 0 <= i < |r| ==> '0' <= r[i] <= '9'
  {
    if n < 10 then [DigitChar(n)] else NatToString(n / 10) + [DigitChar(n % 10)]
  }

  // ---------------------------------------------------------------- runs

  /** Length of the leading run of characters satisfying `inRun`. */
  function RunLength(s: string, inRun: char -> bool): (n: nat)
    ensures n <= |s|
    ensures forall i :: 0 <= i < n ==> inRun(s[i])
    ensures n < |s| ==> !inRun(s[n])
  {
    if s == [] || !inRun(s[0]) then 0 else 1 + RunLength(s[1..], inRun)
  }

  /** A run that stops at `n` has length `n`. */
  lemma {:induction false} RunLengthIs(s: string, inRun: char -> bool, n: nat)
    requires n <= |s| && forall i :: 0 <= i < n ==> inRun(s[i])
    requires n < |s| ==> !inRun(s[n])
    ensures RunLength(s, inRun) == n
  {
    if n > 0 {
      assert forall i :: 0 <= i < n - 1 ==> s[1..][i] == s[i + 1];
      RunLengthIs(s[1..], inRun, n - 1);
    }
  }

  /** The maximal non-empty runs of characters satisfying `inRun`, in order. */
  function Runs(s: string, inRun: char -> bool): (r: seq<string>)
    ensures forall k :: 0 <= k < |r| ==> r[k] != []
    ensures forall k, j :: 0 <= k < |r| && 0 <= j < |r[k]| ==> inRun(r[k][j])
    decreases |s|
  {
    if s == [] then []
    else if !inRun(s[0]) then Runs(s[1..], inRun)
    else
      var n := RunLength(s, inRun);
      [s[..n]] + Runs(s[n..], inRun)
  }

  lemma {:induction false} RunsEmpty(s: string, inRun: char -> bool)
    ensures Runs(s, inRun) == [] <==> forall i :: 0 <= i < |s| ==> !inRun(s[i])
    decreases |s|
  {
    if s != [] && !inRun(s[0]) {
      RunsEmpty(s[1..], inRun);
      assert forall i :: 1 <= i < |s| ==> s[i] == s[1..][i - 1];
    }
  }

  /** The first run starts at the first character satisfying `inRun`. */
  lemma {:induction false} RunsHead(s: string, inRun: char -> bool, i: nat)
    requires i < |s| && inRun(s[i])
    requires forall j :: 0 <= j < i ==> !inRun(s[j])
    ensures Runs(s, inRun) != []
    ensures Runs(s, inRun)[0] == s[i..i + RunLength(s[i..], inRun)]
    decreases |s|
  {
    if i > 0 {
      RunsHead(s[1..], inRun, i - 1);
      assert s[1..][i - 1..] == s[i..];
    }
  }

  predicate NotSpace(c: char) { !IsSpace(c) }

  /** Every character of `t` is whitespace (`\s*` spans `t`). */
  predicate AllSpace(t: string) { forall i :: 0 <= i < |t| ==> IsSpace(t[i]) }

  /** `s.split()` with no arguments. */
  function Split(s: string): seq<string> {
    Runs(s, NotSpace)
  }

  /** The tokens of `re.findall(r'\w+', s)`. */
  function Words(s: string): seq<string> {
    Runs(s, IsWordChar)
  }

  /** Length of the trailing run of whitespace. */
  function TrailingSpaces(s: string): (n: nat)
    ensures n <= |s|
    ensures forall i :: |s| - n <= i < |s| ==> IsSpace(s[i])
    ensures n < |s| ==> !IsSpace(s[|s| - 1 - n])
  {
    if s == [] || !IsSpace(s[|s| - 1]) then 0 else 1 + TrailingSpaces(s[..|s| - 1])
  }

  /** `s.strip()`: leading and trailing whitespace removed. */
  function Strip(s: string): (r: string)
    ensures exists a, b ::
              0 <= a <= b <= |s| && r == s[a..b] &&
              (forall i :: 0 <= i < a ==> IsSpace(s[i])) && (forall i :: b <= i < |s| ==> IsSpace(s[i]))
    ensures r != [] ==> !IsSpace(r[0]) && !IsSpace(r[|r| - 1])
  {
    var a := RunLength(s, IsSpace);
    var n := TrailingSpaces(s[a..]);
    StripWindow(s, a, n);
    assert 0 <= a <= |s| - n <= |s| && s[a..|s| - n] == s[a..|s| - n];
    s[a..|s| - n]
  }

  /** A string with no whitespace at either end is its own `strip`. */
  lemma StripUnchanged(s: string)
    requires s != [] ==> !IsSpace(s[0]) && !IsSpace(s[|s| - 1])
    ensures Strip(s) == s
  {
    var a := RunLength(s, IsSpace);
    assert a == 0;
    assert s[a..] == s;
    var n := TrailingSpaces(s);
    assert n == 0;
  }

  /** What `strip` keeps occurs in the original. */
  lemma StripContained(s: string)
    ensures Contains(s, Strip(s))
  {
    var a, b :| 0 <= a <= b <= |s| && Strip(s) == s[a..b];
    assert Strip(s) <= s[a..];
  }

  /** The window `strip` keeps: leading spaces before `a`, trailing spaces from
      `|s| - n`, and non-space characters at both ends of what is left. */
  lemma StripWindow(s: string, a: nat, n: nat)
    requires a <= |s| && n <= |s| - a
    requires forall i :: 0 <= i < a ==> IsSpace(s[i])
    requires a < |s| ==> !IsSpace(s[a])
    requires forall i :: |s| - a - n <= i < |s| - a ==> IsSpace(s[a..][i])
    requires n < |s| - a ==> !IsSpace(s[a..][|s| - a - 1 - n])
    ensures forall i :: |s| - n <= i < |s| ==> IsSpace(s[i])
    ensures a < |s| - n ==> !IsSpace(s[|s| - n - 1])
    ensures var r := s[a..|s| - n];
            r != [] ==> !IsSpace(r[0]) && !IsSpace(r[|r| - 1])
  {
    forall i | |s| - n <= i < |s| ensures IsSpace(s[i]) {
      assert s[i] == s[a..][i - a];
    }
    if a < |s| - n {
      assert s[|s| - n - 1] == s[a..][|s| - a - 1 - n];
    }
  }


  /** The first token of `s`, or `default` when `s` holds only whitespace:
      what `s.split()[0] if s else default` is evidently meant to compute. */
  function FirstTokenOr(s: string, default: string): (r: string)
    ensures Split(s) == [] ==> r == default
    ensures Split(s) != [] ==> r == Split(s)[0] && r != [] && forall j :: 0 <= j < |r| ==> !IsSpace(r[j])
  {
    var toks := Split(s);
    if toks == [] then default else toks[0]
  }

  /** `s.split()[0] if s else default` exactly as written: `None` stands for
      the IndexError raised when `s` is non-empty but holds only whitespace. */
  function FirstTokenAsWritten(s: string, default: string): Option<string> {
    if s == [] then Some(default)
    else
      var toks := Split(s);
      if toks == [] then None else Some(toks[0])
  }

  /** The written form raises for every non-empty all-whitespace string, so the
      base command of `" "` cannot be computed. */
  lemma FirstTokenAsWrittenRaises(s: string, default: string)
    ensures FirstTokenAsWritten(s, default) == None <==> s != [] && forall i :: 0 <= i < |s| ==> IsSpace(s[i])
    ensures FirstTokenAsWritten(" ", default) == None
  {
    RunsEmpty(s, NotSpace);
    RunsEmpty(" ", NotSpace);
  }

  /** Wherever the written form succeeds it agrees with the corrected one. */
  lemma FirstTokenAgrees(s: string, default: string)
    requires FirstTokenAsWritten(s, default).Some?
    ensures FirstTokenAsWritten(s, default).value == FirstTokenOr(s, default)
  {
    RunsEmpty(s, NotSpace);
  }

  /** The first token is the run that starts at the first non-space character. */
  lemma FirstTokenIsLeadingRun(s: string, i: nat)
    requires i < |s| && !IsSpace(s[i])
    requires forall j :: 0 <= j < i ==> IsSpace(s[j])
    ensures FirstTokenOr(s, "") == s[i..i + RunLength(s[i..], NotSpace)]
  {
    RunsHead(s, NotSpace, i);
  }

  /** A text that starts with the token `s[..n]` has that token first. */
  lemma FirstTokenIs(s: string, n: nat)
    requires 0 < n <= |s| && forall i :: 0 <= i < n ==> !IsSpace(s[i])
    requires n < |s| ==> IsSpace(s[n])
    ensures FirstTokenOr(s, "") == s[..n]
  {
    RunLengthIs(s, NotSpace, n);
    FirstTokenIsLeadingRun(s, 0);
  }

  // ---------------------------------------------------------------- paths

  /** Index of the last '/' in `p`, if any. */
  function LastSlash(p: string): (r: Option<nat>)
    ensures r.Some? ==> r.value < |p| && p[r.value] == '/' && forall j :: r.value < j < |p| ==> p[j] != '/'
    ensures r.None? ==> '/' !in p
  {
    if p == [] then None
    else if p[|p| - 1] == '/' then Some(|p| - 1)
    else LastSlash(p[..|p| - 1])
  }

  /** `str(Path(p).parent)` for paths without trailing, doubled or "." parts:
      everything before the last '/', "/" for a top-level entry, "." without '/'. */
  function Parent(p: string): (r: string)
    ensures '/' !in p ==> r == "."
    ensures r != "." ==> r <= p
  {
    match LastSlash(p)
    case None => "."
    case Some(k) => if k == 0 then "/" else p[..k]
  }
}
