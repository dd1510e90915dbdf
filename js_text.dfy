/** The few JavaScript string operations the hiring assistant relies on:
    `trim`, `startsWith`, `includes`, `split('\n')` and `toLowerCase`.
    Strings are sequences of characters; there is no encoding here. */
module JsText {

  /** JavaScript's WhiteSpace and LineTerminator characters, the set `trim` strips. */
  predicate IsSpace(c: char) {
    c == '\t' || c == '\n' || c == '\U{000B}' || c == '\U{000C}' || c == '\r' || c == ' ' ||
    c == '\U{00A0}' || c == '\U{1680}' || ('\U{2000}' <= c <= '\U{200A}') ||
    c == '\U{2028}' || c == '\U{2029}' || c == '\U{202F}' || c == '\U{205F}' ||
    c == '\U{3000}' || c == '\U{FEFF}'
  }

  predicate AllSpace(s: string) {
    forall i :: 0 <= i < |s| ==> IsSpace(s[i])
  }

  /** Number of whitespace characters at the front of `s`. */
  function LeadingSpaces(s: string): (n: nat)
    ensures n <= |s| && AllSpace(s[..n])
    ensures n < |s| ==> !IsSpace(s[n])
  {
    if |s| == 0 || !IsSpace(s[0]) then 0 else 1 + LeadingSpaces(s[1..])
  }

  /** Length of `s` without its trailing whitespace. */
  function EndWithoutSpaces(s: string): (n: nat)
    ensures n <= |s| && AllSpace(s[n..])
    ensures n > 0 ==> !IsSpace(s[n - 1])
  {
    if |s| == 0 || !IsSpace(s[|s| - 1]) then |s| else EndWithoutSpaces(s[..|s| - 1])
  }

  /** `s.trim()`: the infix of `s` left after removing whitespace from both ends. */
  function Trim(s: string): (r: string)
    ensures exists i, j :: 0 <= i <= j <= |s| && r == s[i..j] && AllSpace(s[..i]) && AllSpace(s[j..])
    ensures r != [] ==> !IsSpace(r[0]) && !IsSpace(r[|r| - 1])
    ensures r == [] <==> AllSpace(s)
  {
    var i := LeadingSpaces(s);
    if i == |s| then
      assert s[..i] == s && s[i..] == [];
      s[i..i]
    else
      var j := EndWithoutSpaces(s);
      SpaceFreeBefore(s, i, j);
      assert !AllSpace(s) by { assert !IsSpace(s[i]); }
      s[i..j]
  }

  /** A non-whitespace character lies before any all-whitespace suffix. */
  lemma SpaceFreeBefore(s: string, i: int, j: int)
    requires 0 <= i < |s| && !IsSpace(s[i])
    requires 0 <= j <= |s| && AllSpace(s[j..])
    ensures i < j
  {
    SpacesAfter(s, j);
  }

  /** Trimming is idempotent. */
  lemma TrimIdempotent(s: string)
    ensures Trim(Trim(s)) == Trim(s)
  {
    var t := Trim(s);
    if t != [] {
      assert LeadingSpaces(t) == 0;
      assert EndWithoutSpaces(t) == |t|;
      assert t[..|t|] == t;
    }
  }

  /** A string with no whitespace at either end is its own trim. */
  lemma TrimOfTrimmed(s: string)
    requires s != [] ==> !IsSpace(s[0]) && !IsSpace(s[|s| - 1])
    ensures Trim(s) == s
  {
    if s != [] {
      assert EndWithoutSpaces(s) == |s|;
      assert s[..|s|] == s;
    }
  }

  /** `Trim` is determined by where the first and last non-whitespace characters are. */
  lemma TrimUnique(s: string, i: int, j: int)
    requires 0 <= i < j <= |s|
    requires AllSpace(s[..i]) && AllSpace(s[j..])
    requires !IsSpace(s[i]) && !IsSpace(s[j - 1])
    ensures Trim(s) == s[i..j]
  {
    var n, m := LeadingSpaces(s), EndWithoutSpaces(s);
    SpacesBefore(s, i);
    SpacesBefore(s, n);
    assert n == i;
    SpacesAfter(s, j);
    SpacesAfter(s, m);
    assert m == j;
  }

  lemma SpacesBefore(s: string, n: int)
    requires 0 <= n <= |s| && AllSpace(s[..n])
    ensures forall k :: 0 <= k < n ==> IsSpace(s[k])
  {
    forall k | 0 <= k < n ensures IsSpace(s[k]) { assert s[..n][k] == s[k]; }
  }

  lemma SpacesAfter(s: string, n: int)
    requires 0 <= n <= |s| && AllSpace(s[n..])
    ensures forall k :: n <= k < |s| ==> IsSpace(s[k])
  {
    forall k | n <= k < |s| ensures IsSpace(s[k]) { assert s[n..][k - n] == s[k]; }
  }

  /** Indentation in front of a trimmed line is removed by `trim`. */
  lemma TrimIndented(ws: string, h: string)
    requires AllSpace(ws) && h != [] && !IsSpace(h[0]) && !IsSpace(h[|h| - 1])
    ensures Trim(ws + h) == h
  {
    var s := ws + h;
    assert s[..|ws|] == ws && s[|s|..] == [];
    assert s[|ws|] == h[0] && s[|s| - 1] == h[|h| - 1];
    TrimUnique(s, |ws|, |s|);
    assert s[|ws|..|s|] == h;
  }

  predicate StartsWith(s: string, prefix: string) {
    |prefix| <= |s| && s[..|prefix|] == prefix
  }

  /** `p` occurs in `s` starting at index `i`. */
  predicate OccursAt(s: string, p: string, i: int) {
    0 <= i <= |s| - |p| && s[i..i + |p|] == p
  }

  /** `s.includes(p)`: `p` occurs somewhere in `s`. */
  function Contains(s: string, p: string): (r: bool)
    ensures r <==> exists i :: OccursAt(s, p, i)
  {
    if StartsWith(s, p) then
      assert OccursAt(s, p, 0);
      true
    else if |s| == 0 then
      false
    else
      var r := Contains(s[1..], p);
      assert r ==> exists i :: OccursAt(s, p, i) by {
        if r {
          var i :| OccursAt(s[1..], p, i);
          assert s[i + 1..i + 1 + |p|] == s[1..][i..i + |p|];
          assert OccursAt(s, p, i + 1);
        }
      }
      assert (exists i :: OccursAt(s, p, i)) ==> r by {
        if exists i :: OccursAt(s, p, i) {
          var i :| OccursAt(s, p, i);
          assert i != 0;
          assert s[1..][i - 1..i - 1 + |p|] == s[i..i + |p|];
          assert OccursAt(s[1..], p, i - 1);
        }
      }
      r
  }

  /** Anything found in a string is still found after text is added on either side. */
  lemma ContainsExtended(a: string, s: string, b: string, p: string)
    requires Contains(s, p)
    ensures Contains(a + s + b, p)
  {
    var i :| OccursAt(s, p, i);
    assert (a + s + b)[|a| + i..|a| + i + |p|] == s[i..i + |p|];
    assert OccursAt(a + s + b, p, |a| + i);
  }

  lemma ContainsPrefix(s: string, p: string)
    requires StartsWith(s, p)
    ensures Contains(s, p)
  {
    assert OccursAt(s, p, 0);
  }

  /** Index of the first newline in `s`, or `|s|` when there is none. */
  function NewlineIndex(s: string): (n: nat)
    ensures n <= |s| && '\n' !in s[..n]
    ensures n < |s| ==> s[n] == '\n'
  {
    if |s| == 0 || s[0] == '\n' then 0 else 1 + NewlineIndex(s[1..])
  }

  /** `s.split('\n')`: always at least one piece, none holding a newline. */
  function Split(s: string): (parts: seq<string>)
    ensures |parts| >= 1
    ensures forall k :: 0 <= k < |parts| ==> '\n' !in parts[k]
    ensures Join(parts) == s
    decreases |s|
  {
    var n := NewlineIndex(s);
    if n == |s| then
      assert s[..n] == s;
      [s]
    else
      var rest := Split(s[n + 1..]);
      assert s == s[..n] + "\n" + s[n + 1..];
      [s[..n]] + rest
  }

  /** `parts.join('\n')`. */
  function Join(parts: seq<string>): string
    decreases |parts|
  {
    if |parts| == 0 then "" else if |parts| == 1 then parts[0] else parts[0] + "\n" + Join(parts[1..])
  }

  /** Splitting undoes joining when no piece holds a newline. */
  lemma {:induction false} SplitJoin(parts: seq<string>)
    requires |parts| >= 1
    requires forall k :: 0 <= k < |parts| ==> '\n' !in parts[k]
    ensures Split(Join(parts)) == parts
    decreases |parts|
  {
    var s := Join(parts);
    if |parts| == 1 {
      NewlineIndexAbsent(parts[0]);
    } else {
      var rest := Join(parts[1..]);
      assert s == parts[0] + "\n" + rest;
      NewlineIndexAt(parts[0], rest);
      assert s[|parts[0]| + 1..] == rest;
      assert s[..|parts[0]|] == parts[0];
      SplitJoin(parts[1..]);
      assert parts == [parts[0]] + parts[1..];
    }
  }

  /** Joining two non-empty lists of pieces puts one newline between them. */
  lemma {:induction false} JoinAppend(p: seq<string>, q: seq<string>)
    requires |p| >= 1 && |q| >= 1
    ensures Join(p + q) == Join(p) + "\n" + Join(q)
    decreases |p|
  {
    if |p| == 1 {
      assert (p + q)[1..] == q;
    } else {
      assert (p + q)[1..] == p[1..] + q;
      JoinAppend(p[1..], q);
    }
  }

  /** Splitting text that has a newline between `a` and `b` splits each side on its own. */
  lemma SplitAround(a: string, b: string)
    ensures Split(a + "\n" + b) == Split(a) + Split(b)
  {
    var p, q := Split(a), Split(b);
    JoinAppend(p, q);
    SplitJoin(p + q);
  }

  lemma NewlineIndexAbsent(s: string)
    requires '\n' !in s
    ensures NewlineIndex(s) == |s|
  {
    if |s| > 0 {
      assert '\n' !in s[1..] by {
        forall k | 0 <= k < |s| - 1 ensures s[1..][k] != '\n' { assert s[1..][k] == s[k + 1]; }
      }
      NewlineIndexAbsent(s[1..]);
    }
  }

  lemma {:induction false} NewlineIndexAt(a: string, b: string)
    requires '\n' !in a
    ensures NewlineIndex(a + "\n" + b) == |a|
  {
    if |a| > 0 {
      assert (a + "\n" + b)[1..] == a[1..] + "\n" + b;
      assert '\n' !in a[1..] by {
        forall k | 0 <= k < |a| - 1 ensures a[1..][k] != '\n' { assert a[1..][k] == a[k + 1]; }
      }
      NewlineIndexAt(a[1..], b);
    }
  }

  /** `toLowerCase` on the ASCII letters. */
  function LowerChar(c: char): char {
    if 'A' <= c <= 'Z' then (c as int - 'A' as int + 'a' as int) as char else c
  }

  function ToLower(s: string): (r: string)
    ensures |r| == |s|
    ensures forall k :: 0 <= k < |s| ==> r[k] == LowerChar(s[k])
  {
    if |s| == 0 then "" else [LowerChar(s[0])] + ToLower(s[1..])
  }

  /** `s` holds no upper-case ASCII letter. */
  predicate NoUpper(s: string) {
    forall k :: 0 <= k < |s| ==> !('A' <= s[k] <= 'Z')
  }

  /** Trimming removes characters and adds none, so it keeps a string free of upper case. */
  lemma NoUpperTrim(s: string)
    requires NoUpper(s)
    ensures NoUpper(Trim(s))
  {
    var i, j :| 0 <= i <= j <= |s| && Trim(s) == s[i..j];
    assert forall k :: 0 <= k < j - i ==> Trim(s)[k] == s[i + k];
  }
}
