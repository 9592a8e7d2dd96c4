/**
 * Go's `strings.Replace(s, p, "", -1)`, the one call into `strings` the CLI
 * makes (cocli.go:241), together with the prefix test, `Index` and `Count`
 * that computation is built from.
 */
module Strings {
  import opened Wrappers

  /** Go's `strings.HasPrefix`, one character at a time. */
  predicate HasPrefix(s: string, p: string)
    ensures HasPrefix(s, p) ==> |p| <= |s|
    decreases |p|
  {
    p == [] || (s != [] && s[0] == p[0] && HasPrefix(s[1..], p[1..]))
  }

  /** `p` occurs in `s` starting at index `i`. */
  predicate OccursAt(s: string, p: string, i: nat) {
    i <= |s| && HasPrefix(s[i..], p)
  }

  predicate Contains(s: string, p: string) {
    exists i: nat | i <= |s| :: OccursAt(s, p, i)
  }

  lemma ShiftOccurrence(s: string, p: string, j: nat)
    requires s != []
    ensures OccursAt(s[1..], p, j) <==> OccursAt(s, p, j + 1)
  {
    if j + 1 <= |s| {
      assert s[1..][j..] == s[j + 1..];
    }
  }

  /** Go's `strings.Index`: the leftmost occurrence of `p` in `s`, if any. */
  function IndexOf(s: string, p: string): (r: Option<nat>)
    ensures r.Some? ==> OccursAt(s, p, r.value)
    ensures r.Some? ==> forall j: nat :: j < r.value ==> !OccursAt(s, p, j)
    ensures r.None? ==> forall j: nat :: !OccursAt(s, p, j)
    decreases |s|
  {
    if HasPrefix(s, p) then
      assert s[0..] == s;
      Some(0)
    else if s == [] then None
    else
      var rest := IndexOf(s[1..], p);
      assert !OccursAt(s, p, 0) by { assert s[0..] == s; }
      assert forall j: nat :: 0 < j ==> (OccursAt(s, p, j) <==> OccursAt(s[1..], p, j - 1)) by {
        forall j: nat | 0 < j ensures OccursAt(s, p, j) <==> OccursAt(s[1..], p, j - 1) {
          ShiftOccurrence(s, p, j - 1);
        }
      }
      if rest.None? then None else Some(rest.value + 1)
  }

  /**
   * `strings.Replace(s, p, "", -1)` as Go computes it: find the leftmost
   * occurrence, drop it, and carry on after it. What is spliced together
   * is never searched again.
   */
  function RemoveAll(s: string, p: string): string
    requires |p| > 0
    decreases |s|
  {
    match IndexOf(s, p)
    case None => s
    case Some(i) => s[..i] + RemoveAll(s[i + |p|..], p)
  }

  /**
   * Reference reading of the same operation, one character at a time: at
   * each position either an occurrence starts, and is dropped whole, or the
   * character is kept.
   */
  function ScanRemove(s: string, p: string): string
    requires |p| > 0
    decreases |s|
  {
    if HasPrefix(s, p) then ScanRemove(s[|p|..], p)
    else if s == [] then []
    else [s[0]] + ScanRemove(s[1..], p)
  }

  /** Number of occurrences the scan drops: Go's `strings.Count`. */
  function Occurrences(s: string, p: string): nat
    requires |p| > 0
    decreases |s|
  {
    if HasPrefix(s, p) then 1 + Occurrences(s[|p|..], p)
    else if s == [] then 0
    else Occurrences(s[1..], p)
  }

  /** Text shorter than `p` passes through the scan unchanged. */
  lemma {:induction false} ScanShort(s: string, p: string)
    requires 0 < |p| && |s| < |p|
    ensures ScanRemove(s, p) == s
    decreases |s|
  {
    if s != [] {
      ScanShort(s[1..], p);
    }
  }

  /** A position where no occurrence starts is kept. */
  lemma ScanKeep(s: string, p: string)
    requires |p| > 0 && s != [] && !OccursAt(s, p, 0)
    ensures ScanRemove(s, p) == [s[0]] + ScanRemove(s[1..], p)
    ensures Occurrences(s, p) == Occurrences(s[1..], p)
  {
    assert s[0..] == s;
  }

  /** Up to the first occurrence the scan keeps every character. */
  lemma {:induction false} ScanSkips(s: string, p: string, i: nat)
    requires |p| > 0 && i <= |s|
    requires forall j: nat :: j < i ==> !OccursAt(s, p, j)
    ensures ScanRemove(s, p) == s[..i] + ScanRemove(s[i..], p)
    ensures Occurrences(s, p) == Occurrences(s[i..], p)
  {
    if i > 0 {
      var t := s[1..];
      ScanKeep(s, p);
      forall j: nat | j < i - 1 ensures !OccursAt(t, p, j) {
        ShiftOccurrence(s, p, j);
      }
      ScanSkips(t, p, i - 1);
      assert t[i - 1..] == s[i..];
      assert s[..i] == [s[0]] + t[..i - 1];
    }
  }

  /** With no occurrence at all, the scan keeps the text as it is. */
  lemma ScanNone(s: string, p: string)
    requires |p| > 0 && IndexOf(s, p).None?
    ensures ScanRemove(s, p) == s
  {
    ScanSkips(s, p, |s|);
    assert s[..|s|] == s;
    assert ScanRemove(s[|s|..], p) == [];
  }

  /** The scan keeps the text before the leftmost occurrence and drops the occurrence. */
  lemma ScanFirst(s: string, p: string, i: nat)
    requires |p| > 0 && IndexOf(s, p) == Some(i)
    ensures i + |p| <= |s|
    ensures ScanRemove(s, p) == s[..i] + ScanRemove(s[i + |p|..], p)
  {
    ScanSkips(s, p, i);
    var rest := s[i..];
    assert HasPrefix(rest, p);
    assert rest[|p|..] == s[i + |p|..];
  }

  /** A match fixes every character of the prefix. */
  lemma {:induction false} PrefixChars(s: string, p: string, k: nat)
    requires HasPrefix(s, p) && k < |p|
    ensures k < |s| && s[k] == p[k]
    decreases k
  {
    if k > 0 {
      PrefixChars(s[1..], p[1..], k - 1);
    }
  }

  /** A character that differs from `p`'s within its length rules the prefix out. */
  lemma Mismatch(s: string, p: string, k: nat)
    requires k < |s| && k < |p| && s[k] != p[k]
    ensures !HasPrefix(s, p)
  {
    if HasPrefix(s, p) {
      PrefixChars(s, p, k);
    }
  }

  lemma {:induction false} HasPrefixExtend(p: string, rest: string)
    ensures HasPrefix(p + rest, p)
    decreases |p|
  {
    if p != [] {
      assert (p + rest)[1..] == p[1..] + rest;
      HasPrefixExtend(p[1..], rest);
    }
  }

  /**
   * When `p` does not start anywhere inside `a`, the scan keeps `a`, drops
   * the `p` after it, and goes on with `b`.
   */
  lemma ScanAround(a: string, p: string, b: string)
    requires |p| > 0
    requires forall j: nat :: j < |a| ==> !OccursAt(a + p + b, p, j)
    ensures ScanRemove(a + p + b, p) == a + ScanRemove(b, p)
  {
    var s := a + p + b;
    ScanSkips(s, p, |a|);
    assert s[..|a|] == a;
    assert s[|a|..] == p + b;
    HasPrefixExtend(p, b);
    assert (p + b)[|p|..] == b;
  }

  /**
   * One pass does not rescan what it splices: with `p` split as `x + y` and
   * no occurrence starting inside the leading `x`, the scan of `x + p + y`
   * leaves exactly `p`.
   */
  lemma ScanExposes(x: string, y: string, p: string)
    requires p == x + y && |y| < |p|
    requires forall j: nat :: j < |x| ==> !OccursAt(x + p + y, p, j)
    ensures ScanRemove(x + p + y, p) == p
  {
    ScanAround(x, p, y);
    ScanShort(y, p);
  }

  /** Go's search loop and the character scan remove the same text. */
  lemma {:induction false} RemoveAllIsScan(s: string, p: string)
    requires |p| > 0
    ensures RemoveAll(s, p) == ScanRemove(s, p)
    decreases |s|
  {
    var found := IndexOf(s, p);
    if found.None? {
      ScanNone(s, p);
    } else {
      var i := found.value;
      ScanFirst(s, p, i);
      RemoveAllIsScan(s[i + |p|..], p);
    }
  }

  /** Each occurrence removed shortens the text by the length of `p`. */
  lemma {:induction false} ScanLength(s: string, p: string)
    requires |p| > 0
    ensures |ScanRemove(s, p)| == |s| - |p| * Occurrences(s, p)
    decreases |s|
  {
    if HasPrefix(s, p) {
      var t := s[|p|..];
      ScanLength(t, p);
      MulSucc(|p|, Occurrences(t, p));
    } else if s != [] {
      ScanLength(s[1..], p);
    }
  }

  /**
   * Removing every occurrence shortens the text by `|p|` per occurrence
   * that Go's `strings.Count` finds.
   */
  lemma RemoveAllLength(s: string, p: string)
    requires |p| > 0
    ensures |RemoveAll(s, p)| == |s| - |p| * Occurrences(s, p)
  {
    RemoveAllIsScan(s, p);
    ScanLength(s, p);
  }

  /** The result is `s` itself exactly when `s` holds no occurrence. */
  lemma RemoveAllUnchangedIff(s: string, p: string)
    requires |p| > 0
    ensures RemoveAll(s, p) == s <==> !Contains(s, p)
  {
    var found := IndexOf(s, p);
    if found.Some? {
      var i := found.value;
      ScanSkips(s, p, i);
      assert HasPrefix(s[i..], p);
      var k := Occurrences(s, p);
      assert k >= 1;
      assert |p| * k >= |p| by { MulAtLeast(|p|, k); }
      RemoveAllLength(s, p);
    }
  }

  lemma MulSucc(a: nat, k: nat)
    ensures a * (1 + k) == a + a * k
  {
  }

  lemma MulAtLeast(a: nat, k: nat)
    requires k >= 1
    ensures a * k >= a
  {
  }
}
