/** Lexicographic string order and sorting, as sort.Strings provides them. */
module Ordering {

  predicate Less(a: string, b: string) {
    if b == "" then false
    else if a == "" then true
    else a[0] < b[0] || (a[0] == b[0] && Less(a[1..], b[1..]))
  }

  lemma LessIsTotal(a: string, b: string)
    ensures a == b || Less(a, b) || Less(b, a)
    ensures !(Less(a, b) && Less(b, a)) && !Less(a, a)
  {
    if a != "" && b != "" {
      LessIsTotal(a[1..], b[1..]);
      if a[0] == b[0] && a[1..] == b[1..] { assert a == [a[0]] + a[1..] == [b[0]] + b[1..] == b; }
    }
  }

  lemma LessIsTransitive(a: string, b: string, c: string)
    requires Less(a, b) && Less(b, c)
    ensures Less(a, c)
  {
    if a != "" && a[0] == b[0] && b[0] == c[0] { LessIsTransitive(a[1..], b[1..], c[1..]); }
  }

  ghost predicate StrictlySorted(s: seq<string>) {
    forall i, j :: 0 <= i < j < |s| ==> Less(s[i], s[j])
  }

  ghost function Elements(s: seq<string>): set<string> {
    set x | x in s
  }

  ghost predicate NoDuplicates(s: seq<string>) {
    forall i, j :: 0 <= i < j < |s| ==> s[i] != s[j]
  }

  lemma NoElements(s: seq<string>)
    ensures Elements(s) == {} <==> s == []
  {
    if s != [] { assert s[0] in Elements(s); }
  }

  /** A strictly sorted sequence is determined by its elements. */
  lemma SortedIsUnique(s: seq<string>, t: seq<string>)
    requires StrictlySorted(s) && StrictlySorted(t) && Elements(s) == Elements(t)
    ensures s == t
    decreases |s|
  {
    NoElements(s);
    NoElements(t);
    if s != [] {
      assert s[0] in Elements(s);
      var j :| 0 <= j < |t| && t[j] == s[0];
      assert t[0] in Elements(t);
      var i :| 0 <= i < |s| && s[i] == t[0];
      LessIsTotal(s[0], t[0]);
      assert s[0] == t[0];
      forall x | x in s[1..] ensures x in t[1..] {
        var k :| 0 <= k < |s[1..]| && s[1..][k] == x;
        LessIsTotal(s[0], s[k + 1]);
        assert s[k + 1] in Elements(s) && x != t[0];
      }
      forall x | x in t[1..] ensures x in s[1..] {
        var k :| 0 <= k < |t[1..]| && t[1..][k] == x;
        LessIsTotal(t[0], t[k + 1]);
        assert t[k + 1] in Elements(t) && x != s[0];
      }
      SortedIsUnique(s[1..], t[1..]);
    }
  }

  method InsertSorted(sorted: seq<string>, x: string) returns (r: seq<string>)
    requires StrictlySorted(sorted) && x !in sorted
    ensures StrictlySorted(r) && Elements(r) == Elements(sorted) + {x}
  {
    var i := 0;
    while i < |sorted| && Less(sorted[i], x)
      invariant 0 <= i <= |sorted|
      invariant forall j :: 0 <= j < i ==> Less(sorted[j], x)
    {
      i := i + 1;
    }
    r := sorted[..i] + [x] + sorted[i..];
    InsertedIsSorted(sorted, x, i);
    assert forall y :: y in r <==> y == x || y in sorted by {
      assert sorted == sorted[..i] + sorted[i..];
    }
  }

  lemma InsertedIsSorted(sorted: seq<string>, x: string, n: nat)
    requires StrictlySorted(sorted) && x !in sorted && n <= |sorted|
    requires (forall j :: 0 <= j < n ==> Less(sorted[j], x)) && (n < |sorted| ==> !Less(sorted[n], x))
    ensures StrictlySorted(sorted[..n] + [x] + sorted[n..])
  {
    var r := sorted[..n] + [x] + sorted[n..];
    forall j | n <= j < |sorted| ensures Less(x, sorted[j]) {
      LessIsTotal(x, sorted[n]);
      if n < j { LessIsTransitive(x, sorted[n], sorted[j]); }
    }
    forall i, j | 0 <= i < j < |r| ensures Less(r[i], r[j]) {
      assert r[i] == if i < n then sorted[i] else if i == n then x else sorted[i - 1];
      assert r[j] == if j < n then sorted[j] else if j == n then x else sorted[j - 1];
    }
  }

  /** sort.Strings on a slice without repetitions. */
  method SortStrings(s: seq<string>) returns (r: seq<string>)
    requires NoDuplicates(s)
    ensures StrictlySorted(r) && Elements(r) == Elements(s)
  {
    r := [];
    for i := 0 to |s|
      invariant StrictlySorted(r) && Elements(r) == Elements(s[..i])
    {
      assert s[i] !in Elements(s[..i]);
      assert s[..i + 1] == s[..i] + [s[i]];
      r := InsertSorted(r, s[i]);
    }
    assert s[..|s|] == s;
  }

  /** Copying the keys of a Go map or set into a slice, in whatever order the runtime
      iterates, and sorting the slice. */
  method SortedElements(xs: set<string>) returns (r: seq<string>)
    ensures StrictlySorted(r) && Elements(r) == xs
  {
    var slice: seq<string> := [];
    var rest := xs;
    while rest != {}
      invariant rest <= xs && Elements(slice) == xs - rest && NoDuplicates(slice)
      decreases |rest|
    {
      var x :| x in rest;
      assert x !in Elements(slice);
      assert Elements(slice + [x]) == Elements(slice) + {x};
      slice := slice + [x];
      rest := rest - {x};
    }
    r := SortStrings(slice);
  }
}
