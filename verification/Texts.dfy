/**
  Text as the server (Python) and the page (JavaScript) treat it: outer whitespace,
  name keys and the order of tags. A string is a sequence of Unicode code points.
 */
module Texts {

  /** Python's `str.lower` and `str.casefold`: fixed functions of which nothing is assumed. */
  const Lower: string -> string
  const CaseFold: string -> string

  /** What Python's `str.strip()` removes. */
  predicate PySpace(c: char) {
    var p := c as int;
    0x09 <= p <= 0x0d || 0x1c <= p <= 0x20 || p == 0x85 || p == 0xa0 || p == 0x1680 || 0x2000 <= p <= 0x200a
    || p == 0x2028 || p == 0x2029 || p == 0x202f || p == 0x205f || p == 0x3000
  }

  /** What JavaScript's `trim()` removes: also the BOM, but not NEL and the separators. */
  predicate JsSpace(c: char) {
    var p := c as int;
    0x09 <= p <= 0x0d || p == 0x20 || p == 0xa0 || p == 0x1680 || 0x2000 <= p <= 0x200a
    || p == 0x2028 || p == 0x2029 || p == 0x202f || p == 0x205f || p == 0x3000 || p == 0xfeff
  }

  function TrimLeft(s: string, space: char -> bool): string {
    if s != [] && space(s[0]) then TrimLeft(s[1..], space) else s
  }

  function TrimRight(s: string, space: char -> bool): string {
    if s != [] && space(s[|s| - 1]) then TrimRight(s[..|s| - 1], space) else s
  }

  function Trim(s: string, space: char -> bool): string {
    TrimRight(TrimLeft(s, space), space)
  }

  function Strip(s: string): string { Trim(s, PySpace) }
  function JsTrim(s: string): string { Trim(s, JsSpace) }

  /** The duplicate key of an item name, and of a list name. */
  function NameKey(name: string): string { Lower(Strip(name)) }
  function ListKey(name: string): string { CaseFold(Strip(name)) }

  /** JavaScript counts a code point above U+FFFF as two. */
  function JsLength(s: string): nat {
    if s == [] then 0 else (if s[0] as int > 0xffff then 2 else 1) + JsLength(s[1..])
  }

  ghost predicate Trimmed(s: string, space: char -> bool) {
    s != [] ==> !space(s[0]) && !space(s[|s| - 1])
  }

  lemma {:induction false} TrimLeftShape(s: string, space: char -> bool)
    ensures var r := TrimLeft(s, space);
      |r| <= |s| && s[|s| - |r|..] == r && (r != [] ==> !space(r[0]))
      && forall i :: 0 <= i < |s| - |r| ==> space(s[i])
  {
    if s != [] && space(s[0]) {
      TrimLeftShape(s[1..], space);
      assert forall i :: 1 <= i < |s| ==> s[i] == s[1..][i - 1];
    }
  }

  lemma {:induction false} TrimRightShape(s: string, space: char -> bool)
    ensures var r := TrimRight(s, space);
      |r| <= |s| && s[..|r|] == r && (r != [] ==> !space(r[|r| - 1]))
      && forall i :: |r| <= i < |s| ==> space(s[i])
  {
    if s != [] && space(s[|s| - 1]) {
      TrimRightShape(s[..|s| - 1], space);
      assert forall i :: 0 <= i < |s| - 1 ==> s[i] == s[..|s| - 1][i];
    }
  }

  /** `r` is what stays of `s` between its outer spaces. */
  ghost predicate CutAt(s: string, r: string, space: char -> bool, i: int, j: int) {
    0 <= i <= j <= |s| && r == s[i..j] && Trimmed(r, space) && forall k :: 0 <= k < i || j <= k < |s| ==> space(s[k])
  }

  lemma TrimCuts(s: string, space: char -> bool)
    ensures exists i, j :: CutAt(s, Trim(s, space), space, i, j)
  {
    var l := TrimLeft(s, space);
    TrimLeftShape(s, space);
    TrimRightShape(l, space);
    var r := TrimRight(l, space);
    var i := |s| - |l|;
    assert forall k :: |r| <= k < |l| ==> l[k] == s[i + k];
    assert forall k :: i + |r| <= k < |s| ==> s[k] == l[k - i];
    assert r != [] ==> r[0] == l[0];
    assert CutAt(s, Trim(s, space), space, i, i + |r|);
  }

  /**
    The server's trim and the page's: each cuts off the outer characters it takes for spaces, and no more.
    Names are compared without them and without regard to case.
   */
  lemma StripCuts(name: string)
    ensures exists i, j :: CutAt(name, Strip(name), PySpace, i, j)
    ensures exists i, j :: CutAt(name, JsTrim(name), JsSpace, i, j)
    ensures NameKey(name) == Lower(Strip(name)) && ListKey(name) == CaseFold(Strip(name))
  {
    hide Trim, CutAt;
    TrimCuts(name, PySpace);
    TrimCuts(name, JsSpace);
    var i, j :| CutAt(name, Trim(name, PySpace), PySpace, i, j);
    assert CutAt(name, Strip(name), PySpace, i, j);
    var a, b :| CutAt(name, Trim(name, JsSpace), JsSpace, a, b);
    assert CutAt(name, JsTrim(name), JsSpace, a, b);
  }

  /** Trimming removes exactly the outer spaces, so it changes nothing the second time. */
  lemma TrimIdempotent(s: string, space: char -> bool)
    ensures Trimmed(Trim(s, space), space)
    ensures Trim(Trim(s, space), space) == Trim(s, space)
  {
    var l := TrimLeft(s, space);
    TrimLeftShape(s, space);
    TrimRightShape(l, space);
    var r := TrimRight(l, space);
    assert r != [] ==> r[0] == l[0];
  }

  lemma TrimSteps(s: string, space: char -> bool)
    ensures s != [] && space(s[0]) ==> TrimLeft(s, space) == TrimLeft(s[1..], space)
    ensures s == [] || !space(s[0]) ==> TrimLeft(s, space) == s
    ensures s != [] && space(s[|s| - 1]) ==> TrimRight(s, space) == TrimRight(s[..|s| - 1], space)
    ensures s == [] || !space(s[|s| - 1]) ==> TrimRight(s, space) == s
  {
  }

  /** The loop of the page's `trimItemName`: Python's `strip`, character by character. */
  method TrimItemName(name: string) returns (r: string)
    ensures r == Strip(name)
  {
    hide PySpace, TrimLeft, TrimRight;
    var start := 0;
    assert name[0..] == name;
    while start < |name| && PySpace(name[start])
      invariant 0 <= start <= |name| && TrimLeft(name[start..], PySpace) == TrimLeft(name, PySpace)
    {
      TrimSteps(name[start..], PySpace);
      assert name[start..][1..] == name[start + 1..];
      start := start + 1;
    }
    ghost var left := name[start..];
    TrimSteps(left, PySpace);
    var end := |name|;
    assert name[start..end] == left;
    while end > start && PySpace(name[end - 1])
      invariant start <= end <= |name| && TrimRight(name[start..end], PySpace) == TrimRight(left, PySpace)
    {
      TrimSteps(name[start..end], PySpace);
      assert name[start..end][..end - start - 1] == name[start..end - 1];
      end := end - 1;
    }
    r := name[start..end];
    TrimSteps(r, PySpace);
  }

  // The order of tags: by lower-cased text, code point by code point, and stable.

  predicate LexLeq(a: string, b: string) {
    a == [] || (b != [] && (a[0] < b[0] || (a[0] == b[0] && LexLeq(a[1..], b[1..]))))
  }

  predicate TagLeq(a: string, b: string) { LexLeq(Lower(a), Lower(b)) }

  lemma {:induction false} LexTotal(a: string, b: string)
    ensures LexLeq(a, b) || LexLeq(b, a)
  {
    if a != [] && b != [] { LexTotal(a[1..], b[1..]); }
  }

  lemma {:induction false} LexTransitive(a: string, b: string, c: string)
    requires LexLeq(a, b) && LexLeq(b, c)
    ensures LexLeq(a, c)
  {
    if a != [] && a[0] == b[0] == c[0] { LexTransitive(a[1..], b[1..], c[1..]); }
  }

  ghost predicate Sorted(s: seq<string>) {
    forall i, j :: 0 <= i < j < |s| ==> TagLeq(s[i], s[j])
  }

  ghost predicate Distinct<T>(s: seq<T>) {
    forall i, j :: 0 <= i < j < |s| ==> s[i] != s[j]
  }

  /** Puts `x` behind every tag that does not sort after it. */
  function InsertTag(s: seq<string>, x: string): seq<string> {
    if s != [] && TagLeq(s[0], x) then [s[0]] + InsertTag(s[1..], x) else [x] + s
  }

  /** `sorted(tags, key=str.lower)` and the page's `sortTags`. */
  function SortTags(s: seq<string>): seq<string> {
    if s == [] then [] else InsertTag(SortTags(s[..|s| - 1]), s[|s| - 1])
  }

  lemma {:induction false} InsertBag(s: seq<string>, x: string)
    ensures multiset(InsertTag(s, x)) == multiset(s) + multiset{x}
  {
    hide TagLeq;
    if s != [] && TagLeq(s[0], x) {
      InsertBag(s[1..], x);
      assert s == [s[0]] + s[1..];
    }
  }

  /** Nothing of a sorted sequence sorts before its first element, nor before what sorts before that. */
  lemma BehindFirst(s: seq<string>, x: string)
    requires Sorted(s) && s != [] && !TagLeq(s[0], x)
    ensures Sorted([x] + s)
  {
    LexTotal(Lower(s[0]), Lower(x));
    forall j | 0 <= j < |s| ensures TagLeq(x, s[j]) {
      if j > 0 { LexTransitive(Lower(x), Lower(s[0]), Lower(s[j])); }
    }
    hide TagLeq;
  }

  /** A first element at or before `x` and the rest stays first when `x` is put into the rest. */
  lemma StaysFirst(first: string, rest: seq<string>, x: string)
    requires TagLeq(first, x) && forall y :: y in rest ==> TagLeq(first, y)
    ensures forall y :: y in InsertTag(rest, x) ==> TagLeq(first, y)
  {
    hide TagLeq, InsertTag;
    InsertBag(rest, x);
    forall y | y in InsertTag(rest, x) ensures TagLeq(first, y) {
      assert y in multiset(InsertTag(rest, x));
      assert y == x || y in rest;
    }
  }

  lemma SortedCons(first: string, rest: seq<string>)
    requires Sorted(rest) && forall y :: y in rest ==> TagLeq(first, y)
    ensures Sorted([first] + rest)
  {
    hide TagLeq;
  }

  lemma SortedRest(s: seq<string>)
    requires Sorted(s) && s != []
    ensures Sorted(s[1..]) && forall y :: y in s[1..] ==> TagLeq(s[0], y)
  {
    hide TagLeq;
  }

  lemma {:induction false} InsertSorted(s: seq<string>, x: string)
    requires Sorted(s)
    ensures Sorted(InsertTag(s, x))
  {
    if s != [] && TagLeq(s[0], x) {
      SortedRest(s);
      StaysFirst(s[0], s[1..], x);
      hide TagLeq, Sorted;
      InsertSorted(s[1..], x);
      SortedCons(s[0], InsertTag(s[1..], x));
    } else if s != [] {
      BehindFirst(s, x);
    }
  }

  lemma InsertShape(s: seq<string>, x: string)
    ensures multiset(InsertTag(s, x)) == multiset(s) + multiset{x}
    ensures Sorted(s) ==> Sorted(InsertTag(s, x))
  {
    hide Sorted, InsertTag;
    InsertBag(s, x);
    if Sorted(s) { InsertSorted(s, x); }
  }

  lemma {:induction false} SortShape(s: seq<string>)
    ensures Sorted(SortTags(s)) && multiset(SortTags(s)) == multiset(s)
    ensures |SortTags(s)| == |s| && forall x :: x in SortTags(s) <==> x in s
    ensures Distinct(s) ==> Distinct(SortTags(s))
  {
    SortSorts(s);
    SameBag(SortTags(s), s);
  }

  lemma {:induction false} SortSorts(s: seq<string>)
    ensures Sorted(SortTags(s)) && multiset(SortTags(s)) == multiset(s)
  {
    if s != [] {
      hide InsertTag, Sorted;
      SortSorts(s[..|s| - 1]);
      InsertShape(SortTags(s[..|s| - 1]), s[|s| - 1]);
      assert s == s[..|s| - 1] + [s[|s| - 1]];
    }
  }

  lemma SameBag<T>(a: seq<T>, b: seq<T>)
    requires multiset(a) == multiset(b)
    ensures |a| == |b| && (forall x :: x in a <==> x in b)
    ensures Distinct(b) ==> Distinct(a)
  {
    assert |multiset(a)| == |a| && |multiset(b)| == |b|;
    forall x ensures x in a <==> x in b { assert x in multiset(a) <==> x in multiset(b); }
    if Distinct(b) {
      forall i, j | 0 <= i < j < |a| ensures a[i] != a[j] {
        if a[i] == a[j] {
          Twice(a, i, j);
          Once(b, a[i]);
        }
      }
    }
  }

  lemma Twice<T>(a: seq<T>, i: nat, j: nat)
    requires i < j < |a| && a[i] == a[j]
    ensures multiset(a)[a[i]] >= 2
  {
    assert a == a[..i] + [a[i]] + a[i + 1..j] + [a[j]] + a[j + 1..];
  }

  lemma {:induction false} Once<T>(b: seq<T>, x: T)
    requires Distinct(b)
    ensures multiset(b)[x] <= 1
  {
    if b != [] {
      Once(b[1..], x);
      assert b == [b[0]] + b[1..];
      if b[0] == x { assert x !in b[1..]; }
    }
  }

  /** Sorting a sorted sequence changes nothing; so what is stored sorted is sent as it is. */
  lemma {:induction false} SortedIsFixed(s: seq<string>)
    requires Sorted(s)
    ensures SortTags(s) == s
  {
    if s != [] {
      var t, x := s[..|s| - 1], s[|s| - 1];
      SortedIsFixed(t);
      forall i | 0 <= i < |t| ensures TagLeq(t[i], x) { assert TagLeq(s[i], s[|s| - 1]); }
      InsertAtEnd(t, x);
    }
  }

  lemma {:induction false} InsertAtEnd(t: seq<string>, x: string)
    requires forall i :: 0 <= i < |t| ==> TagLeq(t[i], x)
    ensures InsertTag(t, x) == t + [x]
  {
    if t != [] {
      InsertAtEnd(t[1..], x);
      assert t == [t[0]] + t[1..];
    }
  }

  /** Sorting is stable: tags with equal keys keep their order. */
  lemma {:induction false} SortStable(s: seq<string>, key: string)
    ensures WithKey(SortTags(s), key) == WithKey(s, key)
  {
    if s != [] {
      var t, x := s[..|s| - 1], s[|s| - 1];
      SortStable(t, key);
      SortShape(t);
      hide InsertTag, WithKey, Sorted, Distinct;
      InsertStable(SortTags(t), x, key);
      assert s == t + [x];
      WithKeySnoc(t, x, key);
    }
  }

  function WithKey(s: seq<string>, key: string): seq<string> {
    if s == [] then [] else if Lower(s[0]) == key then [s[0]] + WithKey(s[1..], key) else WithKey(s[1..], key)
  }

  lemma {:induction false} WithKeySnoc(t: seq<string>, x: string, key: string)
    ensures WithKey(t + [x], key) == if Lower(x) == key then WithKey(t, key) + [x] else WithKey(t, key)
  {
    if t == [] {
      assert t + [x] == [x];
    } else {
      assert (t + [x])[1..] == t[1..] + [x];
      WithKeySnoc(t[1..], x, key);
    }
  }

  lemma {:induction false} InsertStable(s: seq<string>, x: string, key: string)
    requires Sorted(s)
    ensures WithKey(InsertTag(s, x), key) == if Lower(x) == key then WithKey(s, key) + [x] else WithKey(s, key)
  {
    if s != [] && TagLeq(s[0], x) {
      assert Sorted(s[1..]);
      InsertStable(s[1..], x, key);
    } else if Lower(x) == key {
      forall y | y in s ensures Lower(y) != key {
        var j :| 0 <= j < |s| && s[j] == y;
        LexTotal(Lower(y), Lower(y));
        assert TagLeq(s[0], s[j]);
      }
      NoneWithKey(s, key);
    }
  }

  lemma {:induction false} NoneWithKey(s: seq<string>, key: string)
    requires forall y :: y in s ==> Lower(y) != key
    ensures WithKey(s, key) == []
  {
    if s != [] { NoneWithKey(s[1..], key); }
  }
}
