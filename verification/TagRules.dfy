/** What renaming a tag and the single mode do to the tags of one item. */
module TagRules {
  import opened RoomModel
  import opened Texts

  function Without(tags: seq<string>, tag: string): seq<string> {
    if tags == [] then []
    else Without(tags[..|tags| - 1], tag) + (if tags[|tags| - 1] == tag then [] else [tags[|tags| - 1]])
  }

  /** Each `tag` becomes `newTag` in its place; of equal tags the first stays. */
  function Renamed(tags: seq<string>, tag: string, newTag: string): seq<string> {
    if tags == [] then []
    else
      var done := Renamed(tags[..|tags| - 1], tag, newTag);
      var name := if tags[|tags| - 1] == tag then newTag else tags[|tags| - 1];
      if name in done then done else done + [name]
  }

  /** One item's tags after a rename: same places, one copy of each. */
  method RenameTags(tags: seq<string>, tag: string, newTag: string) returns (renamed: seq<string>)
    ensures renamed == Renamed(tags, tag, newTag)
  {
    renamed := [];
    for i := 0 to |tags|
      invariant renamed == Renamed(tags[..i], tag, newTag)
    {
      assert tags[..i + 1][..i] == tags[..i];
      var name := if tags[i] == tag then newTag else tags[i];
      if name !in renamed { renamed := renamed + [name]; }
    }
    assert tags[..|tags|] == tags;
  }

  function Replaced(tags: seq<string>, tag: string, newTag: string): seq<string> {
    if tags == [] then []
    else Replaced(tags[..|tags| - 1], tag, newTag) + [if tags[|tags| - 1] == tag then newTag else tags[|tags| - 1]]
  }

  /** Python: `{tag: index for index, tag in enumerate(tags)}.get(tag, len(tags))`. */
  function DictRank(tags: seq<string>, tag: string, missing: nat): nat {
    if tags == [] then missing
    else if tags[|tags| - 1] == tag then |tags| - 1
    else DictRank(tags[..|tags| - 1], tag, missing)
  }

  /** JavaScript: `tags.indexOf(tag)`, with the length when missing. */
  function IndexRank(tags: seq<string>, tag: string): nat {
    if tags == [] || tags[0] == tag then 0 else 1 + IndexRank(tags[1..], tag)
  }

  /** The first tag of the lowest rank (`min` with a key, and the page's `reduce`). */
  function First(tags: seq<string>, rank: string -> nat): string
    requires tags != []
  {
    if |tags| == 1 then tags[0]
    else
      var best := First(tags[..|tags| - 1], rank);
      if rank(tags[|tags| - 1]) < rank(best) then tags[|tags| - 1] else best
  }

  lemma DistinctSnoc(tags: seq<string>, tag: string)
    requires Distinct(tags)
    ensures Distinct(tags + [tag]) <==> tag !in tags
  {
    if tag in tags {
      var i :| 0 <= i < |tags| && tags[i] == tag;
      assert (tags + [tag])[i] == (tags + [tag])[|tags|];
    }
  }

  lemma {:induction false} WithoutMembers(tags: seq<string>, tag: string)
    ensures forall t :: t in Without(tags, tag) <==> t in tags && t != tag
    ensures |Without(tags, tag)| <= |tags| && (tag !in tags ==> Without(tags, tag) == tags)
  {
    if tags != [] {
      WithoutMembers(tags[..|tags| - 1], tag);
      assert tags == tags[..|tags| - 1] + [tags[|tags| - 1]];
    }
  }

  lemma {:induction false} WithoutShape(tags: seq<string>, tag: string)
    ensures forall t :: t in Without(tags, tag) <==> t in tags && t != tag
    ensures |Without(tags, tag)| <= |tags|
    ensures tag !in tags ==> Without(tags, tag) == tags
    ensures Distinct(tags) ==> Distinct(Without(tags, tag))
    ensures Sorted(tags) ==> Sorted(Without(tags, tag))
  {
    WithoutMembers(tags, tag);
    if tags != [] {
      hide Distinct, Sorted;
      var rest, last := tags[..|tags| - 1], tags[|tags| - 1];
      WithoutShape(rest, tag);
      assert tags == rest + [last];
      if Distinct(tags) {
        SnocDistinct(rest, last);
        DistinctSnoc(Without(rest, tag), last);
      }
      if Sorted(tags) { SortedSnoc(rest, last, Without(rest, tag)); }
    }
  }

  lemma SnocDistinct(rest: seq<string>, last: string)
    requires Distinct(rest + [last])
    ensures Distinct(rest) && last !in rest
  {
    var tags := rest + [last];
    forall i | 0 <= i < |rest| ensures rest[i] != last { assert tags[i] != tags[|rest|]; }
    forall i, j | 0 <= i < j < |rest| ensures rest[i] != rest[j] { assert tags[i] != tags[j]; }
  }

  lemma SortedSnoc(rest: seq<string>, last: string, part: seq<string>)
    requires Sorted(rest + [last])
    ensures Sorted(rest) && (Sorted(part) && (forall t :: t in part ==> t in rest) ==> Sorted(part + [last]))
  {
    var tags := rest + [last];
    forall i, j | 0 <= i < j < |rest| ensures TagLeq(rest[i], rest[j]) { assert TagLeq(tags[i], tags[j]); }
    forall t | t in rest ensures TagLeq(t, last) {
      var i :| 0 <= i < |rest| && rest[i] == t;
      assert TagLeq(tags[i], tags[|rest|]);
    }
  }

  lemma {:induction false} RenamedShape(tags: seq<string>, tag: string, newTag: string)
    ensures Distinct(Renamed(tags, tag, newTag))
    ensures forall t :: t in Renamed(tags, tag, newTag) <==> (t != tag && t in tags) || (t == newTag && tag in tags)
  {
    if tags != [] {
      RenamedShape(tags[..|tags| - 1], tag, newTag);
      assert tags == tags[..|tags| - 1] + [tags[|tags| - 1]];
    }
  }

  /** Renaming a tag to itself removes repeats, and does nothing else. */
  lemma {:induction false} RenamedToItself(tags: seq<string>, tag: string)
    ensures Renamed(tags, tag, tag) == tags <==> Distinct(tags)
  {
    RenamedShape(tags, tag, tag);
    if tags != [] && Distinct(tags) {
      RenamedToItself(tags[..|tags| - 1], tag);
      assert tags == tags[..|tags| - 1] + [tags[|tags| - 1]];
    }
  }

  lemma {:induction false} RenamedTwice(tags: seq<string>, tag: string, newTag: string)
    requires tag == newTag
    ensures Renamed(Renamed(tags, tag, newTag), tag, newTag) == Renamed(tags, tag, newTag)
  {
    RenamedShape(tags, tag, newTag);
    RenamedToItself(Renamed(tags, tag, newTag), tag);
  }

  lemma {:induction false} ReplacedShape(tags: seq<string>, tag: string, newTag: string)
    ensures |Replaced(tags, tag, newTag)| == |tags|
    ensures forall i :: 0 <= i < |tags| ==> Replaced(tags, tag, newTag)[i] == if tags[i] == tag then newTag else tags[i]
  {
    if tags != [] { ReplacedShape(tags[..|tags| - 1], tag, newTag); }
  }

  /** Renaming the list's own tag keeps the tags distinct, and puts the new name in. */
  lemma ReplacedTags(tags: seq<string>, tag: string, newTag: string)
    requires Distinct(tags) && tag in tags && newTag !in tags
    ensures Distinct(Replaced(tags, tag, newTag))
    ensures forall t :: t in Replaced(tags, tag, newTag) <==> t == newTag || (t in tags && t != tag)
  {
    ReplacedShape(tags, tag, newTag);
    var r := Replaced(tags, tag, newTag);
    var k :| 0 <= k < |tags| && tags[k] == tag;
    assert r[k] == newTag;
    forall t ensures t in r <==> t == newTag || (t in tags && t != tag) {
      if t in tags && t != tag {
        var i :| 0 <= i < |tags| && tags[i] == t;
        assert r[i] == t;
      }
    }
  }

  lemma {:induction false} RanksAgree(tags: seq<string>, tag: string, missing: nat)
    requires Distinct(tags)
    ensures DictRank(tags, tag, missing) == if tag in tags then IndexRank(tags, tag) else missing
    ensures IndexRank(tags, tag) <= |tags|
    ensures tag !in tags ==> IndexRank(tags, tag) == |tags|
  {
    if tags != [] {
      var rest, last := tags[..|tags| - 1], tags[|tags| - 1];
      RanksAgree(rest, tag, missing);
      IndexSnoc(rest, last, tag);
      assert tags == rest + [last];
    }
  }

  lemma {:induction false} IndexSnoc(rest: seq<string>, last: string, tag: string)
    ensures IndexRank(rest + [last], tag) ==
      if tag in rest then IndexRank(rest, tag) else if last == tag then |rest| else |rest| + 1
  {
    if rest == [] {
      assert rest + [last] == [last];
    } else {
      assert (rest + [last])[1..] == rest[1..] + [last];
      IndexSnoc(rest[1..], last, tag);
      assert rest == [rest[0]] + rest[1..];
    }
  }

  lemma {:induction false} FirstAgrees(tags: seq<string>, a: string -> nat, b: string -> nat)
    requires tags != [] && forall t :: a(t) == b(t)
    ensures First(tags, a) == First(tags, b)
  {
    if |tags| > 1 { FirstAgrees(tags[..|tags| - 1], a, b); }
  }

  /** `First` is the minimum, and the earliest one. */
  lemma {:induction false} FirstIsMinimum(tags: seq<string>, rank: string -> nat)
    requires tags != []
    ensures exists i :: 0 <= i < |tags| && tags[i] == First(tags, rank) && IsFirstMinimum(tags, rank, i)
  {
    if |tags| > 1 {
      var rest, n := tags[..|tags| - 1], |tags| - 1;
      FirstIsMinimum(rest, rank);
      var i :| 0 <= i < |rest| && rest[i] == First(rest, rank) && IsFirstMinimum(rest, rank, i);
      assert forall j :: 0 <= j < n ==> tags[j] == rest[j];
      if rank(tags[n]) < rank(rest[i]) {
        assert IsFirstMinimum(tags, rank, n);
      } else {
        assert IsFirstMinimum(tags, rank, i);
      }
    } else {
      assert IsFirstMinimum(tags, rank, 0);
    }
  }

  ghost predicate IsFirstMinimum(tags: seq<string>, rank: string -> nat, i: nat)
    requires i < |tags|
  {
    && (forall j :: 0 <= j < |tags| ==> rank(tags[i]) <= rank(tags[j]))
    && (forall j :: 0 <= j < i ==> rank(tags[i]) < rank(tags[j]))
  }
}
