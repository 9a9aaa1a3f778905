/**
  Wall-clock times in a zone, resolved to instants (src/reminders/zoned_time.py). Instants and
  wall times are whole seconds; a zone is its offsets and the instants where they change.
 */
module ZonedTime {
  function Larger(a: int, b: int): int { if a < b then b else a }
  function Smaller(a: int, b: int): int { if a < b then a else b }
  function Jump(a: int, b: int): int { if a < b then b - a else a - b }

  /** `offsets[i]` holds before `changes[i]`, `offsets[i + 1]` from it on. */
  datatype Zone = Zone(offsets: seq<int>, changes: seq<int>)

  /** Changes are further apart than the jumps at either of them. */
  ghost predicate Valid(z: Zone) {
    && |z.offsets| == |z.changes| + 1
    && (forall i :: 0 <= i < |z.changes| - 1 ==> Apart(z, i))
  }

  predicate Apart(z: Zone, i: int)
    requires |z.offsets| == |z.changes| + 1 && 0 <= i < |z.changes| - 1
  {
    z.changes[i + 1] - z.changes[i] > Larger(Jump(z.offsets[i], z.offsets[i + 1]),
      Jump(z.offsets[i + 1], z.offsets[i + 2]))
  }

  /** How many of the first `n` values are at or before `x` (`bisect_right`). */
  function Passed(values: seq<int>, x: int): nat {
    if values == [] then 0
    else if values[|values| - 1] <= x then |values|
    else Passed(values[..|values| - 1], x)
  }

  lemma {:induction false} PassedIs(values: seq<int>, x: int)
    ensures Passed(values, x) <= |values|
    ensures Passed(values, x) > 0 ==> values[Passed(values, x) - 1] <= x
    ensures forall i :: Passed(values, x) <= i < |values| ==> x < values[i]
  {
    if values != [] && values[|values| - 1] > x { PassedIs(values[..|values| - 1], x); }
  }

  lemma PassedAt(values: seq<int>, x: int, n: nat)
    requires n <= |values| && (forall i, j :: 0 <= i < j < |values| ==> values[i] < values[j])
    requires (n > 0 ==> values[n - 1] <= x) && (n < |values| ==> x < values[n])
    ensures Passed(values, x) == n
  {
    PassedIs(values, x);
  }

  // What a zone shows

  function OffsetAt(z: Zone, u: int): int
    requires |z.offsets| == |z.changes| + 1
  {
    PassedIs(z.changes, u);
    z.offsets[Passed(z.changes, u)]
  }

  function WallShown(z: Zone, u: int): int
    requires |z.offsets| == |z.changes| + 1
  {
    u + OffsetAt(z, u)
  }

  /**
    The wall times from which the next offset counts, by PEP 495: the later reading of a change for
    fold 0, the earlier for fold 1.
   */
  function WallChanges(z: Zone, fold: nat): seq<int>
    requires |z.offsets| == |z.changes| + 1
  {
    seq(|z.changes|, i requires 0 <= i < |z.changes| =>
      z.changes[i] + if fold == 0 then Larger(z.offsets[i], z.offsets[i + 1])
        else Smaller(z.offsets[i], z.offsets[i + 1]))
  }

  /** `datetime.utcoffset()` of a wall time. */
  function WallOffset(z: Zone, w: int, fold: nat): int
    requires |z.offsets| == |z.changes| + 1
  {
    PassedIs(WallChanges(z, fold), w);
    z.offsets[Passed(WallChanges(z, fold), w)]
  }

  predicate Rises(values: seq<int>, k: int)
    requires 0 <= k < |values| - 1
  {
    values[k] < values[k + 1]
  }

  lemma {:induction false} Increasing(values: seq<int>, i: nat, j: nat)
    requires i < j < |values| && forall k :: 0 <= k < |values| - 1 ==> Rises(values, k)
    ensures values[i] < values[j]
    decreases j
  {
    assert Rises(values, j - 1);
    if i < j - 1 { Increasing(values, i, j - 1); }
  }

  lemma Ordered(z: Zone)
    requires Valid(z)
    ensures forall i, j :: 0 <= i < j < |z.changes| ==> z.changes[i] < z.changes[j]
    ensures forall i, j :: 0 <= i < j < |z.changes| ==> WallChanges(z, 0)[i] < WallChanges(z, 0)[j]
    ensures forall i, j :: 0 <= i < j < |z.changes| ==> WallChanges(z, 1)[i] < WallChanges(z, 1)[j]
  {
    forall i | 0 <= i < |z.changes| - 1
      ensures Rises(z.changes, i) && Rises(WallChanges(z, 0), i) && Rises(WallChanges(z, 1), i)
    {
      assert Apart(z, i);
    }
    forall i, j | 0 <= i < j < |z.changes| ensures z.changes[i] < z.changes[j] { Increasing(z.changes, i, j); }
    forall i, j | 0 <= i < j < |z.changes| ensures WallChanges(z, 0)[i] < WallChanges(z, 0)[j] {
      Increasing(WallChanges(z, 0), i, j);
    }
    forall i, j | 0 <= i < j < |z.changes| ensures WallChanges(z, 1)[i] < WallChanges(z, 1)[j] {
      Increasing(WallChanges(z, 1), i, j);
    }
  }

  // The resolver

  /** The first instant whose shown local time is at or after `w`. */
  ghost predicate First(z: Zone, w: int, u: int)
    requires |z.offsets| == |z.changes| + 1
  {
    WallShown(z, u) >= w && forall x :: x < u ==> WallShown(z, x) < w
  }

  /** The stretch between two changes that an instant is in. */
  lemma InStretch(z: Zone, u: int, i: nat)
    requires Valid(z) && i <= |z.changes| && (i > 0 ==> z.changes[i - 1] <= u) && (i < |z.changes| ==> u < z.changes[i])
    ensures OffsetAt(z, u) == z.offsets[i]
  {
    Ordered(z);
    PassedAt(z.changes, u, i);
  }

  /** Everything before the stretch of the wall time shows less. */
  lemma EarlierShowsLess(z: Zone, w: int, i: nat, x: int)
    requires Valid(z) && i == Passed(WallChanges(z, 0), w) && i <= |z.changes|
    requires i > 0 && x < z.changes[i - 1]
    ensures WallShown(z, x) < w
  {
    Ordered(z);
    PassedIs(WallChanges(z, 0), w);
    PassedIs(z.changes, x);
    var j := Passed(z.changes, x);
    assert j <= i - 1;
    assert WallChanges(z, 0)[j] == z.changes[j] + Larger(z.offsets[j], z.offsets[j + 1]);
    assert x < z.changes[j];
  }

  lemma GapBounds(z: Zone, w: int, i: nat)
    requires Valid(z) && i == Passed(WallChanges(z, 0), w) && i < |z.changes| && w - z.offsets[i] >= z.changes[i]
    ensures z.offsets[i] < z.offsets[i + 1] && z.changes[i] + z.offsets[i] <= w < z.changes[i] + z.offsets[i + 1]
    ensures i > 0 ==> z.changes[i - 1] <= w - z.offsets[i + 1]
    ensures i + 1 < |z.changes| ==>
      w - z.offsets[i] < z.changes[i + 1] && w < z.changes[i + 1] + Smaller(z.offsets[i + 1], z.offsets[i + 2])
  {
    PassedIs(WallChanges(z, 0), w);
    assert WallChanges(z, 0)[i] == z.changes[i] + Larger(z.offsets[i], z.offsets[i + 1]);
    assert (i + 1 < |z.changes| ==> Apart(z, i)) && (i > 0 ==> Apart(z, i - 1));
  }

  /** In a gap fold 1 gives the offset after the change, which is between the two candidates. */
  lemma Gap(z: Zone, w: int, i: nat)
    requires Valid(z) && i == Passed(WallChanges(z, 0), w) && i < |z.changes| && w - z.offsets[i] >= z.changes[i]
    ensures z.offsets[i] < z.offsets[i + 1] && w < z.changes[i] + z.offsets[i + 1]
      && w - z.offsets[i + 1] < z.changes[i]
    ensures OffsetAt(z, w - z.offsets[i]) == z.offsets[i + 1] && WallOffset(z, w, 1) == z.offsets[i + 1]
    ensures forall x :: w - z.offsets[i + 1] <= x <= w - z.offsets[i] ==>
      (OffsetAt(z, x) == z.offsets[i + 1] <==> x >= z.changes[i])
  {
    GapBounds(z, w, i);
    LaterFold(z, w, i);
    hide Passed, Apart, Larger, Smaller;
    InStretch(z, w - z.offsets[i], i + 1);
    forall x | w - z.offsets[i + 1] <= x <= w - z.offsets[i]
      ensures OffsetAt(z, x) == z.offsets[i + 1] <==> x >= z.changes[i]
    {
      InStretch(z, x, if x >= z.changes[i] then i + 1 else i);
    }
    hide OffsetAt;
  }

  lemma LaterFold(z: Zone, w: int, i: nat)
    requires Valid(z) && i < |z.changes| && z.offsets[i] < z.offsets[i + 1] && z.changes[i] + z.offsets[i] <= w
    requires i + 1 < |z.changes| ==> w < z.changes[i + 1] + Smaller(z.offsets[i + 1], z.offsets[i + 2])
    ensures WallOffset(z, w, 1) == z.offsets[i + 1]
  {
    Ordered(z);
    hide Passed, Apart;
    PassedAt(WallChanges(z, 1), w, i + 1);
  }

  /** The first second of a range that has the offset its end has. */
  method FirstSecondWithOffset(z: Zone, low: int, high: int, offset: int, ghost change: int) returns (first: int)
    requires |z.offsets| == |z.changes| + 1 && low < change <= high
    requires forall x :: low <= x <= high ==> (OffsetAt(z, x) == offset <==> x >= change)
    ensures first == change
  {
    var last := high;
    first := low;
    while first < last
      invariant low <= first <= change <= last <= high
    {
      var middle := (first + last) / 2;
      if OffsetAt(z, middle) == offset { last := middle; } else { first := middle + 1; }
    }
  }

  /** The instant at which the zone first shows `w`; in a gap, the first instant after it. */
  method ResolveWallTime(z: Zone, w: int) returns (u: int)
    requires Valid(z)
    ensures First(z, w, u)
  {
    PassedIs(WallChanges(z, 0), w);
    ghost var i := Passed(WallChanges(z, 0), w);
    var earlier := WallOffset(z, w, 0);
    u := w - earlier;
    Resolved(z, w);
    if WallShown(z, u) == w { return; }
    var later := WallOffset(z, w, 1);
    Gap(z, w, i);
    u := FirstSecondWithOffset(z, w - later, w - earlier, later, z.changes[i]);
  }

  /** The candidate is right unless it falls in the gap after its stretch. */
  lemma Resolved(z: Zone, w: int)
    requires Valid(z)
    ensures var i := Passed(WallChanges(z, 0), w); i <= |z.changes|
    ensures var i := Passed(WallChanges(z, 0), w);
      var u := w - z.offsets[i];
      if i < |z.changes| && u >= z.changes[i] then WallShown(z, u) != w && First(z, w, z.changes[i])
          else WallShown(z, u) == w && First(z, w, u)
  {
    PassedIs(WallChanges(z, 0), w);
    var i := Passed(WallChanges(z, 0), w);
    var u := w - z.offsets[i];
    if i > 0 { assert WallChanges(z, 0)[i - 1] == z.changes[i - 1] + Larger(z.offsets[i - 1], z.offsets[i]); }
    var inGap := i < |z.changes| && u >= z.changes[i];
    var r := if inGap then z.changes[i] else u;
    if inGap {
      Gap(z, w, i);
      AfterGap(z, i);
    } else {
      InStretch(z, u, i);
    }
    forall x | x < r ensures WallShown(z, x) < w {
      if i > 0 && x < z.changes[i - 1] { EarlierShowsLess(z, w, i, x); } else { InStretch(z, x, i); }
    }
  }

  lemma AfterGap(z: Zone, i: nat)
    requires Valid(z) && i < |z.changes|
    ensures OffsetAt(z, z.changes[i]) == z.offsets[i + 1]
  {
    Ordered(z);
    InStretch(z, z.changes[i], i + 1);
  }

  // What follows for callers

  /** There is one such instant, so `First` says everything about the answer. */
  lemma FirstIsOne(z: Zone, w: int, u: int, v: int)
    requires |z.offsets| == |z.changes| + 1 && First(z, w, u) && First(z, w, v)
    ensures u == v
  {
    ResolveMonotone(z, w, w, u, v);
    ResolveMonotone(z, w, w, v, u);
  }

  /** A later wall time never resolves to an earlier instant. */
  lemma ResolveMonotone(z: Zone, w: int, later: int, u: int, v: int)
    requires |z.offsets| == |z.changes| + 1 && w <= later && First(z, w, u) && First(z, later, v)
    ensures u <= v
  {
    assert WallShown(z, v) >= w;
  }

  /** A wall time the zone shows resolves to its first showing; one in a gap to the end of the gap. */
  lemma ShownOrGap(z: Zone, w: int, u: int)
    requires Valid(z) && First(z, w, u)
    ensures (exists x :: WallShown(z, x) == w) <==> WallShown(z, u) == w
    ensures WallShown(z, u) != w ==> u in z.changes
  {
    Resolved(z, w);
    var i := Passed(WallChanges(z, 0), w);
    var c := w - z.offsets[i];
    FirstIsOne(z, w, u, if i < |z.changes| && c >= z.changes[i] then z.changes[i] else c);
    if WallShown(z, u) != w {
      Gap(z, w, i);
      AfterGap(z, i);
      forall x ensures WallShown(z, x) != w { AfterShowsMore(z, w, i, x); }
    }
  }

  /** In a gap: before it less is shown, after it more. */
  lemma AfterShowsMore(z: Zone, w: int, i: nat, x: int)
    requires Valid(z) && i < |z.changes| && First(z, w, z.changes[i]) && w < z.changes[i] + z.offsets[i + 1]
    ensures WallShown(z, x) != w
  {
    if x >= z.changes[i] {
      Ordered(z);
      PassedIs(z.changes, x);
      var j := Passed(z.changes, x);
      assert j >= i + 1;
      ShowsAtLeast(z, i, j);
    }
  }

  /** Each change shows more than an earlier one does. */
  lemma {:induction false} ShowsAtLeast(z: Zone, i: nat, j: nat)
    requires Valid(z) && i < j <= |z.changes|
    ensures z.changes[j - 1] + z.offsets[j] >= z.changes[i] + z.offsets[i + 1]
    decreases j
  {
    if i + 1 < j {
      assert Apart(z, j - 2);
      ShowsAtLeast(z, i, j - 1);
    }
  }

  datatype Unit = Minutes | Hours | Days | Weeks

  const DAY := 86_400

  /** Minutes and hours are elapsed time; days and weeks are calendar days. */
  method ReminderInstant(z: Zone, w: int, unit: Unit, amount: nat) returns (u: int)
    requires Valid(z)
    ensures match unit
      case Minutes => First(z, w, u + 60 * amount)
      case Hours => First(z, w, u + 3600 * amount)
      case Days => First(z, w - DAY * amount, u)
      case Weeks => First(z, w - DAY * 7 * amount, u)
  {
    match unit {
      case Minutes => var anchor := ResolveWallTime(z, w); u := anchor - 60 * amount;
      case Hours => var anchor := ResolveWallTime(z, w); u := anchor - 60 * (amount * 60);
      case Days => u := ResolveWallTime(z, w - DAY * amount);
      case Weeks => u := ResolveWallTime(z, w - DAY * (amount * 7));
    }
  }
}
