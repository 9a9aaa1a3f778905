/**
  The sign-in limit (src/sign_in_limiter.py) with the API's buckets (src/api/sign_in_limit.py):
  an attempt takes a slot in each of its buckets and a successful one gives them back.
 */
module SignIn {
  import opened RoomModel

  datatype Key = Room(slug: string) | AllRooms | Admin

  /** What signs in: a room (its bucket and the all-rooms bucket) or the admin. */
  datatype Layout = RoomSignIn(slug: string) | AdminSignIn

  datatype Attempt = Attempt(layout: Layout, stamp: real)

  const WINDOW: real := 60.0
  const ROOM_LIMIT: nat := 10
  const ALL_ROOMS_LIMIT: nat := 30
  const ADMIN_LIMIT: nat := 10

  function Limit(k: Key): nat {
    match k
    case Room(_) => ROOM_LIMIT
    case AllRooms => ALL_ROOMS_LIMIT
    case Admin => ADMIN_LIMIT
  }

  function Keys(layout: Layout): seq<Key> {
    match layout
    case RoomSignIn(slug) => [Room(slug), AllRooms]
    case AdminSignIn => [Admin]
  }

  predicate Sorted(s: seq<real>) { forall i, j :: 0 <= i < j < |s| ==> s[i] <= s[j] }

  /** The stamps after the old ones at the front went. */
  function DropOld(s: seq<real>, cut: real): seq<real> { if s != [] && s[0] <= cut then DropOld(s[1..], cut) else s }

  function RemoveFirst(s: seq<real>, x: real): seq<real> {
    if s == [] then [] else if s[0] == x then s[1..] else [s[0]] + RemoveFirst(s[1..], x)
  }

  /** The stamps of the unreleased attempts on a bucket. */
  ghost function Stamps(attempts: seq<Attempt>, k: Key): seq<real> {
    if attempts == [] then []
    else
      var rest, a := Stamps(attempts[..|attempts| - 1], k), attempts[|attempts| - 1];
      if k in Keys(a.layout) then rest + [a.stamp] else rest
  }

  ghost function CountIn(s: seq<real>, after: real, to: real): nat {
    if s == [] then 0 else (if after < s[0] <= to then 1 else 0) + CountIn(s[1..], after, to)
  }

  /** The unreleased attempts on a bucket in the window that ends at `t`. */
  ghost function InWindow(attempts: seq<Attempt>, k: Key, t: real): nat { CountIn(Stamps(attempts, k), t - WINDOW, t) }

  function Purged(buckets: map<Key, seq<real>>, k: Key, cut: real): map<Key, seq<real>> {
    if k !in buckets then buckets
    else if DropOld(buckets[k], cut) == [] then buckets - {k}
    else buckets[k := DropOld(buckets[k], cut)]
  }

  function LiveStamps(buckets: map<Key, seq<real>>, k: Key, cut: real): seq<real> {
    if k in buckets then DropOld(buckets[k], cut) else []
  }
  function LiveCount(buckets: map<Key, seq<real>>, k: Key, cut: real): nat { |LiveStamps(buckets, k, cut)| }

  /** A slot is free in each bucket. */
  predicate Free(buckets: map<Key, seq<real>>, keys: seq<Key>, now: real) {
    forall k | k in keys :: LiveCount(buckets, k, now - WINDOW) < Limit(k)
  }

  /** How long until enough of a bucket's oldest stamps expire; 0 with a free slot. */
  function Wait(buckets: map<Key, seq<real>>, k: Key, now: real): real {
    if LiveCount(buckets, k, now - WINDOW) < Limit(k) then 0.0
    else var live := DropOld(buckets[k], now - WINDOW); live[|live| - Limit(k)] + WINDOW - now
  }

  function MaxReal(a: real, b: real): real { if a < b then b else a }

  function LargestWait(buckets: map<Key, seq<real>>, keys: seq<Key>, now: real): real {
    if keys == [] then 0.0
        else MaxReal(LargestWait(buckets, keys[..|keys| - 1], now), Wait(buckets, keys[|keys| - 1], now))
  }

  /** `max(1, math.ceil(wait))`. */
  function Seconds(wait: real): int { Max(1, -((-wait).Floor)) }

  // Sequences of stamps

  lemma {:induction false} DropOldShape(s: seq<real>, cut: real)
    ensures |DropOld(s, cut)| <= |s| && s[|s| - |DropOld(s, cut)|..] == DropOld(s, cut)
    ensures forall i :: 0 <= i < |s| - |DropOld(s, cut)| ==> s[i] <= cut
  {
    if s != [] && s[0] <= cut {
      DropOldShape(s[1..], cut);
      assert forall i :: 1 <= i < |s| ==> s[i] == s[1..][i - 1];
    }
  }

  lemma {:induction false} DropOldLater(s: seq<real>, cut: real, later: real)
    requires cut <= later
    ensures DropOld(DropOld(s, cut), later) == DropOld(s, later)
  {
    if s != [] && s[0] <= cut { DropOldLater(s[1..], cut, later); }
  }

  lemma {:induction false} DropOldSnoc(s: seq<real>, x: real, cut: real)
    ensures x > cut ==> DropOld(s + [x], cut) == DropOld(s, cut) + [x]
    ensures |DropOld(s + [x], cut)| >= |DropOld(s, cut)|
  {
    if s == [] {
      assert s + [x] == [x];
    } else {
      assert (s + [x])[1..] == s[1..] + [x];
      DropOldSnoc(s[1..], x, cut);
    }
  }

  lemma {:induction false} RemoveAbsent(s: seq<real>, x: real)
    requires x !in s
    ensures RemoveFirst(s, x) == s
  {
    if s != [] { RemoveAbsent(s[1..], x); }
  }

  lemma SortedTail(s: seq<real>)
    requires Sorted(s) && s != []
    ensures Sorted(s[1..]) && forall x :: x in s ==> s[0] <= x
  {
  }

  lemma {:induction false} RemoveLast(s: seq<real>, x: real)
    requires Sorted(s + [x])
    ensures RemoveFirst(s + [x], x) == s
  {
    if s == [] {
      assert s + [x] == [x];
    } else {
      assert (s + [x])[1..] == s[1..] + [x];
      SortedTail(s + [x]);
      RemoveLast(s[1..], x);
      if s[0] == x { AllSame(s, x); }
    }
  }

  /** A sorted sequence between equal ends has one value. */
  lemma {:induction false} AllSame(s: seq<real>, x: real)
    requires s != [] && s[0] == x && Sorted(s + [x])
    ensures s[1..] + [x] == s
  {
    forall i | 0 <= i < |s| ensures s[i] == x { assert (s + [x])[0] <= (s + [x])[i] <= (s + [x])[|s|]; }
  }

  lemma {:induction false} RemoveSnoc(s: seq<real>, x: real, y: real)
    requires x in s
    ensures RemoveFirst(s + [y], x) == RemoveFirst(s, x) + [y]
  {
    assert (s + [y])[1..] == s[1..] + [y];
    if s[0] != x { RemoveSnoc(s[1..], x, y); }
  }

  lemma {:induction false} RemoveShape(s: seq<real>, x: real)
    requires Sorted(s)
    ensures Sorted(RemoveFirst(s, x)) && forall y :: y in RemoveFirst(s, x) ==> y in s
  {
    if s != [] {
      SortedTail(s);
      RemoveShape(s[1..], x);
      assert s == [s[0]] + s[1..];
      var r := RemoveFirst(s, x);
      if s[0] != x {
        assert r[1..] == RemoveFirst(s[1..], x);
        forall i, j | 0 <= i < j < |r| ensures r[i] <= r[j] {
          assert r[j] == r[1..][j - 1] && r[1..][j - 1] in s[1..];
          if i > 0 { assert r[i] == r[1..][i - 1]; }
        }
      }
    }
  }

  lemma KeepAll(s: seq<real>, cut: real)
    requires forall x :: x in s ==> x > cut
    ensures DropOld(s, cut) == s
  {
    if s != [] { assert s[0] in s; }
  }

  lemma {:induction false} RemoveDrop(s: seq<real>, x: real, cut: real)
    requires Sorted(s)
    ensures RemoveFirst(DropOld(s, cut), x) == DropOld(RemoveFirst(s, x), cut)
  {
    if s != [] {
      SortedTail(s);
      RemoveDrop(s[1..], x, cut);
      RemoveShape(s, x);
      if s[0] <= cut {
        if s[0] == x {
          LiveAbove(s[1..], cut);
          RemoveAbsent(DropOld(s[1..], cut), x);
        }
      } else {
        KeepAll(RemoveFirst(s, x), cut);
      }
    }
  }

  lemma LiveAbove(s: seq<real>, cut: real)
    requires Sorted(s)
    ensures Sorted(DropOld(s, cut)) && forall x :: x in DropOld(s, cut) ==> x > cut && x in s
  {
    DropOldShape(s, cut);
    DropOldHead(s, cut);
    var d := DropOld(s, cut);
    forall i, j | 0 <= i < j < |d| ensures d[i] <= d[j] { assert s[|s| - |d| + i] <= s[|s| - |d| + j]; }
  }

  lemma {:induction false} DropOldHead(s: seq<real>, cut: real)
    ensures DropOld(s, cut) != [] ==> DropOld(s, cut)[0] > cut
  {
    if s != [] && s[0] <= cut { DropOldHead(s[1..], cut); }
  }

  lemma {:induction false} CountBound(s: seq<real>, cut: real, after: real, to: real)
    requires cut <= after
    ensures CountIn(s, after, to) <= |DropOld(s, cut)|
  {
    if s != [] && s[0] <= cut { CountBound(s[1..], cut, after, to); } else { CountSize(s, after, to); }
  }

  lemma {:induction false} CountSize(s: seq<real>, after: real, to: real)
    ensures CountIn(s, after, to) <= |s|
    ensures (forall x :: x in s ==> after < x <= to) ==> CountIn(s, after, to) == |s|
  {
    if s != [] {
      CountSize(s[1..], after, to);
      assert s[0] in s && forall x :: x in s[1..] ==> x in s;
    }
  }

  lemma {:induction false} CountLive(s: seq<real>, after: real, to: real)
    requires Sorted(s) && forall x :: x in s ==> x <= to
    ensures CountIn(s, after, to) == |DropOld(s, after)|
  {
    if s != [] {
      SortedTail(s);
      assert s[0] in s && forall x :: x in s[1..] ==> x in s;
      if s[0] <= after { CountLive(s[1..], after, to); } else { CountSize(s, after, to); }
    }
  }

  lemma {:induction false} CountSnoc(s: seq<real>, x: real, after: real, to: real)
    ensures CountIn(s + [x], after, to) == CountIn(s, after, to) + if after < x <= to then 1 else 0
  {
    if s == [] {
      assert s + [x] == [x];
    } else {
      assert (s + [x])[1..] == s[1..] + [x];
      CountSnoc(s[1..], x, after, to);
    }
  }

  lemma {:induction false} CountRemoved(s: seq<real>, x: real, after: real, to: real)
    ensures CountIn(RemoveFirst(s, x), after, to) <= CountIn(s, after, to)
  {
    if s != [] && s[0] != x {
      CountRemoved(s[1..], x, after, to);
      assert RemoveFirst(s, x)[1..] == RemoveFirst(s[1..], x);
    }
  }

  // Attempts and buckets

  /** In the order they were made, up to `last`. */
  ghost predicate InOrder(attempts: seq<Attempt>, last: real) {
    (forall i, j :: 0 <= i < j < |attempts| ==> attempts[i].stamp <= attempts[j].stamp) && forall a ::
      a in attempts ==> a.stamp <= last
  }

  lemma {:induction false} StampsSorted(attempts: seq<Attempt>, k: Key, last: real)
    requires InOrder(attempts, last)
    ensures Sorted(Stamps(attempts, k)) && forall x :: x in Stamps(attempts, k) ==> x <= last
  {
    if attempts != [] {
      var rest := attempts[..|attempts| - 1];
      assert forall i :: 0 <= i < |rest| ==> rest[i] == attempts[i];
      var x := attempts[|attempts| - 1];
      StampsSorted(rest, k, x.stamp);
      assert x in attempts;
      var t := Stamps(attempts, k);
      forall i, j | 0 <= i < j < |t| ensures t[i] <= t[j] {
        if j == |t| - 1 && k in Keys(x.layout) { assert t[i] in Stamps(rest, k); }
      }
    }
  }

  lemma StampsSnoc(attempts: seq<Attempt>, a: Attempt, k: Key)
    ensures Stamps(attempts + [a], k) == if k in Keys(a.layout) then Stamps(attempts, k) + [a.stamp]
      else Stamps(attempts, k)
  {
    assert (attempts + [a])[..|attempts|] == attempts;
  }

  /** A bucket holds the stamps of its unreleased attempts but for some that left the window; an empty one goes. */
  ghost predicate KeyOk(attempts: seq<Attempt>, buckets: map<Key, seq<real>>, k: Key, last: real) {
    if k in buckets then exists cut :: cut <= last - WINDOW && HoldsAfter(attempts, buckets[k], k, cut)
    else DropOld(Stamps(attempts, k), last - WINDOW) == []
  }

  ghost predicate HoldsAfter(attempts: seq<Attempt>, s: seq<real>, k: Key, cut: real) {
    s != [] && s == DropOld(Stamps(attempts, k), cut)
  }

  /** No window of WINDOW seconds has more unreleased attempts than the bucket's limit. */
  ghost predicate Bounded(attempts: seq<Attempt>, k: Key) { forall t: real :: InWindow(attempts, k, t) <= Limit(k) }

  /** The live stamps of a bucket are those of its unreleased attempts in the window. */
  lemma LiveIsTaken(attempts: seq<Attempt>, buckets: map<Key, seq<real>>, k: Key, last: real, now: real)
    requires KeyOk(attempts, buckets, k, last) && last <= now
    ensures LiveCount(buckets, k, now - WINDOW) == |DropOld(Stamps(attempts, k), now - WINDOW)|
    ensures k in buckets ==> DropOld(buckets[k], now - WINDOW) == DropOld(Stamps(attempts, k), now - WINDOW)
  {
    if k in buckets {
      var cut :| cut <= last - WINDOW && HoldsAfter(attempts, buckets[k], k, cut);
      DropOldLater(Stamps(attempts, k), cut, now - WINDOW);
    } else {
      DropOldLater(Stamps(attempts, k), last - WINDOW, now - WINDOW);
    }
  }

  /** What a limit counts: the attempts on one room, on all rooms, or of the admin. */
  predicate On(layout: Layout, k: Key) {
    match k
    case Room(slug) => layout == RoomSignIn(slug)
    case AllRooms => layout.RoomSignIn?
    case Admin => layout.AdminSignIn?
  }

  /** The unreleased attempts of the last minute. */
  ghost function Recent(attempts: seq<Attempt>, k: Key, now: real): nat {
    if attempts == [] then 0
    else
      var a := attempts[|attempts| - 1];
      Recent(attempts[..|attempts| - 1], k, now) + if On(a.layout, k) && a.stamp > now - 60.0 then 1 else 0
  }

  /** Fewer than 10 on the room and than 30 on all rooms, or fewer than 10 of the admin. */
  ghost predicate MayTry(attempts: seq<Attempt>, layout: Layout, now: real) {
    match layout
    case RoomSignIn(slug) => Recent(attempts, Room(slug), now) < 10 && Recent(attempts, AllRooms, now) < 30
    case AdminSignIn => Recent(attempts, Admin, now) < 10
  }

  lemma {:induction false} RecentIs(attempts: seq<Attempt>, k: Key, now: real)
    requires InOrder(attempts, now)
    ensures Recent(attempts, k, now) == CountIn(Stamps(attempts, k), now - WINDOW, now)
  {
    if attempts != [] {
      var rest, a := attempts[..|attempts| - 1], attempts[|attempts| - 1];
      assert a in attempts;
      RecentIs(rest, k, now);
      CountSnoc(Stamps(rest, k), a.stamp, now - WINDOW, now);
    }
  }

  lemma RecentLive(attempts: seq<Attempt>, buckets: map<Key, seq<real>>, k: Key, last: real, now: real)
    requires KeyOk(attempts, buckets, k, last) && InOrder(attempts, last) && last <= now
    ensures LiveCount(buckets, k, now - WINDOW) == Recent(attempts, k, now)
  {
    StampsSorted(attempts, k, last);
    CountLive(Stamps(attempts, k), now - WINDOW, now);
    LiveIsTaken(attempts, buckets, k, last, now);
    RecentIs(attempts, k, now);
  }

  lemma FreeIs(attempts: seq<Attempt>, buckets: map<Key, seq<real>>, layout: Layout, last: real, now: real)
    requires InOrder(attempts, last) && last <= now && forall k: Key :: KeyOk(attempts, buckets, k, last)
    ensures Free(buckets, Keys(layout), now) <==> MayTry(attempts, layout, now)
  {
    hide KeyOk, Recent, LiveStamps, LiveCount, InOrder;
    RecentLive(attempts, buckets, AllRooms, last, now);
    RecentLive(attempts, buckets, Admin, last, now);
    if layout.RoomSignIn? {
      RecentLive(attempts, buckets, Room(layout.slug), last, now);
      assert Room(layout.slug) in Keys(layout) && AllRooms in Keys(layout);
    } else {
      assert Admin in Keys(layout);
    }
  }

  lemma PurgedOk(attempts: seq<Attempt>, buckets: map<Key, seq<real>>, k: Key, last: real, now: real)
    requires KeyOk(attempts, buckets, k, last) && last <= now
    ensures var b := Purged(buckets, k, now - WINDOW);
      && KeyOk(attempts, b, k, now) && LiveCount(b, k, now - WINDOW) == LiveCount(buckets, k, now - WINDOW)
      && (k in b ==> b[k] == DropOld(Stamps(attempts, k), now - WINDOW))
  {
    LiveIsTaken(attempts, buckets, k, last, now);
    if k in buckets {
      DropOldLater(buckets[k], now - WINDOW, now - WINDOW);
      if DropOld(buckets[k], now - WINDOW) != [] {
        assert HoldsAfter(attempts, DropOld(buckets[k], now - WINDOW), k, now - WINDOW);
      }
    }
  }

  lemma LaterOk(attempts: seq<Attempt>, buckets: map<Key, seq<real>>, k: Key, last: real, now: real)
    requires KeyOk(attempts, buckets, k, last) && last <= now
    ensures KeyOk(attempts, buckets, k, now)
  {
    if k in buckets {
      var cut :| cut <= last - WINDOW && HoldsAfter(attempts, buckets[k], k, cut);
    } else {
      DropOldLater(Stamps(attempts, k), last - WINDOW, now - WINDOW);
    }
  }

  /** One more attempt: its stamp goes to the end of each of its buckets. */
  function Appended(buckets: map<Key, seq<real>>, k: Key, now: real): map<Key, seq<real>> {
    buckets[k := (if k in buckets then buckets[k] else []) + [now]]
  }

  lemma AppendedOk(attempts: seq<Attempt>, buckets: map<Key, seq<real>>, k: Key, a: Attempt)
    requires KeyOk(attempts, buckets, k, a.stamp)
    ensures KeyOk(attempts + [a], if k in Keys(a.layout) then Appended(buckets, k, a.stamp) else buckets, k, a.stamp)
  {
    StampsSnoc(attempts, a, k);
    if k in buckets {
      var cut :| cut <= a.stamp - WINDOW && HoldsAfter(attempts, buckets[k], k, cut);
      DropOldSnoc(Stamps(attempts, k), a.stamp, cut);
      assert HoldsAfter(attempts + [a], if k in Keys(a.layout) then buckets[k] + [a.stamp] else buckets[k], k, cut);
    } else if k in Keys(a.layout) {
      DropOldSnoc(Stamps(attempts, k), a.stamp, a.stamp - WINDOW);
      assert HoldsAfter(attempts + [a], [a.stamp], k, a.stamp - WINDOW);
    }
  }

  /** With a free slot, one more attempt keeps every window within the limit. */
  lemma AppendedBounded(attempts: seq<Attempt>, k: Key, a: Attempt)
    requires Bounded(attempts, k)
    requires k in Keys(a.layout) ==> |DropOld(Stamps(attempts, k), a.stamp - WINDOW)| < Limit(k)
    ensures Bounded(attempts + [a], k)
  {
    StampsSnoc(attempts, a, k);
    forall t: real ensures InWindow(attempts + [a], k, t) <= Limit(k) {
      assert InWindow(attempts, k, t) <= Limit(k);
      if k in Keys(a.layout) {
        CountSnoc(Stamps(attempts, k), a.stamp, t - WINDOW, t);
        if a.stamp <= t { CountBound(Stamps(attempts, k), a.stamp - WINDOW, t - WINDOW, t); }
      }
    }
  }

  // Giving slots back

  function WithoutAttempt(attempts: seq<Attempt>, a: Attempt): seq<Attempt> {
    if attempts == [] then []
    else if attempts[|attempts| - 1] == a then attempts[..|attempts| - 1]
    else WithoutAttempt(attempts[..|attempts| - 1], a) + [attempts[|attempts| - 1]]
  }

  lemma {:induction false} WithoutOrder(attempts: seq<Attempt>, a: Attempt, last: real)
    requires InOrder(attempts, last)
    ensures InOrder(WithoutAttempt(attempts, a), last) && forall x :: x in WithoutAttempt(attempts, a) ==> x in attempts
  {
    if attempts != [] {
      var rest := attempts[..|attempts| - 1];
      assert forall i :: 0 <= i < |rest| ==> rest[i] == attempts[i];
      WithoutOrder(rest, a, attempts[|attempts| - 1].stamp);
    }
  }

  lemma {:induction false} StampIsThere(attempts: seq<Attempt>, a: Attempt, k: Key)
    requires a in attempts && k in Keys(a.layout)
    ensures a.stamp in Stamps(attempts, k)
  {
    if attempts[|attempts| - 1] != a { StampIsThere(attempts[..|attempts| - 1], a, k); }
  }

  /** Released stamps leave the sequence of their bucket; equal stamps are as good as each other. */
  lemma {:induction false} StampsWithout(attempts: seq<Attempt>, a: Attempt, k: Key, last: real)
    requires a in attempts && InOrder(attempts, last)
    ensures Stamps(WithoutAttempt(attempts, a), k) == if k in Keys(a.layout)
      then RemoveFirst(Stamps(attempts, k), a.stamp) else Stamps(attempts, k)
  {
    var rest, x := attempts[..|attempts| - 1], attempts[|attempts| - 1];
    assert forall i :: 0 <= i < |rest| ==> rest[i] == attempts[i];
    StampsSorted(attempts, k, last);
    if x == a {
      if k in Keys(a.layout) { RemoveLast(Stamps(rest, k), a.stamp); }
    } else {
      StampsWithout(rest, a, k, x.stamp);
      StampsSnoc(WithoutAttempt(rest, a), x, k);
      if k in Keys(a.layout) {
        StampIsThere(rest, a, k);
        if k in Keys(x.layout) { RemoveSnoc(Stamps(rest, k), a.stamp, x.stamp); }
      }
    }
  }

  lemma ReleasedBounded(attempts: seq<Attempt>, a: Attempt, k: Key, last: real)
    requires Bounded(attempts, k) && a in attempts && InOrder(attempts, last)
    ensures Bounded(WithoutAttempt(attempts, a), k)
  {
    StampsWithout(attempts, a, k, last);
    forall t: real ensures InWindow(WithoutAttempt(attempts, a), k, t) <= Limit(k) {
      assert InWindow(attempts, k, t) <= Limit(k);
      CountRemoved(Stamps(attempts, k), a.stamp, t - WINDOW, t);
    }
  }

  function Released(buckets: map<Key, seq<real>>, k: Key, stamp: real): map<Key, seq<real>> {
    if k !in buckets then buckets
    else if RemoveFirst(buckets[k], stamp) == [] then buckets - {k}
    else buckets[k := RemoveFirst(buckets[k], stamp)]
  }

  lemma ReleasedOk(attempts: seq<Attempt>, buckets: map<Key, seq<real>>, k: Key, a: Attempt, last: real)
    requires KeyOk(attempts, buckets, k, last) && a in attempts && InOrder(attempts, last)
    ensures KeyOk(WithoutAttempt(attempts, a), if k in Keys(a.layout) then Released(buckets, k, a.stamp)
      else buckets, k, last)
  {
    hide KeyOk, InOrder, WithoutAttempt, Stamps, Sorted, RemoveFirst, Released;
    StampsWithout(attempts, a, k, last);
    StampsSorted(attempts, k, last);
    if k in Keys(a.layout) {
      ReleasedBucketOk(attempts, WithoutAttempt(attempts, a), buckets, k, a.stamp, last);
    } else {
      SameStampsOk(attempts, WithoutAttempt(attempts, a), buckets, k, last);
    }
  }

  lemma ReleasedBucketOk(attempts: seq<Attempt>, after: seq<Attempt>, buckets: map<Key, seq<real>>, k: Key, stamp: real,
      last: real)
    requires KeyOk(attempts, buckets, k, last) && Sorted(Stamps(attempts, k))
      && Stamps(after, k) == RemoveFirst(Stamps(attempts, k), stamp)
    ensures KeyOk(after, Released(buckets, k, stamp), k, last)
  {
    hide Stamps, Sorted, RemoveFirst, DropOld;
    if k in buckets {
      var cut :| cut <= last - WINDOW && HoldsAfter(attempts, buckets[k], k, cut);
      RemoveDrop(Stamps(attempts, k), stamp, cut);
      hide KeyOk;
      RestOk(after, buckets, k, RemoveFirst(buckets[k], stamp), cut, last);
    } else {
      RemoveDrop(Stamps(attempts, k), stamp, last - WINDOW);
      RemoveAbsent([], stamp);
    }
  }

  lemma SameStampsOk(attempts: seq<Attempt>, after: seq<Attempt>, buckets: map<Key, seq<real>>, k: Key, last: real)
    requires KeyOk(attempts, buckets, k, last) && Stamps(after, k) == Stamps(attempts, k)
    ensures KeyOk(after, buckets, k, last)
  {
    hide Stamps, DropOld;
    if k in buckets {
      var cut :| cut <= last - WINDOW && HoldsAfter(attempts, buckets[k], k, cut);
      assert HoldsAfter(after, buckets[k], k, cut);
    }
  }

  lemma RestOk(after: seq<Attempt>, buckets: map<Key, seq<real>>, k: Key, rest: seq<real>, cut: real, last: real)
    requires rest == DropOld(Stamps(after, k), cut) && cut <= last - WINDOW
    ensures KeyOk(after, if rest == [] then buckets - {k} else buckets[k := rest], k, last)
  {
    hide Stamps, DropOld;
    if rest == [] {
      DropOldLater(Stamps(after, k), cut, last - WINDOW);
      DropNothing(last - WINDOW);
    } else {
      assert HoldsAfter(after, rest, k, cut);
    }
  }

  lemma DropNothing(cut: real)
    ensures DropOld([], cut) == []
  {
  }

  // Memory: live room buckets are at most the live all-rooms stamps

  ghost function LiveRooms(attempts: seq<Attempt>, cut: real): set<Key> {
    set a | a in attempts && a.layout.RoomSignIn? && a.stamp > cut :: Room(a.layout.slug)
  }

  lemma {:induction false} LiveRoomsBound(attempts: seq<Attempt>, cut: real)
    ensures |LiveRooms(attempts, cut)| <= |DropOld(Stamps(attempts, AllRooms), cut)|
  {
    if attempts != [] {
      var rest, last := attempts[..|attempts| - 1], attempts[|attempts| - 1];
      assert attempts == rest + [last];
      LiveRoomsBound(rest, cut);
      DropOldSnoc(Stamps(rest, AllRooms), last.stamp, cut);
      var more := if last.layout.RoomSignIn? && last.stamp > cut then {Room(last.layout.slug)} else {};
      assert LiveRooms(attempts, cut) == LiveRooms(rest, cut) + more;
      assert |LiveRooms(rest, cut) + more| <= |LiveRooms(rest, cut)| + |more|;
    }
  }

  lemma {:induction false} StampOfRoom(attempts: seq<Attempt>, k: Key, x: real)
    requires k.Room? && x in Stamps(attempts, k)
    ensures exists a :: a in attempts && a.layout == RoomSignIn(k.slug) && a.stamp == x
  {
    var rest, last := attempts[..|attempts| - 1], attempts[|attempts| - 1];
    assert attempts == rest + [last];
    if x in Stamps(rest, k) { StampOfRoom(rest, k, x); }
        else { assert last.layout == RoomSignIn(k.slug) && last.stamp == x; }
  }

  lemma LiveRoom(attempts: seq<Attempt>, k: Key, cut: real)
    requires k.Room? && DropOld(Stamps(attempts, k), cut) != []
    ensures k in LiveRooms(attempts, cut)
  {
    var s := Stamps(attempts, k);
    DropOldHead(s, cut);
    DropOldShape(s, cut);
    var x := DropOld(s, cut)[0];
    assert s[|s| - |DropOld(s, cut)|] == x;
    StampOfRoom(attempts, k, x);
    var a :| a in attempts && a.layout == RoomSignIn(k.slug) && a.stamp == x;
  }

  /** Buckets with a live stamp are few, as each live room bucket has an all-rooms stamp of its own. */
  lemma FewLiveBuckets(attempts: seq<Attempt>, live: set<Key>, now: real)
    requires (forall k :: k in live ==> DropOld(Stamps(attempts, k), now - WINDOW) != []) && Bounded(attempts, AllRooms)
      && InOrder(attempts, now)
    ensures |live| <= ALL_ROOMS_LIMIT + 2
  {
    var rooms := set k | k in live && k.Room?;
    forall k | k in rooms ensures k in LiveRooms(attempts, now - WINDOW) { LiveRoom(attempts, k, now - WINDOW); }
    LiveRoomsBound(attempts, now - WINDOW);
    StampsSorted(attempts, AllRooms, now);
    CountLive(Stamps(attempts, AllRooms), now - WINDOW, now);
    assert InWindow(attempts, AllRooms, now) <= Limit(AllRooms);
    FewerMembers(rooms, LiveRooms(attempts, now - WINDOW));
    assert live <= rooms + {AllRooms, Admin};
    FewerMembers(live, rooms + {AllRooms, Admin});
  }

  // The wait is tight

  /** Fewer than `limit` of sorted stamps are left once the one `limit` from the end is old. */
  lemma FewLeft(live: seq<real>, cut: real, limit: nat)
    requires Sorted(live) && 0 < limit <= |live|
    ensures |DropOld(live, cut)| < limit <==> live[|live| - limit] <= cut
  {
    var next := DropOld(live, cut);
    LiveAbove(live, cut);
    DropOldShape(live, cut);
    var i, gone := |live| - limit, |live| - |next|;
    if i >= gone {
      assert live[gone..][i - gone] == next[i - gone];
      assert next[i - gone] in next;
    }
  }

  lemma WaitIs(buckets: map<Key, seq<real>>, k: Key, now: real, later: real)
    requires (k in buckets ==> Sorted(buckets[k])) && now <= later
    ensures LiveCount(buckets, k, later - WINDOW) < Limit(k) <==>
      (LiveCount(buckets, k, now - WINDOW) < Limit(k) || later >= now + Wait(buckets, k, now))
  {
    if k in buckets {
      var live := DropOld(buckets[k], now - WINDOW);
      DropOldLater(buckets[k], now - WINDOW, later - WINDOW);
      LiveAbove(buckets[k], now - WINDOW);
      DropOldShape(live, later - WINDOW);
      if |live| >= Limit(k) { FewLeft(live, later - WINDOW, Limit(k)); }
    }
  }

  lemma {:induction false} LargestIs(buckets: map<Key, seq<real>>, keys: seq<Key>, now: real)
    ensures forall k :: k in keys ==> Wait(buckets, k, now) <= LargestWait(buckets, keys, now)
    ensures LargestWait(buckets, keys, now) == 0.0 || exists k ::
      k in keys && Wait(buckets, k, now) == LargestWait(buckets, keys, now)
    ensures LargestWait(buckets, keys, now) >= 0.0
  {
    if keys != [] {
      LargestIs(buckets, keys[..|keys| - 1], now);
      assert keys == keys[..|keys| - 1] + [keys[|keys| - 1]];
    }
  }

  /**
    After a refusal, with nothing else happening, an attempt on the same buckets is refused
    until the largest wait has passed, and free after the seconds returned, and no whole second earlier.
   */
  lemma TightWait(buckets: map<Key, seq<real>>, keys: seq<Key>, now: real, later: real)
    requires !Free(buckets, keys, now) && now <= later && forall k :: k in buckets ==> Sorted(buckets[k])
    ensures Free(buckets, keys, later) <==> later >= now + LargestWait(buckets, keys, now)
    ensures later >= now + Seconds(LargestWait(buckets, keys, now)) as real ==> Free(buckets, keys, later)
    ensures Seconds(LargestWait(buckets, keys, now)) >= 1
    ensures later <= now + Seconds(LargestWait(buckets, keys, now)) as real - 1.0 && later > now ==>
      !Free(buckets, keys, later)
  {
    LargestIs(buckets, keys, now);
    var w := LargestWait(buckets, keys, now);
    forall k | k in keys
      ensures LiveCount(buckets, k, later - WINDOW) < Limit(k) <==>
        LiveCount(buckets, k, now - WINDOW) < Limit(k) || later >= now + Wait(buckets, k, now)
    {
      WaitIs(buckets, k, now, later);
    }
    forall k | k in keys && LiveCount(buckets, k, now - WINDOW) >= Limit(k) ensures Wait(buckets, k, now) > 0.0 {
      FullWaits(buckets, k, now);
    }
  }

  lemma FullWaits(buckets: map<Key, seq<real>>, k: Key, now: real)
    requires LiveCount(buckets, k, now - WINDOW) >= Limit(k) && Sorted(buckets[k])
    ensures Wait(buckets, k, now) > 0.0
  {
    LiveAbove(buckets[k], now - WINDOW);
    var live := DropOld(buckets[k], now - WINDOW);
    assert live[|live| - Limit(k)] in live;
  }

  datatype Taken = Reserved(reservation: Attempt) | Refused(seconds: int)

  ghost predicate Listed(order: seq<Key>, buckets: map<Key, seq<real>>) {
    (forall k :: k in order <==> k in buckets) && forall i, j :: 0 <= i < j < |order| ==> order[i] != order[j]
  }

  /** The bucket is as before, or its expired stamps went. */
  ghost predicate Trimmed(was: map<Key, seq<real>>, buckets: map<Key, seq<real>>, k: Key, now: real) {
    SameBucket(was, buckets, k) || SameBucket(Purged(was, k, now - WINDOW), buckets, k)
  }

  predicate SameBucket(a: map<Key, seq<real>>, b: map<Key, seq<real>>, k: Key) {
    (k in a <==> k in b) && (k in a ==> a[k] == b[k])
  }

  lemma TrimmedOk(attempts: seq<Attempt>, was: map<Key, seq<real>>, buckets: map<Key, seq<real>>, k: Key, last: real,
      now: real)
    requires KeyOk(attempts, was, k, last) && last <= now && Trimmed(was, buckets, k, now)
    ensures KeyOk(attempts, buckets, k, now) && SlotsAfter(was, buckets, k, now, false)
  {
    LaterOk(attempts, was, k, last, now);
    PurgedOk(attempts, was, k, last, now);
    if k in was { DropOldLater(was[k], now - WINDOW, now - WINDOW); }
  }

  function LiveKeys(buckets: map<Key, seq<real>>, cut: real): set<Key> {
    set k | k in buckets && DropOld(buckets[k], cut) != []
  }

  class SignInLimiter {
    var buckets: map<Key, seq<real>>
    /** The keys of `buckets`, the oldest first. */
    var order: seq<Key>
    const maxBuckets: nat
    /** Attempts that still count, and the time of the last call. */
    ghost var attempts: seq<Attempt>
    ghost var last: real

    ghost predicate Valid()
      reads this
    {
      && maxBuckets >= ALL_ROOMS_LIMIT + 2 && Listed(order, buckets) && InOrder(attempts, last)
      && forall k: Key :: KeyOk(attempts, buckets, k, last) && Bounded(attempts, k)
    }

    constructor (start: real, max: nat)
      requires max >= ALL_ROOMS_LIMIT + 2
      ensures Valid() && attempts == [] && last == start && maxBuckets == max
    {
      buckets, order, maxBuckets, attempts, last := map[], [], max, [], start;
    }

    /** Drops a bucket's expired stamps, and the bucket when it is empty. */
    method Live(k: Key, now: real) returns (stamps: seq<real>)
      requires Listed(order, buckets)
      modifies `buckets, `order
      ensures Listed(order, buckets) && buckets == Purged(old(buckets), k, now - WINDOW)
      ensures stamps == LiveStamps(old(buckets), k, now - WINDOW)
    {
      if k !in buckets { return []; }
      stamps := buckets[k];
      while stamps != [] && stamps[0] <= now - WINDOW
        invariant DropOld(stamps, now - WINDOW) == DropOld(buckets[k], now - WINDOW)
        invariant buckets == old(buckets) && order == old(order)
        decreases |stamps|
      {
        stamps := stamps[1..];
      }
      if stamps == [] { DropKey(k); } else { buckets := buckets[k := stamps]; }
    }

    method DropKey(k: Key)
      requires k in buckets && Listed(order, buckets)
      modifies `buckets, `order
      ensures buckets == old(buckets) - {k} && Listed(order, buckets)
    {
      var i :| 0 <= i < |order| && order[i] == k;
      order := order[..i] + order[i + 1..];
      buckets := buckets - {k};
    }

    /** Drops every expired stamp and every bucket without a live one. */
    method DropExpired(now: real)
      requires Listed(order, buckets)
      modifies `buckets, `order
      ensures Listed(order, buckets) && buckets.Keys == old(LiveKeys(buckets, now - WINDOW))
      ensures forall k: Key :: Trimmed(old(buckets), buckets, k, now)
    {
      var keys := order;
      ghost var was := buckets;
      for i := 0 to |keys|
        invariant Listed(order, buckets)
        invariant forall k: Key :: SameBucket(if k in keys[..i] then Purged(was, k, now - WINDOW) else was, buckets, k)
      {
        assert keys[i] !in keys[..i] && keys[..i + 1] == keys[..i] + [keys[i]];
        assert SameBucket(was, buckets, keys[i]);
        var stamps := Live(keys[i], now);
      }
      assert keys[..|keys|] == keys;
      hide DropOld;
    }

    /** Keeps at most `maxBuckets` buckets: those without a live stamp go, and then the oldest. */
    method Trim(now: real)
      requires Listed(order, buckets)
      modifies `buckets, `order
      ensures Listed(order, buckets)
      ensures |old(LiveKeys(buckets, now - WINDOW))| <= maxBuckets ==>
        forall k: Key :: Trimmed(old(buckets), buckets, k, now)
    {
      if |buckets| <= maxBuckets { return; }
      DropExpired(now);
      ghost var live := buckets;
      assert |live.Keys| == |live|;
      while |buckets| > maxBuckets
        invariant Listed(order, buckets) && (|live| <= maxBuckets ==> buckets == live)
        decreases |buckets|
      {
        assert order != [] by {
          var k :| k in buckets.Keys;
          assert k in order;
        }
        DropKey(order[0]);
      }
    }

    /** Whether a bucket is full, and the largest wait. */
    method Check(keys: seq<Key>, now: real) returns (full: bool, wait: real)
      requires Listed(order, buckets)
      modifies `buckets, `order
      ensures Listed(order, buckets) && forall k: Key :: Trimmed(old(buckets), buckets, k, now)
      ensures full == !Free(old(buckets), keys, now) && wait == LargestWait(old(buckets), keys, now)
    {
      hide Trimmed, DropOld, Purged, Free, LargestWait, LiveStamps, Wait, Listed;
      ghost var was := buckets;
      full, wait := false, 0.0;
      NotTrimmed(was, now);
      NoKeys(was, keys, now);
      for i := 0 to |keys|
        invariant Listed(order, buckets) && forall k: Key :: Trimmed(was, buckets, k, now)
        invariant full == !Free(was, keys[..i], now) && wait == LargestWait(was, keys[..i], now)
      {
        TrimmedLive(was, buckets, keys[i], now);
        OneMoreKey(was, keys, i, now);
        ghost var mid := buckets;
        var stamps := Live(keys[i], now);
        forall k: Key ensures Trimmed(was, buckets, k, now) { TrimmedMore(was, mid, keys[i], k, now); }
        if |stamps| >= Limit(keys[i]) {
          full := true;
          wait := MaxReal(wait, stamps[|stamps| - Limit(keys[i])] + WINDOW - now);
        }
      }
      assert keys[..|keys|] == keys;
    }

    /** The attempt's stamp goes to the end of each bucket; a new bucket is the newest. */
    method Append(keys: seq<Key>, now: real)
      requires Listed(order, buckets) && forall i, j :: 0 <= i < j < |keys| ==> keys[i] != keys[j]
      modifies `buckets, `order
      ensures Listed(order, buckets)
      ensures forall k: Key ::
        SameBucket(if k in keys then Appended(old(buckets), k, now) else old(buckets), buckets, k)
    {
      for i := 0 to |keys|
        invariant Listed(order, buckets)
        invariant forall k: Key ::
          SameBucket(if k in keys[..i] then Appended(old(buckets), k, now) else old(buckets), buckets, k)
      {
        assert keys[i] !in keys[..i] && keys[..i + 1] == keys[..i] + [keys[i]];
        assert SameBucket(old(buckets), buckets, keys[i]);
        if keys[i] !in buckets { order := order + [keys[i]]; }
        buckets := Appended(buckets, keys[i], now);
      }
      assert keys[..|keys|] == keys;
    }

    /**
      Takes a slot in each bucket, or refuses. A refused attempt changes no live slot, and no
      bucket with a live stamp is ever dropped to save memory.
     */
    method Reserve(layout: Layout, now: real) returns (taken: Taken)
      requires Valid() && last <= now
      modifies this
      ensures Valid() && last == now
      ensures taken.Reserved? <==> Free(old(buckets), Keys(layout), now)
      ensures taken.Reserved? <==> MayTry(old(attempts), layout, now)
      ensures taken.Refused? ==>
        taken.seconds == Seconds(LargestWait(old(buckets), Keys(layout), now)) && attempts == old(attempts)
      ensures taken.Reserved? ==>
        taken.reservation == Attempt(layout, now) && attempts == old(attempts) + [taken.reservation]
      ensures forall k: Key :: SlotsAfter(old(buckets), buckets, k, now, taken.Reserved? && k in Keys(layout))
    {
      hide Trimmed, KeyOk, LiveStamps, InOrder, Bounded, Free, LargestWait, SlotsAfter, Listed, SameBucket, Appended,
        LiveKeys, MayTry;
      ghost var was, wasLast := buckets, last;
      FreeIs(attempts, buckets, layout, last, now);
      var full, wait := Check(Keys(layout), now);
      forall k: Key ensures KeyOk(attempts, buckets, k, now) && SlotsAfter(was, buckets, k, now, false) {
        TrimmedOk(attempts, was, buckets, k, wasLast, now);
      }
      LaterOrder(attempts, last, now);
      last := now;
      ghost var mid := buckets;
      if full { return Refused(Seconds(wait)); }
      Append(Keys(layout), now);
      var a := Attempt(layout, now);
      ghost var grown := buckets;
      forall k: Key
        ensures KeyOk(attempts + [a], grown, k, now) && Bounded(attempts + [a], k)
          && SlotsAfter(was, grown, k, now, k in Keys(layout))
      {
        TakenOk(attempts, was, mid, grown, k, a, wasLast);
      }
      OrderSnoc(attempts, a);
      attempts := attempts + [a];
      FewBuckets(attempts, grown, now);
      Trim(now);
      forall k: Key ensures KeyOk(attempts, buckets, k, now) && SlotsAfter(was, buckets, k, now, k in Keys(layout)) {
        TrimmedOk(attempts, grown, buckets, k, now, now);
        SlotsSame(was, grown, buckets, k, now, k in Keys(layout));
      }
      return Reserved(a);
    }

    /** A successful attempt: its slots are free again. Each reservation is given back at most once. */
    method Release(reservation: Attempt)
      requires Valid() && reservation in attempts
      modifies this
      ensures Valid() && last == old(last) && attempts == WithoutAttempt(old(attempts), reservation)
      ensures forall k: Key ::
        SameBucket(if k in Keys(reservation.layout) then Released(old(buckets), k, reservation.stamp)
        else old(buckets), buckets, k)
    {
      hide KeyOk, InOrder, Bounded, RemoveFirst;
      ghost var was := buckets;
      var keys := Keys(reservation.layout);
      for i := 0 to |keys|
        invariant Listed(order, buckets) && attempts == old(attempts) && last == old(last)
        invariant forall k: Key ::
          SameBucket(if k in keys[..i] then Released(was, k, reservation.stamp) else was, buckets, k)
      {
        var k := keys[i];
        assert k !in keys[..i] && keys[..i + 1] == keys[..i] + [k];
        assert SameBucket(was, buckets, k);
        if k in buckets {
          var rest := RemoveFirst(buckets[k], reservation.stamp);
          if rest == [] { DropKey(k); } else { buckets := buckets[k := rest]; }
        }
      }
      assert keys[..|keys|] == keys;
      forall k: Key
        ensures KeyOk(WithoutAttempt(attempts, reservation), buckets, k, last)
          && Bounded(WithoutAttempt(attempts, reservation), k)
      {
        ReleasedOk(attempts, was, k, reservation, last);
        ReleasedBounded(attempts, reservation, k, last);
        SameKeyOk(WithoutAttempt(attempts, reservation), if k in keys then Released(was, k, reservation.stamp)
          else was, buckets, k, last);
      }
      WithoutOrder(attempts, reservation, last);
      attempts := WithoutAttempt(attempts, reservation);
    }
  }

  /** The live slots of a bucket after a call: one more at the end, or the same. */
  ghost predicate SlotsAfter(was: map<Key, seq<real>>, buckets: map<Key, seq<real>>, k: Key, now: real, more: bool) {
    LiveStamps(buckets, k, now - WINDOW) == if more then LiveStamps(was, k, now - WINDOW) + [now]
      else LiveStamps(was, k, now - WINDOW)
  }

  lemma SlotsSame(was: map<Key, seq<real>>, mid: map<Key, seq<real>>, buckets: map<Key, seq<real>>, k: Key, now: real,
      more: bool)
    requires SlotsAfter(was, mid, k, now, more) && SlotsAfter(mid, buckets, k, now, false)
    ensures SlotsAfter(was, buckets, k, now, more)
  {
  }

  lemma LaterOrder(attempts: seq<Attempt>, last: real, now: real)
    requires InOrder(attempts, last) && last <= now
    ensures InOrder(attempts, now)
  {
  }

  lemma OrderSnoc(attempts: seq<Attempt>, a: Attempt)
    requires InOrder(attempts, a.stamp)
    ensures InOrder(attempts + [a], a.stamp)
  {
  }

  lemma NoKeys(was: map<Key, seq<real>>, keys: seq<Key>, now: real)
    ensures Free(was, keys[..0], now) && LargestWait(was, keys[..0], now) == 0.0
  {
  }

  lemma OneMoreKey(was: map<Key, seq<real>>, keys: seq<Key>, i: nat, now: real)
    requires i < |keys|
    ensures Free(was, keys[..i + 1], now)
      == (Free(was, keys[..i], now) && LiveCount(was, keys[i], now - WINDOW) < Limit(keys[i]))
    ensures var w, live := LargestWait(was, keys[..i], now), LiveStamps(was, keys[i], now - WINDOW);
      LargestWait(was, keys[..i + 1], now)
        == if |live| < Limit(keys[i]) then w else MaxReal(w, live[|live| - Limit(keys[i])] + WINDOW - now)
  {
    hide DropOld, LiveStamps;
    assert keys[..i + 1] == keys[..i] + [keys[i]] && keys[..i + 1][..i] == keys[..i];
    LargestIs(was, keys[..i], now);
    WaitFrom(was, keys[i], now);
    hide Wait;
  }

  lemma WaitFrom(was: map<Key, seq<real>>, k: Key, now: real)
    ensures var live := LiveStamps(was, k, now - WINDOW);
      Wait(was, k, now) == if |live| < Limit(k) then 0.0 else live[|live| - Limit(k)] + WINDOW - now
  {
    hide DropOld;
  }

  lemma NotTrimmed(was: map<Key, seq<real>>, now: real)
    ensures forall k: Key :: Trimmed(was, was, k, now)
  {
  }

  lemma TrimmedLive(was: map<Key, seq<real>>, buckets: map<Key, seq<real>>, k: Key, now: real)
    requires Trimmed(was, buckets, k, now)
    ensures LiveStamps(buckets, k, now - WINDOW) == LiveStamps(was, k, now - WINDOW)
  {
    if k in was { DropOldLater(was[k], now - WINDOW, now - WINDOW); }
  }

  lemma TrimmedMore(was: map<Key, seq<real>>, mid: map<Key, seq<real>>, x: Key, k: Key, now: real)
    requires Trimmed(was, mid, k, now)
    ensures Trimmed(was, Purged(mid, x, now - WINDOW), k, now)
  {
    if k in was { DropOldLater(was[k], now - WINDOW, now - WINDOW); }
  }

  lemma SameKeyOk(attempts: seq<Attempt>, a: map<Key, seq<real>>, b: map<Key, seq<real>>, k: Key, last: real)
    requires KeyOk(attempts, a, k, last) && SameBucket(a, b, k)
    ensures KeyOk(attempts, b, k, last)
  {
  }

  lemma TakenOk(attempts: seq<Attempt>, was: map<Key, seq<real>>, mid: map<Key, seq<real>>, buckets: map<Key,
      seq<real>>, k: Key, a: Attempt, last: real)
    requires KeyOk(attempts, mid, k, a.stamp) && Bounded(attempts, k) && Free(was, Keys(a.layout), a.stamp)
    requires SlotsAfter(was, mid, k, a.stamp, false)
    requires SameBucket(if k in Keys(a.layout) then Appended(mid, k, a.stamp) else mid, buckets, k)
    ensures KeyOk(attempts + [a], buckets, k, a.stamp) && Bounded(attempts + [a], k)
    ensures SlotsAfter(was, buckets, k, a.stamp, k in Keys(a.layout))
  {
    AppendedOk(attempts, mid, k, a);
    SameKeyOk(attempts + [a], if k in Keys(a.layout) then Appended(mid, k, a.stamp) else mid, buckets, k, a.stamp);
    LiveIsTaken(attempts, mid, k, a.stamp, a.stamp);
    AppendedBounded(attempts, k, a);
    if k in Keys(a.layout) {
      if k in mid { DropOldSnoc(mid[k], a.stamp, a.stamp - WINDOW); } else { assert [] + [a.stamp] == [a.stamp]; }
    }
    hide KeyOk, Bounded;
  }

  lemma FewBuckets(attempts: seq<Attempt>, buckets: map<Key, seq<real>>, now: real)
    requires (forall k: Key :: KeyOk(attempts, buckets, k, now)) && Bounded(attempts, AllRooms)
      && InOrder(attempts, now)
    ensures |LiveKeys(buckets, now - WINDOW)| <= ALL_ROOMS_LIMIT + 2
  {
    hide Bounded, InOrder, KeyOk;
    forall k | k in LiveKeys(buckets, now - WINDOW) ensures DropOld(Stamps(attempts, k), now - WINDOW) != [] {
      LiveIsTaken(attempts, buckets, k, now, now);
    }
    FewLiveBuckets(attempts, LiveKeys(buckets, now - WINDOW), now);
  }
}
