/**
  What the snapshot store answers, read off the calls made so far by all tabs: the tables of
  snapshot-store.ts are forgotten, and only the order of the calls counts.
 */
module SnapshotLaws {
  import opened RoomModel
  import opened Snapshots

  function Before(calls: seq<Step>): seq<Step>
    requires calls != []
  {
    calls[..|calls| - 1]
  }

  function Latest(calls: seq<Step>): Step
    requires calls != []
  {
    calls[|calls| - 1]
  }

  /** A clear, a sign-out or a sign-in: it makes the tokens of the key worthless. */
  predicate Renews(call: Step, k: Key) {
    (call.Clear? && call.k == k) || (call.SignIn? && RoomKey(call.slug) == k)
  }

  function Renewals(calls: seq<Step>, k: Key): nat {
    if calls == [] then 0 else Renewals(Before(calls), k) + if Renews(Latest(calls), k) then 1 else 0
  }

  predicate RenewedSince(calls: seq<Step>, k: Key, i: nat) { exists j | i < j < |calls| :: Renews(calls[j], k) }

  /** Signed out, and not signed in since. */
  predicate Out(calls: seq<Step>, k: Key) {
    calls != [] &&
    match Latest(calls)
    case Clear(x, signOut) => (x == k && signOut) || Out(Before(calls), k)
    case SignIn(slug) => RoomKey(slug) != k && Out(Before(calls), k)
    case _ => Out(Before(calls), k)
  }

  /** Signed out, and the server has not been told since. */
  predicate Untold(calls: seq<Step>, slug: string) {
    calls != [] &&
    match Latest(calls)
    case Clear(x, signOut) => (x == RoomKey(slug) && signOut) || Untold(Before(calls), slug)
    case SignIn(x) => x != slug && Untold(Before(calls), slug)
    case Acknowledge(x) => x != slug && Untold(Before(calls), slug)
    case _ => Untold(Before(calls), slug)
  }

  /** A control record of the key was made. */
  predicate Known(calls: seq<Step>, k: Key) {
    calls != [] && (Latest(calls) == Step.Generation(k) || Renews(Latest(calls), k) || Known(Before(calls), k))
  }

  predicate Accepted(calls: seq<Step>, k: Key, token: Token) {
    token.key == k && Known(calls, k) && !Out(calls, k) && token.generation == Renewals(calls, k)
  }

  /** The last accepted save, unless a clear came after or a clean-up found it older than 30 days. */
  function Stored(calls: seq<Step>, k: Key): Option<Snapshot> {
    if calls == [] then None
    else
      var was := Stored(Before(calls), k);
      match Latest(calls)
      case Save(x, token, s) => if x == k && Accepted(Before(calls), k, token) then Some(s) else was
      case Clear(x, _) => if x == k then None else was
      case Prune(keep, now) =>
        if was.Some? && keep != Some(k) && now - was.value.savedAt > 2_592_000_000 then None else was
      case _ => was
  }

  /** The room saved last, unless it was cleared since. */
  function LastRoom(calls: seq<Step>): Option<string> {
    if calls == [] then None
    else
      var was := LastRoom(Before(calls));
      match Latest(calls)
      case Save(RoomKey(slug), token, _) => if Accepted(Before(calls), RoomKey(slug), token) then Some(slug) else was
      case Clear(RoomKey(slug), _) => if was == Some(slug) then None else was
      case _ => was
  }

  /** The record of one key says what the calls about it were. */
  ghost predicate Told(t: Tables, calls: seq<Step>, k: Key) {
    && (k in t.controls <==> Known(calls, k))
    && (k in t.controls ==> t.controls[k].generation == Renewals(calls, k))
    && (k !in t.controls ==> Renewals(calls, k) == 0 && k !in t.snapshots)
    && (Out(calls, k) <==> k in t.controls && t.controls[k].signOut.Some?)
    && (k.RoomKey? ==> (Untold(calls, k.slug) <==> k in t.controls && t.controls[k].signOut == Some(true)))
    && Stored(calls, k) == if k in t.snapshots then Some(t.snapshots[k]) else None
  }

  lemma SaveTold(s: Sys, calls: seq<Step>, call: Step, k: Key)
    requires call.Save? && Told(s.tables, calls, k) && Told(s.tables, calls, call.k)
    ensures Told(Do(s, call).tables, calls + [call], k)
  {
    assert Before(calls + [call]) == calls;
  }

  lemma ClearTold(s: Sys, calls: seq<Step>, call: Step, k: Key)
    requires call.Clear? && Told(s.tables, calls, k)
    ensures Told(Do(s, call).tables, calls + [call], k)
  {
    assert Before(calls + [call]) == calls;
  }

  lemma SignInTold(s: Sys, calls: seq<Step>, call: Step, k: Key)
    requires call.SignIn? && Told(s.tables, calls, k)
    ensures Told(Do(s, call).tables, calls + [call], k)
  {
    assert Before(calls + [call]) == calls;
    if k == RoomKey(call.slug) {
      assert k in Do(s, call).tables.controls;
    } else {
      assert k.RoomKey? ==> k.slug != call.slug;
      assert k in Do(s, call).tables.controls <==> k in s.tables.controls;
    }
  }

  lemma AcknowledgeTold(s: Sys, calls: seq<Step>, call: Step, k: Key)
    requires call.Acknowledge? && Told(s.tables, calls, k)
    ensures Told(Do(s, call).tables, calls + [call], k)
  {
    assert Before(calls + [call]) == calls;
    assert k != RoomKey(call.slug) && k.RoomKey? ==> k.slug != call.slug;
  }

  lemma OtherTold(s: Sys, calls: seq<Step>, call: Step, k: Key)
    requires (call.Generation? || call.Read? || call.Prune?) && Told(s.tables, calls, k)
    ensures Told(Do(s, call).tables, calls + [call], k)
  {
    assert Before(calls + [call]) == calls;
  }

  lemma ToldStep(s: Sys, calls: seq<Step>, call: Step, k: Key)
    requires Told(s.tables, calls, k) && (call.Save? ==> Told(s.tables, calls, call.k))
    ensures Told(Do(s, call).tables, calls + [call], k)
  {
    hide Told, Do;
    if call.Save? {
      SaveTold(s, calls, call, k);
    } else if call.Clear? {
      ClearTold(s, calls, call, k);
    } else if call.SignIn? {
      SignInTold(s, calls, call, k);
    } else if call.Acknowledge? {
      AcknowledgeTold(s, calls, call, k);
    } else {
      OtherTold(s, calls, call, k);
    }
  }

  lemma RoomStep(s: Sys, calls: seq<Step>, call: Step)
    requires s.tables.lastRoom == LastRoom(calls) && (call.Save? ==> Told(s.tables, calls, call.k))
    ensures Do(s, call).tables.lastRoom == LastRoom(calls + [call])
  {
    assert Before(calls + [call]) == calls;
  }

  lemma {:induction false} RunTold(s: Sys, calls: seq<Step>, more: seq<Step>)
    requires s.tables.lastRoom == LastRoom(calls) && forall k: Key :: Told(s.tables, calls, k)
    ensures AfterAll(s, more).tables.lastRoom == LastRoom(calls + more)
    ensures forall k: Key :: Told(AfterAll(s, more).tables, calls + more, k)
    decreases |more|
  {
    hide Told, LastRoom, Do;
    if more == [] {
      assert calls + more == calls;
    } else {
      var call := more[0];
      RoomStep(s, calls, call);
      forall k: Key ensures Told(Do(s, call).tables, calls + [call], k) { ToldStep(s, calls, call, k); }
      RunTold(Do(s, call), calls + [call], more[1..]);
      assert calls + [call] + more[1..] == calls + more;
    }
  }

  /**
    Whatever the tabs called, in any order: a read gives the last accepted save that no clear and no
    clean-up took away, and nothing is given while signed out; the routing hint names the room saved
    last unless it was cleared; the rooms whose server logout is pending are those signed out and
    not acknowledged.
   */
  lemma ReadIsLastSave(calls: seq<Step>, k: Key)
    ensures var t := AfterAll(EMPTY, calls).tables;
      && ReadOf(t, k) == (if Out(calls, k) then Result.SignedOut else Ok(Stored(calls, k)))
      && t.lastRoom == LastRoom(calls)
      && (k.RoomKey? ==> (Untold(calls, k.slug) <==> k in t.controls && t.controls[k].signOut == Some(true)))
  {
    RunTold(EMPTY, [], calls);
    assert [] + calls == calls;
    hide AfterAll, LastRoom, Out, Stored, Untold, Renewals, Known;
    assert Told(AfterAll(EMPTY, calls).tables, calls, k);
  }

  lemma {:induction false} RenewalsSince(calls: seq<Step>, k: Key, i: nat)
    requires i < |calls|
    ensures Renewals(calls[..i + 1], k) <= Renewals(calls, k)
    ensures Renewals(calls[..i + 1], k) == Renewals(calls, k) <==> !RenewedSince(calls, k, i)
    decreases |calls|
  {
    if i + 1 == |calls| {
      assert calls[..i + 1] == calls;
    } else {
      var was := Before(calls);
      RenewalsSince(was, k, i);
      assert was[..i + 1] == calls[..i + 1];
      if Renews(Latest(calls), k) {
        assert RenewedSince(calls, k, i);
      } else if RenewedSince(calls, k, i) {
        var j :| i < j < |calls| && Renews(calls[j], k);
        assert Renews(was[j], k);
      }
    }
  }

  lemma {:induction false} KnownSince(calls: seq<Step>, k: Key, i: nat)
    requires i < |calls| && calls[i] == Step.Generation(k)
    ensures Known(calls, k)
    decreases |calls|
  {
    if i + 1 < |calls| { KnownSince(Before(calls), k, i); }
  }

  lemma CallsTell(calls: seq<Step>, k: Key)
    ensures Told(AfterAll(EMPTY, calls).tables, calls, k)
  {
    RunTold(EMPTY, [], calls);
    assert [] + calls == calls;
    hide AfterAll;
  }

  lemma TokenRenewals(calls: seq<Step>, i: nat, k: Key)
    requires i < |calls| && calls[i] == Step.Generation(k)
    ensures Known(calls, k) && (Renewals(calls[..i], k) == Renewals(calls, k) <==> !RenewedSince(calls, k, i))
  {
    KnownSince(calls, k, i);
    RenewalsSince(calls, k, i);
    assert Before(calls[..i + 1]) == calls[..i];
  }

  /**
    Whatever the tabs called: a request for a token is refused while signed out and else answered,
    and the token lets its key be saved until the next clear, sign-out or sign-in, and never after.
   */
  lemma TokenUntilRenewed(calls: seq<Step>, i: nat, k: Key)
    requires i < |calls| && calls[i] == Step.Generation(k)
    ensures var given := GenerationOf(AfterAll(EMPTY, calls[..i]).tables, k);
      var saved := if given.Ok? then SaveResult(AfterAll(EMPTY, calls).tables, k, given.value) else Result.SignedOut;
      && given.Ok? == !Out(calls[..i], k)
      && (Out(calls[..i], k) ==> given == Result.SignedOut)
      && (given.Ok? && Out(calls, k) ==> saved == Result.SignedOut)
      && (given.Ok? && !Out(calls, k) ==> saved == if RenewedSince(calls, k, i) then Stale else Ok(true))
  {
    CallsTell(calls[..i], k);
    CallsTell(calls, k);
    TokenRenewals(calls, i, k);
    hide AfterAll, RenewedSince, Renewals, Known, Out, Stored, Untold;
  }
}
