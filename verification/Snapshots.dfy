/**
  Room snapshots kept on the device (snapshot-store.ts). Each method of the store is one database
  transaction; any number of tabs run them in any order. A save needs a generation read before.
 */
module Snapshots {
  import opened RoomModel

  datatype Key = RoomKey(slug: string) | ShareKey(token: string)

  /** `signOut` holds whether the server logout is still pending. */
  datatype Control = Control(generation: nat, signOut: Option<bool>)
  datatype Snapshot = Snapshot(data: View, savedAt: Time)
  datatype Token = Token(key: Key, generation: nat)

  datatype Tables = Tables(controls: map<Key, Control>, snapshots: map<Key, Snapshot>, lastRoom: Option<string>)

  datatype Result<T> = Ok(value: T) | SignedOut | Stale | Unavailable

  const MAX_AGE: int := 30 * 24 * 60 * 60 * 1000

  // The transactions

  function AfterGeneration(t: Tables, k: Key): Tables {
    if k in t.controls then t else t.(controls := t.controls[k := Control(0, None)])
  }

  function GenerationOf(t: Tables, k: Key): Result<Token> {
    if k !in t.controls then Ok(Token(k, 0))
    else if t.controls[k].signOut.Some? then Result.SignedOut
    else Ok(Token(k, t.controls[k].generation))
  }

  function ReadOf(t: Tables, k: Key): Result<Option<Snapshot>> {
    if k in t.controls && t.controls[k].signOut.Some? then Result.SignedOut
    else if k !in t.snapshots || k !in t.controls then Ok(None)
    else Ok(Some(t.snapshots[k]))
  }

  /** A snapshot without its control record is of no use. */
  function AfterRead(t: Tables, k: Key): Tables { if k !in t.controls then t.(snapshots := t.snapshots - {k}) else t }

  function SaveResult(t: Tables, k: Key, token: Token): Result<bool> {
    if token.key != k then Stale
    else if k !in t.controls then Unavailable
    else if t.controls[k].signOut.Some? then Result.SignedOut
    else if t.controls[k].generation != token.generation then Stale
    else Ok(true)
  }

  function AfterSave(t: Tables, k: Key, token: Token, s: Snapshot): Tables {
    if !SaveResult(t, k, token).Ok? then t
    else t.(snapshots := t.snapshots[k := s], lastRoom := if k.RoomKey? then Some(k.slug) else t.lastRoom)
  }

  function Next(t: Tables, k: Key): nat { if k in t.controls then t.controls[k].generation + 1 else 1 }

  function WithoutHint(t: Tables, k: Key): Option<string> {
    if k.RoomKey? && t.lastRoom == Some(k.slug) then None else t.lastRoom
  }

  /** A clear keeps a sign-out; a local sign-out sets it. Both drop the snapshot and the routing hint. */
  function AfterClear(t: Tables, k: Key, signOut: bool): Tables {
    var kept := if signOut then Some(true) else if k in t.controls then t.controls[k].signOut else None;
    Tables(t.controls[k := Control(Next(t, k), kept)], t.snapshots - {k}, WithoutHint(t, k))
  }

  /** After signing in, old tokens are worth nothing; what is stored stays. */
  function AfterSignIn(t: Tables, slug: string): Tables {
    t.(controls := t.controls[RoomKey(slug) := Control(Next(t, RoomKey(slug)), None)])
  }

  function AfterAcknowledge(t: Tables, slug: string): Tables {
    var k := RoomKey(slug);
    if k in t.controls && t.controls[k].signOut == Some(true)
        then t.(controls := t.controls[k := t.controls[k].(signOut := Some(false))]) else t
  }

  predicate StillKept(keep: Option<Key>, k: Key, s: Snapshot, now: Time) {
    Some(k) == keep || s.savedAt >= now - MAX_AGE
  }

  function AfterPrune(t: Tables, keep: Option<Key>, now: Time): Tables {
    t.(snapshots := map k | k in t.snapshots && StillKept(keep, k, t.snapshots[k], now) :: t.snapshots[k])
  }

  class SnapshotStore {
    var controls: map<Key, Control>
    var snapshots: map<Key, Snapshot>
    var lastRoom: Option<string>

    function State(): Tables
      reads this
    {
      Tables(controls, snapshots, lastRoom)
    }

    constructor ()
      ensures State() == Tables(map[], map[], None)
    {
      controls, snapshots, lastRoom := map[], map[], None;
    }

    method Generation(k: Key) returns (r: Result<Token>)
      modifies `controls
      ensures State() == AfterGeneration(old(State()), k) && r == GenerationOf(old(State()), k)
    {
      if k !in controls { controls := controls[k := Control(0, None)]; }
      if controls[k].signOut.Some? { return Result.SignedOut; }
      return Ok(Token(k, controls[k].generation));
    }

    method Read(k: Key) returns (r: Result<Option<Snapshot>>)
      modifies `snapshots
      ensures State() == AfterRead(old(State()), k) && r == ReadOf(old(State()), k)
    {
      if k in controls && controls[k].signOut.Some? { return Result.SignedOut; }
      if k !in snapshots { assert snapshots - {k} == snapshots; return Ok(None); }
      if k !in controls {
        snapshots := snapshots - {k};
        return Ok(None);
      }
      return Ok(Some(snapshots[k]));
    }

    method Save(k: Key, token: Token, s: Snapshot) returns (r: Result<bool>)
      modifies `snapshots, `lastRoom
      ensures State() == AfterSave(old(State()), k, token, s) && r == SaveResult(old(State()), k, token)
    {
      if token.key != k { return Stale; }
      if k !in controls { return Unavailable; }
      if controls[k].signOut.Some? { return Result.SignedOut; }
      if controls[k].generation != token.generation { return Stale; }
      snapshots := snapshots[k := s];
      if k.RoomKey? { lastRoom := Some(k.slug); }
      return Ok(true);
    }

    method Clear(k: Key, signOut: bool)
      modifies this
      ensures State() == AfterClear(old(State()), k, signOut)
    {
      var generation := Next(State(), k);
      var kept := if k in controls then controls[k].signOut else None;
      controls := controls[k := Control(generation, if signOut then Some(true) else kept)];
      snapshots := snapshots - {k};
      if k.RoomKey? && lastRoom == Some(k.slug) { lastRoom := None; }
    }

    method ClearSignOutAfterSignIn(slug: string)
      modifies `controls
      ensures State() == AfterSignIn(old(State()), slug)
    {
      controls := controls[RoomKey(slug) := Control(Next(State(), RoomKey(slug)), None)];
    }

    method AcknowledgeServerLogout(slug: string)
      modifies `controls
      ensures State() == AfterAcknowledge(old(State()), slug)
    {
      var k := RoomKey(slug);
      if k in controls && controls[k].signOut == Some(true) {
        controls := controls[k := controls[k].(signOut := Some(false))];
      }
    }

    method Prune(keep: Option<Key>, now: Time) returns (removed: nat)
      modifies `snapshots
      ensures State() == AfterPrune(old(State()), keep, now) && removed + |snapshots| == |old(snapshots)|
    {
      snapshots, removed := DropOld(snapshots, keep, now);
    }
  }

  method DropOld(snapshots: map<Key, Snapshot>, keep: Option<Key>, now: Time) returns (kept: map<Key, Snapshot>,
      removed: nat)
    ensures kept == map k | k in snapshots && StillKept(keep, k, snapshots[k], now) :: snapshots[k]
    ensures removed + |kept| == |snapshots|
  {
    removed := 0;
    kept := snapshots;
    var rest := snapshots.Keys;
    while rest != {}
      invariant rest <= snapshots.Keys && kept.Keys <= snapshots.Keys && removed + |kept| == |snapshots|
      invariant forall k :: k in snapshots ==> (k in kept <==> k in rest || StillKept(keep, k, snapshots[k], now))
      invariant forall k :: k in kept ==> kept[k] == snapshots[k]
      decreases |rest|
    {
      var k :| k in rest;
      rest := rest - {k};
      if !StillKept(keep, k, snapshots[k], now) {
        RemovedOne(kept, k);
        kept := kept - {k};
        removed := removed + 1;
      }
    }
  }

  lemma RemovedOne(m: map<Key, Snapshot>, k: Key)
    requires k in m
    ensures |m - {k}| + 1 == |m|
  {
    assert m == (m - {k})[k := m[k]];
  }

  // Many tabs: what happened so far, in the order of the transactions

  datatype Event =
    | Issued(token: Token)
    | Saved(key: Key, snapshot: Snapshot, used: Token)
    | Dropped(key: Key, signOut: bool)
    | SignedIn(slug: string)
    | Quiet

  datatype Sys = Sys(tables: Tables, log: seq<Event>)

  datatype Step =
    | Generation(k: Key)
    | Read(k: Key)
    | Save(k: Key, token: Token, s: Snapshot)
    | Clear(k: Key, signOut: bool)
    | SignIn(slug: string)
    | Acknowledge(slug: string)
    | Prune(keep: Option<Key>, now: Time)

  /** A token comes from the store; a sign-out is of a room. */
  predicate Can(s: Sys, step: Step) {
    match step
    case Save(_, token, _) => Issued(token) in s.log
    case Clear(k, signOut) => signOut ==> k.RoomKey?
    case _ => true
  }

  function Do(s: Sys, step: Step): Sys {
    match step
    case Generation(k) =>
      var r := GenerationOf(s.tables, k);
      Sys(AfterGeneration(s.tables, k), s.log + [if r.Ok? then Issued(r.value) else Quiet])
    case Read(k) => Sys(AfterRead(s.tables, k), s.log + [Quiet])
    case Save(k, token, snapshot) =>
      Sys(AfterSave(s.tables, k, token, snapshot),
        s.log + [if SaveResult(s.tables, k, token).Ok? then Saved(k, snapshot, token) else Quiet])
    case Clear(k, signOut) => Sys(AfterClear(s.tables, k, signOut), s.log + [Dropped(k, signOut)])
    case SignIn(slug) => Sys(AfterSignIn(s.tables, slug), s.log + [SignedIn(slug)])
    case Acknowledge(slug) => Sys(AfterAcknowledge(s.tables, slug), s.log + [Quiet])
    case Prune(keep, now) => Sys(AfterPrune(s.tables, keep, now), s.log + [Quiet])
  }

  predicate DroppedSince(log: seq<Event>, k: Key, i: int) {
    exists j | i < j < |log| :: 0 <= j && log[j].Dropped? && log[j].key == k
  }

  /** Signed out, and not signed in since. */
  predicate OutNow(log: seq<Event>, k: Key) {
    log != [] &&
    var e := log[|log| - 1];
    if e == Dropped(k, true) then true
    else if e.SignedIn? && RoomKey(e.slug) == k then false
    else OutNow(log[..|log| - 1], k)
  }

  /** Saved with a token issued after the last clear or sign-out of the room, and none came after. */
  ghost predicate Fenced(log: seq<Event>, k: Key, s: Snapshot) {
    exists i, j :: 0 <= i < j < |log| && SavedWith(log, k, s, i, j) && !DroppedSince(log, k, i)
  }

  predicate SavedWith(log: seq<Event>, k: Key, s: Snapshot, i: int, j: int) {
    0 <= i < j < |log| && log[j].Saved? && log[j].key == k && log[j].snapshot == s && log[i] == Issued(log[j].used)
      && log[j].used.key == k
  }

  ghost predicate HintFenced(log: seq<Event>, slug: string) {
    exists j :: 0 <= j < |log| && SavedAt(log, RoomKey(slug), j) && !DroppedSince(log, RoomKey(slug), j)
  }

  predicate SavedAt(log: seq<Event>, k: Key, j: int) { 0 <= j < |log| && log[j].Saved? && log[j].key == k }

  /** A token of the current generation was issued after the last clear or sign-out. */
  ghost predicate TokenFresh(t: Tables, log: seq<Event>, i: int)
    requires 0 <= i < |log| && log[i].Issued?
  {
    var k := log[i].token.key;
    && k in t.controls && log[i].token.generation <= t.controls[k].generation
    && (log[i].token.generation == t.controls[k].generation ==> !DroppedSince(log, k, i))
  }

  ghost predicate Inv(s: Sys) {
    && (forall i :: 0 <= i < |s.log| && s.log[i].Issued? ==> TokenFresh(s.tables, s.log, i))
    && (forall k :: k in s.tables.snapshots ==> k in s.tables.controls && Fenced(s.log, k, s.tables.snapshots[k]))
    && (s.tables.lastRoom.Some? ==> HintFenced(s.log, s.tables.lastRoom.value))
    && (forall k :: (k in s.tables.controls && s.tables.controls[k].signOut.Some?) <==> OutNow(s.log, k))
  }

  lemma DroppedSnoc(log: seq<Event>, e: Event, k: Key, i: int)
    requires i < |log|
    ensures DroppedSince(log + [e], k, i) <==> DroppedSince(log, k, i) || (e.Dropped? && e.key == k)
  {
    var more := log + [e];
    if e.Dropped? && e.key == k { assert more[|log|] == e; }
    if DroppedSince(log, k, i) {
      var j :| i < j < |log| && 0 <= j && log[j].Dropped? && log[j].key == k;
      assert more[j] == log[j];
    }
  }

  lemma FencedSnoc(log: seq<Event>, e: Event, k: Key, s: Snapshot)
    requires Fenced(log, k, s) && !(e.Dropped? && e.key == k)
    ensures Fenced(log + [e], k, s)
  {
    var i, j :| 0 <= i < j < |log| && SavedWith(log, k, s, i, j) && !DroppedSince(log, k, i);
    DroppedSnoc(log, e, k, i);
    assert SavedWith(log + [e], k, s, i, j);
  }

  lemma HintSnoc(log: seq<Event>, e: Event, slug: string)
    requires HintFenced(log, slug) && !(e.Dropped? && e.key == RoomKey(slug))
    ensures HintFenced(log + [e], slug)
  {
    var j :| 0 <= j < |log| && SavedAt(log, RoomKey(slug), j) && !DroppedSince(log, RoomKey(slug), j);
    DroppedSnoc(log, e, RoomKey(slug), j);
    assert SavedAt(log + [e], RoomKey(slug), j);
  }

  lemma OutSnoc(log: seq<Event>, e: Event, k: Key)
    ensures OutNow(log + [e], k) == if e == Dropped(k, true) then true
      else if e.SignedIn? && RoomKey(e.slug) == k then false else OutNow(log, k)
  {
    assert (log + [e])[..|log|] == log;
  }

  /** A save that goes through is fenced: its token is of the current generation. */
  lemma SaveFenced(s: Sys, k: Key, token: Token, x: Snapshot)
    requires Inv(s) && Issued(token) in s.log && SaveResult(s.tables, k, token).Ok?
    ensures Fenced(s.log + [Saved(k, x, token)], k, x)
    ensures k.RoomKey? ==> HintFenced(s.log + [Saved(k, x, token)], k.slug)
  {
    var e := Saved(k, x, token);
    var more, n := s.log + [e], |s.log|;
    var i :| 0 <= i < n && s.log[i] == Issued(token);
    assert TokenFresh(s.tables, s.log, i);
    DroppedSnoc(s.log, e, k, i);
    assert SavedWith(more, k, x, i, n);
    assert SavedAt(more, k, n) && !DroppedSince(more, k, n);
  }

  lemma TokensStay(s: Sys, step: Step)
    requires Inv(s) && Can(s, step)
    ensures var t := Do(s, step); forall i :: 0 <= i < |t.log| && t.log[i].Issued? ==> TokenFresh(t.tables, t.log, i)
  {
    var t := Do(s, step);
    var e := t.log[|s.log|];
    assert t.log == s.log + [e];
    forall i | 0 <= i < |t.log| && t.log[i].Issued? ensures TokenFresh(t.tables, t.log, i) {
      if i < |s.log| {
        assert TokenFresh(s.tables, s.log, i);
        DroppedSnoc(s.log, e, s.log[i].token.key, i);
      } else {
        assert !DroppedSince(t.log, e.token.key, i);
      }
    }
    hide DroppedSince;
  }

  lemma StepKeeps(s: Sys, step: Step)
    requires Inv(s) && Can(s, step)
    ensures Inv(Do(s, step))
  {
    hide DroppedSince, Fenced, HintFenced, OutNow, TokenFresh;
    var t := Do(s, step);
    var e := t.log[|s.log|];
    assert t.log == s.log + [e];
    TokensStay(s, step);
    forall k ensures (k in t.tables.controls && t.tables.controls[k].signOut.Some?) <==> OutNow(t.log, k) {
      OutSnoc(s.log, e, k);
    }
    if e.Saved? { SaveFenced(s, step.k, step.token, step.s); }
    forall k | k in t.tables.snapshots ensures k in t.tables.controls && Fenced(t.log, k, t.tables.snapshots[k]) {
      if !(e.Saved? && e.key == k) { FencedSnoc(s.log, e, k, s.tables.snapshots[k]); }
    }
    if t.tables.lastRoom.Some? {
      if !(e.Saved? && e.key == RoomKey(t.tables.lastRoom.value)) { HintSnoc(s.log, e, t.tables.lastRoom.value); }
    }
  }

  ghost predicate Possible(s: Sys, steps: seq<Step>)
    decreases |steps|
  {
    steps == [] || (Can(s, steps[0]) && Possible(Do(s, steps[0]), steps[1..]))
  }

  function AfterAll(s: Sys, steps: seq<Step>): Sys
    decreases |steps|
  {
    if steps == [] then s else AfterAll(Do(s, steps[0]), steps[1..])
  }

  lemma {:induction false} RunKeeps(s: Sys, steps: seq<Step>)
    requires Inv(s) && Possible(s, steps)
    ensures Inv(AfterAll(s, steps))
    decreases |steps|
  {
    hide Inv, Do, Can;
    if steps != [] {
      StepKeeps(s, steps[0]);
      RunKeeps(Do(s, steps[0]), steps[1..]);
    }
  }

  const EMPTY := Sys(Tables(map[], map[], None), [])

  /**
    Under every interleaving of tabs: a read gives data saved with a token issued after the last
    clear or sign-out of the room; nothing is readable (or gets a token) while signed out; and
    the last-room hint names a room saved since its last clear.
   */
  lemma ReadsAreFenced(steps: seq<Step>, k: Key)
    requires Possible(EMPTY, steps)
    ensures var s := AfterAll(EMPTY, steps);
      && (forall x :: ReadOf(s.tables, k) == Ok(Some(x)) ==> Fenced(s.log, k, x))
      && (OutNow(s.log, k) <==> ReadOf(s.tables, k) == Result.SignedOut)
      && (OutNow(s.log, k) <==> GenerationOf(s.tables, k) == Result.SignedOut)
      && (s.tables.lastRoom.Some? ==> HintFenced(s.log, s.tables.lastRoom.value))
  {
    EmptyInv();
    hide Possible, AfterAll, Fenced, HintFenced, OutNow, TokenFresh;
    RunKeeps(EMPTY, steps);
  }

  lemma EmptyInv()
    ensures Inv(EMPTY)
  {
  }

  // Of which generation a stored snapshot is

  /** The last save of the key that went through. */
  ghost predicate LastSave(log: seq<Event>, k: Key, j: int) {
    SavedAt(log, k, j) && forall i :: j < i < |log| ==> !SavedAt(log, k, i)
  }

  predicate SignedInSince(log: seq<Event>, k: Key, j: int) {
    exists i | j < i < |log| :: 0 <= i && SignInOf(log[i], k)
  }

  predicate SignInOf(e: Event, k: Key) { e.SignedIn? && RoomKey(e.slug) == k }

  /** What is stored was saved at `j`, and its generation is the current one unless a sign-in followed. */
  ghost predicate StoredAt(s: Sys, k: Key, j: int) {
    && k in s.tables.snapshots && k in s.tables.controls && LastSave(s.log, k, j)
    && s.tables.snapshots[k] == s.log[j].snapshot && s.log[j].used.generation <= s.tables.controls[k].generation
    && (s.log[j].used.generation == s.tables.controls[k].generation <==> !SignedInSince(s.log, k, j))
  }

  ghost predicate Dated(s: Sys) { forall k :: k in s.tables.snapshots ==> exists j :: StoredAt(s, k, j) }

  lemma SignedInSnoc(log: seq<Event>, e: Event, k: Key, j: int)
    requires j < |log|
    ensures SignedInSince(log + [e], k, j) <==> SignedInSince(log, k, j) || SignInOf(e, k)
  {
    var more := log + [e];
    if SignInOf(e, k) { assert more[|log|] == e; }
    if SignedInSince(log, k, j) {
      var i :| j < i < |log| && 0 <= i && SignInOf(log[i], k);
      assert more[i] == log[i];
    }
  }

  lemma LastSaveSnoc(log: seq<Event>, e: Event, k: Key, j: int)
    requires LastSave(log, k, j) && !(e.Saved? && e.key == k)
    ensures LastSave(log + [e], k, j)
  {
    var more := log + [e];
    assert more[j] == log[j];
    forall i | j < i < |more| ensures !SavedAt(more, k, i) {
      if i < |log| { assert more[i] == log[i] && !SavedAt(log, k, i); }
    }
  }

  lemma StepDates(s: Sys, step: Step, k: Key)
    requires Inv(s) && Dated(s) && Can(s, step) && k in Do(s, step).tables.snapshots
    ensures exists j :: StoredAt(Do(s, step), k, j)
  {
    hide Inv, SignedInSince, LastSave;
    var t := Do(s, step);
    var n := |s.log|;
    var e := t.log[n];
    assert t.log == s.log + [e];
    if e.Saved? && e.key == k {
      NoneSince(t.log, k);
      assert StoredAt(t, k, n);
    } else {
      var j :| StoredAt(s, k, j);
      assert j < n by { LastSaveInLog(s.log, k, j); }
      LastSaveSnoc(s.log, e, k, j);
      SignedInSnoc(s.log, e, k, j);
      LastSaveInLog(s.log, k, j);
      assert StoredAt(t, k, j);
    }
  }

  lemma NoneSince(log: seq<Event>, k: Key)
    requires log != [] && SavedAt(log, k, |log| - 1)
    ensures LastSave(log, k, |log| - 1) && !SignedInSince(log, k, |log| - 1)
  {
  }

  lemma LastSaveInLog(log: seq<Event>, k: Key, j: int)
    requires LastSave(log, k, j)
    ensures 0 <= j < |log| && log[j].Saved?
  {
  }

  lemma {:induction false} RunDates(s: Sys, steps: seq<Step>)
    requires Inv(s) && Dated(s) && Possible(s, steps)
    ensures Dated(AfterAll(s, steps))
    decreases |steps|
  {
    hide Inv, Do, Can, StoredAt;
    if steps != [] {
      var t := Do(s, steps[0]);
      forall k | k in t.tables.snapshots ensures exists j :: StoredAt(t, k, j) { StepDates(s, steps[0], k); }
      StepKeeps(s, steps[0]);
      RunDates(t, steps[1..]);
    }
  }

  /**
    Under every interleaving of tabs: a readable snapshot is what the last save of its room stored,
    and it is of the current generation if and only if no sign-in to the room followed that save.
   */
  lemma CurrentUnlessSignedIn(steps: seq<Step>, k: Key, x: Snapshot)
    requires Possible(EMPTY, steps) && ReadOf(AfterAll(EMPTY, steps).tables, k) == Ok(Some(x))
    ensures var s := AfterAll(EMPTY, steps);
      && k in s.tables.controls
      && exists j ::
        && LastSave(s.log, k, j) && 0 <= j < |s.log| && s.log[j].Saved? && s.log[j].snapshot == x
        && (s.log[j].used.generation == s.tables.controls[k].generation <==> !SignedInSince(s.log, k, j))
  {
    EmptyInv();
    RunDates(EMPTY, steps);
    hide Possible, AfterAll, LastSave, SignedInSince;
    var s := AfterAll(EMPTY, steps);
    var j :| StoredAt(s, k, j);
    LastSaveInLog(s.log, k, j);
  }

  /** A stored snapshot need not be of the current generation: signing in bumps it and keeps the data. */
  lemma SignInKeepsSnapshot(t: Tables, slug: string)
    requires RoomKey(slug) in t.controls && RoomKey(slug) in t.snapshots && t.controls[RoomKey(slug)].signOut.None?
    ensures ReadOf(AfterSignIn(t, slug), RoomKey(slug)) == Ok(Some(t.snapshots[RoomKey(slug)]))
    ensures SaveResult(AfterSignIn(t, slug), RoomKey(slug), Token(RoomKey(slug), t.controls[RoomKey(slug)].generation))
      == Stale
  {
  }
}
