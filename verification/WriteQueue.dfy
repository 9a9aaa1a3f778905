/**
  The write queue of one room (write-queue.ts, queue-entries.ts): its entries in memory, the
  storage calls still to run, and the class that changes them.
 */
module WriteQueues {
  import opened RoomModel
  import opened Rebase

  const HOLD: int := 30 * 24 * 60 * 60 * 1000

  datatype EntryState = Pending | Approved | SignedOut

  /** A stored op: when the user acted (if that is readable), and whether its request may have gone out. */
  datatype Entry = Entry(sent: SentOp, at: Option<Time>, state: EntryState, started: bool, readable: bool)

  datatype Verdict = Ready | Held | SignoutHeld | Unreadable

  /** What the queue does with an entry (`classifyEntry`). */
  function Classify(e: Entry, now: Time): Verdict {
    if !e.readable then Unreadable
    else match e.state
      case SignedOut => SignoutHeld
      case Approved => Ready
      case Pending => if e.at.Some? && now - e.at.value <= HOLD then Ready else Held
  }

  /** A storage call. Calls run one after another, in the order they were made. */
  datatype Call =
    | AddCall(entry: Entry)
    | RemoveCall(id: Uid)
    | SetOpCall(id: Uid, op: Op)
    | StartedCall(id: Uid)
    | StateCall(ids: set<Uid>, state: EntryState)
    | ReadCall

  function WithoutEntry(entries: seq<Entry>, id: Uid): seq<Entry> {
    if entries == [] then []
    else (if entries[0].sent.id == id then [] else [entries[0]]) + WithoutEntry(entries[1..], id)
  }

  function WithOp(entries: seq<Entry>, id: Uid, op: Op): seq<Entry> {
    seq(|entries|, i requires 0 <= i < |entries| => if entries[i].sent.id == id then entries[i].(sent := SentOp(id, op))
      else entries[i])
  }

  function Started(entries: seq<Entry>, id: Uid): seq<Entry> {
    seq(|entries|, i requires 0 <= i < |entries| => if entries[i].sent.id == id then entries[i].(started := true)
      else entries[i])
  }

  /** In the tab's copy. */
  function Restated(entries: seq<Entry>, ids: set<Uid>, state: EntryState): seq<Entry> {
    seq(|entries|, i requires 0 <= i < |entries| => if entries[i].sent.id in ids then entries[i].(state := state)
      else entries[i])
  }

  /** In the storage, which leaves an entry it cannot read as it is. */
  function WithState(entries: seq<Entry>, ids: set<Uid>, state: EntryState): seq<Entry> {
    seq(|entries|, i requires 0 <= i < |entries| =>
      if entries[i].sent.id in ids && entries[i].readable then entries[i].(state := state) else entries[i])
  }

  /** The effect of one call on the stored entries. */
  function Run(disk: seq<Entry>, call: Call): seq<Entry> {
    match call
    case AddCall(e) => disk + [e]
    case RemoveCall(id) => WithoutEntry(disk, id)
    case SetOpCall(id, op) => WithOp(disk, id, op)
    case StartedCall(id) => Started(disk, id)
    case StateCall(ids, state) => WithState(disk, ids, state)
    case ReadCall => disk
  }

  /** The tab's copy: entries (their `started` flag as last read), the ops started here, and the calls not run yet. */
  datatype Memory = Memory(entries: seq<Entry>, started: set<Uid>, version: nat, chain: seq<Call>)

  function Mutated(m: Memory, entries: seq<Entry>, calls: seq<Call>): Memory {
    m.(entries := entries, version := m.version + 1, chain := m.chain + calls)
  }

  function Queued(m: Memory, sent: SentOp, at: Time): Memory {
    var e := Entry(sent, Some(at), Pending, false, true);
    Mutated(m, m.entries + [e], [AddCall(e)])
  }

  function Removed(m: Memory, id: Uid): Memory {
    Mutated(m, WithoutEntry(m.entries, id), [RemoveCall(id)]).(started := m.started - {id})
  }

  /** The request of an op is about to go out: stored first, once. */
  function Starting(m: Memory, id: Uid): Memory {
    if id in m.started then m else m.(started := m.started + {id}, chain := m.chain + [StartedCall(id)])
  }

  function RewriteEntries(entries: seq<Entry>, rewritten: map<Uid, Op>): seq<Entry> {
    seq(|entries|,
      i requires 0 <= i < |entries| =>
      entries[i].(sent := SentOp(entries[i].sent.id, CurrentBody(rewritten, entries[i].sent))))
  }

  /** One call per rewritten op. */
  function SetOpCalls(order: seq<Uid>, rewritten: map<Uid, Op>): seq<Call>
    requires forall id :: id in order ==> id in rewritten
  {
    seq(|order|, i requires 0 <= i < |order| => SetOpCall(order[i], rewritten[order[i]]))
  }

  /** Nothing changes without a rewrite. */
  function WithRewrites(m: Memory, order: seq<Uid>, rewritten: map<Uid, Op>): Memory
    requires forall id :: id in order ==> id in rewritten
  {
    if rewritten == map[] then m else Mutated(m, RewriteEntries(m.entries, rewritten), SetOpCalls(order, rewritten))
  }

  function IdsWith(entries: seq<Entry>, now: Time, verdict: Verdict): set<Uid> {
    set e | e in entries && Classify(e, now) == verdict :: e.sent.id
  }

  function InState(entries: seq<Entry>, state: EntryState): set<Uid> {
    set e | e in entries && e.state == state :: e.sent.id
  }

  function StateSet(m: Memory, ids: set<Uid>, state: EntryState): Memory {
    if ids == {} then m else Mutated(m, Restated(m.entries, ids, state), [StateCall(ids, state)])
  }

  /** A read that no local change overlapped replaces the tab's copy; another one is repeated. */
  function AfterRead(m: Memory, disk: seq<Entry>, version: nat): Memory {
    if version != m.version then m
    else m.(entries := disk, started := m.started + set e | e in disk && e.started :: e.sent.id)
  }

  /** Made at most 30 days ago, at a time that can be read. */
  predicate Young(e: Entry, now: Time) { e.at.Some? && now - e.at.value <= 2_592_000_000 }

  /** Waits for the user: readable, not approved, and not young. */
  predicate HeldForAge(e: Entry, now: Time) { e.readable && e.state == Pending && !Young(e, now) }

  predicate HeldId(entries: seq<Entry>, now: Time, id: Uid) {
    exists e | e in entries :: HeldForAge(e, now) && e.sent.id == id
  }

  lemma HeldIds(entries: seq<Entry>, now: Time)
    ensures forall id :: id in IdsWith(entries, now, Held) <==> HeldId(entries, now, id)
  {
  }

  /** Among entries with distinct IDs, exactly those picked are in the new state, and nothing else changed. */
  ghost predicate WasRestated(was: seq<Entry>, now: seq<Entry>, pick: Entry -> bool, state: EntryState) {
    Distinct(was) ==>
      && |now| == |was|
      && forall i :: 0 <= i < |was| ==> now[i] == if pick(was[i]) then was[i].(state := state) else was[i]
  }

  /** Restating the IDs of the picked entries. */
  lemma RestatedPicked(entries: seq<Entry>, ids: set<Uid>, pick: Entry -> bool, state: EntryState)
    requires forall id :: id in ids <==> exists e :: e in entries && pick(e) && e.sent.id == id
    ensures WasRestated(entries, Restated(entries, ids, state), pick, state)
  {
    if Distinct(entries) {
      forall i | 0 <= i < |entries| ensures entries[i].sent.id in ids <==> pick(entries[i]) {
        if entries[i].sent.id in ids {
          var e :| e in entries && pick(e) && e.sent.id == entries[i].sent.id;
          var k :| 0 <= k < |entries| && entries[k] == e;
        }
      }
    }
  }

  class WriteQueue {
    var entries: seq<Entry>
    var started: set<Uid>
    var version: nat
    var chain: seq<Call>
    var paused: bool
    var attempt: nat
    var inFlight: Option<Uid>

    function State(): Memory
      reads this
    {
      Memory(entries, started, version, chain)
    }

    constructor ()
      ensures State() == Memory([], {}, 0, []) && !paused && inFlight == None
    {
      entries, started, version, chain, paused, attempt, inFlight := [], {}, 0, [], false, 0, None;
    }

    method Send(sent: SentOp, now: Time)
      modifies `entries, `version, `chain
      ensures State() == Queued(old(State()), sent, now)
    {
      var entry := Entry(sent, Some(now), Pending, false, true);
      entries := entries + [entry];
      version := version + 1;
      chain := chain + [AddCall(entry)];
    }

    /** The storage answered the read that was asked for at `asked`. */
    method StoredRead(disk: seq<Entry>, asked: nat) returns (accepted: bool)
      modifies `entries, `started
      ensures accepted == (asked == version) && State() == AfterRead(old(State()), disk, asked)
    {
      accepted := asked == version;
      if accepted {
        for i := 0 to |disk|
          invariant started == old(started) + set e | e in disk[..i] && e.started :: e.sent.id
        {
          assert disk[..i + 1] == disk[..i] + [disk[i]];
          if disk[i].started { started := started + {disk[i].sent.id}; }
        }
        assert disk[..|disk|] == disk;
        entries := disk;
      }
    }

    /** The first entry, if it can go now. Later ones wait behind it. */
    method NextReady(now: Time) returns (next: Option<SentOp>)
      ensures next.Some? <==>
        && entries != [] && entries[0].readable
        && (entries[0].state == Approved || (entries[0].state == Pending && Young(entries[0], now)))
      ensures next.Some? ==> next.value == entries[0].sent
    {
      if entries == [] || Classify(entries[0], now) != Ready { return None; }
      return Some(entries[0].sent);
    }

    /** The part of a call before its request goes out. */
    method BeginCall(sent: SentOp)
      modifies `started, `chain, `inFlight
      ensures State() == Starting(old(State()), sent.id) && inFlight == Some(sent.id)
    {
      inFlight := Some(sent.id);
      if sent.id !in started {
        started := started + {sent.id};
        chain := chain + [StartedCall(sent.id)];
      }
    }

    method RemoveEntry(id: Uid)
      modifies `entries, `started, `version, `chain
      ensures State() == Removed(old(State()), id)
    {
      started := started - {id};
      entries := WithoutEntry(entries, id);
      version := version + 1;
      chain := chain + [RemoveCall(id)];
    }

    /** The answer: the op leaves the queue, and the unsent ops behind it are rebased. */
    method Settle(sent: SentOp, answer: Answer, known: View) returns (rewritten: map<Uid, Op>, ghost order: seq<Uid>)
      requires forall i, j :: 0 <= i < j < |entries| ==> entries[i].sent.id != entries[j].sent.id
      modifies `entries, `started, `version, `chain, `inFlight, `attempt
      ensures (forall id :: id in order <==> id in rewritten) && inFlight == None && attempt == 0
      ensures State() == WithRewrites(Removed(old(State()), sent.id), order, rewritten)
      ensures forall id :: id in rewritten ==> id !in started
      ensures forall e :: e in WithoutEntry(old(entries), sent.id) && e.readable ==>
        CurrentBody(rewritten, e.sent) == if e.sent.id in started then e.sent.op
          else Rebase.Rewritten(e.sent.op, sent.op, answer, known)
    {
      inFlight, attempt := None, 0;
      RemoveEntry(sent.id);
      WithoutShape(old(entries), sent.id);
      var later := ReadableOps(entries);
      ReadableShape(entries);
      rewritten := PlanRewrites(sent.op, answer, later, started, known);
      order := ApplyRewrites(rewritten);
      forall e | e in WithoutEntry(old(entries), sent.id) && e.readable ensures e.sent in later {}
    }

    method ApplyRewrites(rewritten: map<Uid, Op>) returns (ghost order: seq<Uid>)
      modifies `entries, `version, `chain
      ensures forall id :: id in order <==> id in rewritten
      ensures State() == WithRewrites(old(State()), order, rewritten)
    {
      order := [];
      if rewritten == map[] { return; }
      entries := RewriteEntries(entries, rewritten);
      version := version + 1;
      var rest := rewritten.Keys;
      while rest != {}
        invariant entries == RewriteEntries(old(entries), rewritten) && version == old(version) + 1
        invariant rest <= rewritten.Keys && forall id :: id in order <==> id in rewritten && id !in rest
        invariant chain == old(chain) + SetOpCalls(order, rewritten)
        decreases |rest|
      {
        var id :| id in rest;
        rest := rest - {id};
        order := order + [id];
        chain := chain + [SetOpCall(id, rewritten[id])];
      }
    }

    /** No answer: the op stays first and is retried after a growing pause. */
    method Unanswered()
      modifies `inFlight, `attempt
      ensures inFlight == None && attempt == old(attempt) + 1
    {
      inFlight, attempt := None, attempt + 1;
    }

    /** The server refused access: the op stays, and the queue pauses, unless access came back meanwhile (`stale`). */
    method AccessRefused(stale: bool)
      modifies `inFlight, `attempt, `paused
      ensures inFlight == None && attempt == 0 && paused == !stale
    {
      inFlight, attempt, paused := None, 0, true;
      if stale { paused := false; }
    }

    /** Any other HTTP error: the op fails for good. */
    method Fail(sent: SentOp)
      modifies `entries, `started, `version, `chain, `inFlight, `attempt
      ensures State() == Removed(old(State()), sent.id) && inFlight == None && attempt == 0
    {
      inFlight, attempt := None, 0;
      RemoveEntry(sent.id);
    }

    /** Lets the user send the ops held for their age. */
    method SendHeld(now: Time) returns (ghost order: seq<Uid>)
      modifies `entries, `version, `chain
      ensures forall id :: id in order <==> HeldId(old(entries), now, id)
      ensures WasRestated(old(entries), entries, (e: Entry) => HeldForAge(e, now), Approved)
      ensures State() == if order == [] then old(State())
        else Mutated(old(State()), Restated(old(entries), old(IdsWith(entries, now, Held)), Approved),
            ApproveCalls(order))
    {
      var held := IdsWith(entries, now, Held);
      HeldIds(entries, now);
      hide IdsWith, HeldForAge;
      RestatedPicked(entries, held, (e: Entry) => HeldForAge(e, now), Approved);
      order := [];
      if held == {} { return; }
      entries := Restated(entries, held, Approved);
      version := version + 1;
      var rest := held;
      while rest != {}
        invariant entries == Restated(old(entries), held, Approved) && version == old(version) + 1
        invariant rest <= held && forall id :: id in order <==> id in held && id !in rest
        invariant chain == old(chain) + ApproveCalls(order)
        decreases |rest|
      {
        var id :| id in rest;
        rest := rest - {id};
        order := order + [id];
        chain := chain + [StateCall({id}, Approved)];
      }
    }

    method HoldForSignOut(now: Time)
      modifies `entries, `version, `chain
      ensures State() == StateSet(old(State()), old(ReadableIds(entries)), SignedOut)
      ensures WasRestated(old(entries), entries, (e: Entry) => e.readable, SignedOut)
    {
      var ids := ReadableIds(entries);
      RestatedPicked(entries, ids, (e: Entry) => e.readable, SignedOut);
      if ids == {} { return; }
      entries := Restated(entries, ids, SignedOut);
      version := version + 1;
      chain := chain + [StateCall(ids, SignedOut)];
    }

    method SendAfterSignIn()
      modifies `entries, `version, `chain
      ensures State() == StateSet(old(State()), old(InState(entries, SignedOut)), Pending)
      ensures WasRestated(old(entries), entries, (e: Entry) => e.state == SignedOut, Pending)
    {
      var ids := InState(entries, SignedOut);
      RestatedPicked(entries, ids, (e: Entry) => e.state == SignedOut, Pending);
      if ids == {} { return; }
      entries := Restated(entries, ids, Pending);
      version := version + 1;
      chain := chain + [StateCall(ids, Pending)];
    }

    /** The user drops an op that is not being sent right now. */
    method Discard(id: Uid) returns (dropped: bool)
      modifies `entries, `started, `version, `chain
      ensures dropped == (inFlight != Some(id) && exists e :: e in old(entries) && e.sent.id == id)
      ensures State() == if dropped then Removed(old(State()), id) else old(State())
    {
      if inFlight == Some(id) || !exists e | e in entries :: e.sent.id == id { return false; }
      RemoveEntry(id);
      return true;
    }
  }

  function ReadableIds(entries: seq<Entry>): set<Uid> { set e | e in entries && e.readable :: e.sent.id }

  function ApproveCalls(order: seq<Uid>): seq<Call> {
    seq(|order|, i requires 0 <= i < |order| => StateCall({order[i]}, Approved))
  }

  function ReadableOps(entries: seq<Entry>): seq<SentOp> {
    if entries == [] then []
    else (if entries[0].readable then [entries[0].sent] else []) + ReadableOps(entries[1..])
  }

  ghost predicate Distinct(entries: seq<Entry>) {
    forall i, j :: 0 <= i < j < |entries| ==> entries[i].sent.id != entries[j].sent.id
  }

  /** With every entry readable the copy and the storage change alike. */
  lemma SameStates(entries: seq<Entry>, ids: set<Uid>, state: EntryState)
    ensures Restated(entries, ids, state) == WithState(entries, ids, state)
      <==> forall e :: e in entries && e.sent.id in ids && !e.readable ==> e.state == state
  {
    var a, b := Restated(entries, ids, state), WithState(entries, ids, state);
    if a == b {
      forall i | 0 <= i < |entries| && entries[i].sent.id in ids && !entries[i].readable
        ensures entries[i].state == state
      {
        assert a[i] == b[i];
      }
    }
  }

  lemma {:induction false} ReadableShape(entries: seq<Entry>)
    requires Distinct(entries)
    ensures DistinctIds(ReadableOps(entries))
    ensures forall op :: op in ReadableOps(entries) <==> exists e :: e in entries && e.readable && e.sent == op
  {
    if entries != [] {
      var rest := entries[1..];
      ReadableShape(rest);
      assert entries == [entries[0]] + rest;
      forall op | op in ReadableOps(rest) ensures op.id != entries[0].sent.id {
        var e :| e in rest && e.readable && e.sent == op;
        var i :| 0 <= i < |rest| && rest[i] == e;
        assert entries[i + 1] == e;
      }
    }
  }

  /** One entry goes; the others keep their order. */
  lemma {:induction false} WithoutShape(entries: seq<Entry>, id: Uid)
    requires Distinct(entries)
    ensures Distinct(WithoutEntry(entries, id))
    ensures forall e :: e in WithoutEntry(entries, id) <==> e in entries && e.sent.id != id
  {
    if entries != [] {
      var rest := entries[1..];
      assert entries == [entries[0]] + rest;
      WithoutShape(rest, id);
      forall e | e in rest ensures e.sent.id != entries[0].sent.id {
        var i :| 0 <= i < |rest| && rest[i] == e;
        assert entries[i + 1] == e;
      }
    }
  }
}
