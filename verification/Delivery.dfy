/**
  Delivery of queued ops (write-queue.ts with its storage, and run_once_locked on the server):
  storage calls run late, the page crashes at any point, requests and answers get lost, the
  server prunes old responses, and all read one clock.
 */
module Delivery {
  import opened RoomModel
  import opened Rebase
  import opened WriteQueues

  /** What the sender does now: a read is asked for, the start is being stored, or the answer is open. */
  datatype Phase = Idle | Reading(asked: nat) | Marking(e: Entry) | Open(e: Entry)

  datatype StoredOp = StoredOp(op: Op, at: Time)

  /**
    Op IDs are fresh; here they are numbered as the user makes the ops. `log` has the executed
    ops in order, `requests` every request that went out, `approved` the held ops the user sent by
    hand, `made` when each op was made, `dropped` the ops an HTTP error took from the queue before they
    were executed.
   */
  datatype Sys = Sys(
    now: Time, made: map<Uid, Time>, mem: Memory, disk: seq<Entry>, phase: Phase,
    processed: map<Uid, StoredOp>, log: seq<Uid>, requests: seq<SentOp>, reused: bool, approved: set<Uid>,
    dropped: set<Uid>)

  datatype Step =
    | Tick(now: Time)
    | Act(id: Uid, op: Op)
    | Store
    | Read
    | Start
    | Transmit
    | Arrive(sent: SentOp)
    | Answer(order: seq<Uid>, rewritten: map<Uid, Op>)
    | Lose
    | Fail
    | SetStates(ids: set<Uid>, state: EntryState, parts: seq<set<Uid>>)
    | Prune
    | Crash

  ghost predicate Can(s: Sys, step: Step) {
    match step
    case Tick(now) => s.now <= now
    case Act(id, _) => forall x :: x in s.made ==> x < id
    case Store => s.mem.chain != []
    case Read => s.phase.Idle?
    case Start => s.phase.Idle? && s.mem.entries != [] && Classify(s.mem.entries[0], s.now) == Ready
    case Transmit => s.phase.Marking? && StartedCall(s.phase.e.sent.id) !in s.mem.chain
    case Arrive(sent) => sent in s.requests
    case Answer(order, rewritten) =>
      && s.phase.Open? && s.phase.e.sent.id in s.processed
      && (forall id :: id in order <==> id in rewritten)
      && (forall id :: id in rewritten ==>
        id !in s.mem.started && exists k :: 1 <= k < |s.mem.entries| && s.mem.entries[k].sent.id == id)
    case Lose => s.phase.Open?
    case Fail => s.phase.Open?
    case SetStates(ids, state, parts) => ids == Union(parts)
    case Prune => true
    case Crash => true
  }

  function Union(parts: seq<set<Uid>>): set<Uid> {
    if parts == [] then {} else Union(parts[..|parts| - 1]) + parts[|parts| - 1]
  }

  function StateCalls(parts: seq<set<Uid>>, state: EntryState): seq<Call> {
    seq(|parts|, i requires 0 <= i < |parts| => StateCall(parts[i], state))
  }

  /** One storage call runs; a read comes back to the sender. */
  function CallRun(s: Sys): Sys
    requires s.mem.chain != []
  {
    var disk, mem := Run(s.disk, s.mem.chain[0]), s.mem.(chain := s.mem.chain[1..]);
    if s.mem.chain[0].ReadCall? && s.phase.Reading?
        then s.(disk := disk, mem := AfterRead(mem, disk, s.phase.asked), phase := Idle)
    else s.(disk := disk, mem := mem)
  }

  /** `run_once_locked`. Any request that went out may arrive, at any time and again. */
  function Arrived(s: Sys, sent: SentOp): Sys {
    if sent.id in s.processed then s.(reused := s.reused || s.processed[sent.id].op != sent.op)
    else s.(log := s.log + [sent.id], processed := s.processed[sent.id := StoredOp(sent.op, s.now)])
  }

  /** The op goes for good, whether or not the server executed it. */
  function Failed(s: Sys, id: Uid): Sys {
    s.(mem := Removed(s.mem, id), phase := Idle, dropped := if id in s.log then s.dropped else s.dropped + {id})
  }

  function Reloaded(disk: seq<Entry>): Memory { Memory(disk, set e | e in disk && e.started :: e.sent.id, 0, []) }

  ghost function Do(s: Sys, step: Step): Sys
    requires Can(s, step)
  {
    match step
    case Tick(now) => s.(now := now)
    case Act(id, op) => s.(mem := Queued(s.mem, SentOp(id, op), s.now), made := s.made[id := s.now])
    case Store => CallRun(s)
    case Read => s.(mem := s.mem.(chain := s.mem.chain + [ReadCall]), phase := Reading(s.mem.version))
    case Start => s.(mem := Starting(s.mem, s.mem.entries[0].sent.id), phase := Marking(s.mem.entries[0]))
    case Transmit => s.(requests := s.requests + [s.phase.e.sent], phase := Open(s.phase.e))
    case Arrive(sent) => Arrived(s, sent)
    case Answer(order, rewritten) =>
        s.(mem := WithRewrites(Removed(s.mem, s.phase.e.sent.id), order, rewritten), phase := Idle)
    case Lose => s.(phase := Idle)
    case Fail => Failed(s, s.phase.e.sent.id)
    case SetStates(ids, state, parts) =>
      s.(mem := Mutated(s.mem, WithState(s.mem.entries, ids, state), StateCalls(parts, state)),
         approved := if state == Approved then s.approved + ids else s.approved)
    case Prune => s.(processed := map id | id in s.processed && s.processed[id].at >= s.now - HOLD :: s.processed[id])
    case Crash => s.(mem := Reloaded(s.disk), phase := Idle)
  }

  // The stored entries after the first calls of the chain

  function At(disk: seq<Entry>, chain: seq<Call>, i: nat): seq<Entry>
    requires i <= |chain|
  {
    if i == 0 then disk else Run(At(disk, chain, i - 1), chain[i - 1])
  }

  lemma {:induction false} AtLonger(disk: seq<Entry>, chain: seq<Call>, more: seq<Call>, i: nat)
    requires i <= |chain|
    ensures At(disk, chain + more, i) == At(disk, chain, i)
  {
    if i > 0 { AtLonger(disk, chain, more, i - 1); }
  }

  lemma {:induction false} AtLater(disk: seq<Entry>, chain: seq<Call>, i: nat)
    requires chain != [] && i < |chain|
    ensures At(Run(disk, chain[0]), chain[1..], i) == At(disk, chain, i + 1)
  {
    if i > 0 { AtLater(disk, chain, i - 1); }
  }

  // The invariant

  /** The parts of the state that stored entries are measured against. */
  datatype World = World(made: map<Uid, Time>, requests: seq<SentOp>, approved: set<Uid>)

  function WorldOf(s: Sys): World { World(s.made, s.requests, s.approved) }

  predicate EntryOk(e: Entry, w: World) {
    e.readable && e.sent.id in w.made && e.at == Some(w.made[e.sent.id])
      && (e.state == Approved ==> e.sent.id in w.approved)
  }

  /** In the order made; only the first may have gone out, and always with the body it has. */
  ghost predicate Sound(d: seq<Entry>, w: World) {
    && (forall i, j :: 0 <= i < j < |d| ==> d[i].sent.id < d[j].sent.id)
    && (forall i :: 0 <= i < |d| ==> EntryOk(d[i], w) && (d[i].started ==> i == 0))
    && (forall r, i :: r in w.requests && 0 <= i < |d| ==>
      r.id <= d[i].sent.id && (r.id == d[i].sent.id ==> d[i].started && r == d[i].sent))
  }

  /** A stored start is one the tab knows of, if it still has the op. */
  ghost predicate Tied(d: seq<Entry>, entries: seq<Entry>, started: set<Uid>) {
    forall i, k :: 0 <= i < |d| && 0 <= k < |entries| && d[i].started && entries[k].sent.id == d[i].sent.id ==>
      k == 0 && d[i].sent.id in started && d[i].sent == entries[k].sent
  }

  predicate HeadOn(d: seq<Entry>, sent: SentOp) { d != [] && d[0].sent == sent && d[0].started }

  function Plain(d: seq<Entry>): seq<Entry> { seq(|d|, i requires 0 <= i < |d| => d[i].(started := false)) }

  ghost predicate DiskOk(disk: seq<Entry>, m: Memory, w: World) {
    && (forall i :: 0 <= i <= |m.chain| ==>
      Sound(At(disk, m.chain, i), w) && Tied(At(disk, m.chain, i), m.entries, m.started))
    && Plain(At(disk, m.chain, |m.chain|)) == Plain(m.entries)
  }

  /** Only the first entry was started; once that is stored, it is first in the storage too. */
  ghost predicate StartOk(disk: seq<Entry>, m: Memory) {
    && (forall k :: 1 <= k < |m.entries| ==> m.entries[k].sent.id !in m.started)
    && (m.entries != [] && m.entries[0].sent.id in m.started ==>
          forall i :: 0 <= i <= |m.chain| && StartedCall(m.entries[0].sent.id) !in m.chain[i..] ==>
              HeadOn(At(disk, m.chain, i), m.entries[0].sent))
  }

  ghost predicate PhaseOk(m: Memory, phase: Phase, w: World) {
    && (phase.Marking? || phase.Open? ==>
          && m.entries != [] && m.entries[0].sent == phase.e.sent && phase.e.sent.id in m.started && EntryOk(phase.e, w)
          && (phase.Open? ==> phase.e.sent in w.requests))
    && (forall c :: c in m.chain && c.StartedCall? ==> phase.Marking? && c.id == phase.e.sent.id)
    && (phase.Reading? && phase.asked == m.version ==> m.chain != [] && m.chain[|m.chain| - 1].ReadCall?)
    && (phase.Reading? ==> phase.asked <= m.version)
    && (forall i, j :: 0 <= i < j < |m.chain| ==> !(m.chain[i].ReadCall? && m.chain[j].ReadCall?))
    && (!phase.Reading? ==> forall c :: c in m.chain ==> !c.ReadCall?)
  }

  /** One body per op_id, and the response of an executed op is kept while the op is young. */
  ghost predicate ServerOk(s: Sys) {
    && (forall r, q :: r in s.requests && q in s.requests && r.id == q.id ==> r == q)
    && (forall id :: id in s.processed ==>
      SentOp(id, s.processed[id].op) in s.requests && id in s.made && s.made[id] <= s.processed[id].at)
    && (forall id :: id in s.made ==> s.made[id] <= s.now)
    && (forall i :: 0 <= i < |s.log| ==> Executed(s, s.log[i]))
    && !s.reused
  }

  predicate Executed(s: Sys, id: Uid) {
    && id in s.made && (id in s.processed || s.now - s.made[id] > HOLD)
    && exists r | r in s.requests :: r.id == id
  }

  ghost predicate WorldOk(w: World, started: set<Uid>) {
    (forall r :: r in w.requests ==> r.id in w.made) && (forall id :: id in started ==> id in w.made)
  }

  ghost predicate Inv(s: Sys) {
    && WorldOk(WorldOf(s), s.mem.started)
    && DiskOk(s.disk, s.mem, WorldOf(s)) && StartOk(s.disk, s.mem) && PhaseOk(s.mem, s.phase, WorldOf(s)) && ServerOk(s)
  }

  predicate Init(s: Sys) {
    s == Sys(s.now, map[], Memory([], {}, 0, []), [], Idle, map[], [], [], false, {}, {})
  }

  lemma InitInv(s: Sys)
    requires Init(s)
    ensures Inv(s)
  {
  }

  // What appending a call asks for

  /** One more call in the chain: the new last stored state must be right too. */
  lemma DiskGrows(disk: seq<Entry>, m: Memory, m': Memory, c: Call, w: World, w': World)
    requires DiskOk(disk, m, w) && m'.chain == m.chain + [c]
    requires forall i :: 0 <= i <= |m.chain| ==>
      Sound(At(disk, m.chain, i), w') && Tied(At(disk, m.chain, i), m'.entries, m'.started)
    requires var d := Run(At(disk, m.chain, |m.chain|), c);
      Sound(d, w') && Tied(d, m'.entries, m'.started) && Plain(d) == Plain(m'.entries)
    ensures DiskOk(disk, m', w')
  {
    hide Sound, Tied, Run, Plain;
    forall i | 0 <= i <= |m.chain| ensures At(disk, m'.chain, i) == At(disk, m.chain, i) {
      AtLonger(disk, m.chain, [c], i);
    }
    assert At(disk, m'.chain, |m'.chain|) == Run(At(disk, m'.chain, |m.chain|), c);
  }

  lemma StartGrows(disk: seq<Entry>, m: Memory, m': Memory, c: Call)
    requires StartOk(disk, m) && m'.chain == m.chain + [c] && m'.started == m.started && !c.StartedCall?
    requires |m.entries| <= |m'.entries| && forall k :: 0 <= k < |m.entries| ==> m'.entries[k].sent == m.entries[k].sent
    requires forall k :: |m.entries| <= k < |m'.entries| ==> m'.entries[k].sent.id !in m.started
    requires m.entries != [] && HeadOn(At(disk, m.chain, |m.chain|), m.entries[0].sent) ==>
      HeadOn(Run(At(disk, m.chain, |m.chain|), c), m.entries[0].sent)
    ensures StartOk(disk, m')
  {
    hide Run, HeadOn;
    var n := |m.chain|;
    assert At(disk, m'.chain, n + 1) == Run(At(disk, m'.chain, n), c);
    AtLonger(disk, m.chain, [c], n);
    assert m.chain[n..] == [];
    if m.entries != [] && m.entries[0].sent.id in m.started {
      forall i | 0 <= i <= n + 1 && StartedCall(m.entries[0].sent.id) !in m'.chain[i..]
        ensures HeadOn(At(disk, m'.chain, i), m.entries[0].sent)
      {
        if i <= n {
          AtLonger(disk, m.chain, [c], i);
          assert m'.chain[i..] == m.chain[i..] + [c];
        }
      }
    }
    hide At;
  }

  // Each step keeps the invariant

  lemma ActKeeps(s: Sys, id: Uid, op: Op)
    requires Inv(s) && forall x :: x in s.made ==> x < id
    ensures Inv(s.(mem := Queued(s.mem, SentOp(id, op), s.now), made := s.made[id := s.now]))
  {
    hide DiskOk, StartOk, PhaseOk, ServerOk;
    var t := s.(mem := Queued(s.mem, SentOp(id, op), s.now), made := s.made[id := s.now]);
    var e := Entry(SentOp(id, op), Some(s.now), Pending, false, true);
    ActDisk(s.disk, s.mem, WorldOf(s), e, s.now);
    ActStart(s.disk, s.mem, WorldOf(s), e);
    ActPhase(s.mem, s.phase, WorldOf(s), e, s.now);
    ActServer(s, t, id);
  }

  lemma ActServer(s: Sys, t: Sys, id: Uid)
    requires ServerOk(s) && id !in s.made && t == s.(mem := t.mem, made := s.made[id := s.now])
    ensures ServerOk(t)
  {
  }

  lemma ActPhase(m: Memory, phase: Phase, w: World, e: Entry, now: Time)
    requires PhaseOk(m, phase, w) && e.sent.id !in w.made
    ensures PhaseOk(Mutated(m, m.entries + [e], [AddCall(e)]), phase, w.(made := w.made[e.sent.id := now]))
  {
  }

  lemma ActStart(disk: seq<Entry>, m: Memory, w: World, e: Entry)
    requires StartOk(disk, m) && WorldOk(w, m.started) && e.sent.id !in w.made
    ensures StartOk(disk, Mutated(m, m.entries + [e], [AddCall(e)]))
  {
    hide StartOk, At;
    StartGrows(disk, m, Mutated(m, m.entries + [e], [AddCall(e)]), AddCall(e));
  }

  lemma ActDisk(disk: seq<Entry>, m: Memory, w: World, e: Entry, now: Time)
    requires DiskOk(disk, m, w) && WorldOk(w, m.started) && (forall x :: x in w.made ==> x < e.sent.id)
    requires e == Entry(e.sent, Some(now), Pending, false, true)
    ensures DiskOk(disk, Mutated(m, m.entries + [e], [AddCall(e)]), w.(made := w.made[e.sent.id := now]))
  {
    hide Sound, Tied, Plain;
    var m', w', n := Mutated(m, m.entries + [e], [AddCall(e)]), w.(made := w.made[e.sent.id := now]), |m.chain|;
    forall i | 0 <= i <= n
      ensures Sound(At(disk, m.chain, i), w') && Tied(At(disk, m.chain, i), m'.entries, m'.started)
    {
      ActSound(At(disk, m.chain, i), w, w', m.entries, m.started, e);
    }
    ActLast(At(disk, m.chain, n), w, now, m.entries, m.started, e);
    hide DiskOk, WorldOk;
    DiskGrows(disk, m, m', AddCall(e), w, w');
  }

  lemma ActSound(d: seq<Entry>, w: World, w': World, entries: seq<Entry>, started: set<Uid>, e: Entry)
    requires Sound(d, w) && Tied(d, entries, started) && e.sent.id !in w.made
    requires w' == w.(made := w'.made) && w'.made.Keys == w.made.Keys + {e.sent.id} && forall x :: x in w.made ==>
      w'.made[x] == w.made[x]
    ensures Sound(d, w') && Tied(d, entries + [e], started)
  {
  }

  lemma ActLast(d: seq<Entry>, w: World, now: Time, entries: seq<Entry>, started: set<Uid>, e: Entry)
    requires Sound(d, w) && Tied(d, entries, started) && Plain(d) == Plain(entries)
      && (forall x :: x in w.made ==> x < e.sent.id)
    requires e == Entry(e.sent, Some(now), Pending, false, true) && forall r :: r in w.requests ==> r.id in w.made
    ensures Sound(d + [e], w.(made := w.made[e.sent.id := now])) && Tied(d + [e], entries + [e], started)
      && Plain(d + [e]) == Plain(entries + [e])
  {
    assert Plain(d + [e]) == Plain(d) + [e] && Plain(entries + [e]) == Plain(entries) + [e];
    hide Plain;
    ActSound(d, w, w.(made := w.made[e.sent.id := now]), entries, started, e);
  }

  /** A read that counts finds what the tab has: nothing overlapped it. */
  lemma ReadFindsMemory(disk: seq<Entry>, m: Memory, w: World)
    requires DiskOk(disk, m, w) && StartOk(disk, m) && m.chain == [ReadCall]
    ensures Plain(disk) == Plain(m.entries)
    ensures m.started + (set e | e in disk && e.started :: e.sent.id) == m.started
  {
    assert At(disk, m.chain, 1) == disk && At(disk, m.chain, 0) == disk;
    forall e | e in disk && e.started ensures e.sent.id in m.started {
      var i :| 0 <= i < |disk| && disk[i] == e;
      assert Plain(disk)[i].sent == Plain(m.entries)[i].sent;
    }
  }

  lemma StoreKeeps(s: Sys)
    requires Inv(s) && s.mem.chain != []
    ensures Inv(CallRun(s))
  {
    hide DiskOk, StartOk, PhaseOk, ServerOk, Run;
    var t, disk, mem := CallRun(s), Run(s.disk, s.mem.chain[0]), s.mem.(chain := s.mem.chain[1..]);
    StoredDisk(s.disk, s.mem, WorldOf(s));
    StoredStart(s.disk, s.mem);
    StoredPhase(s.mem, s.phase, WorldOf(s));
    SameServer(s, t);
    if s.mem.chain[0].ReadCall? && s.phase.Reading? {
      if s.phase.asked == s.mem.version { AcceptedRead(s.disk, s.mem, s.phase, WorldOf(s)); }
    }
  }

  lemma SameServer(s: Sys, t: Sys)
    requires ServerOk(s) && t == s.(mem := t.mem, disk := t.disk, phase := t.phase, dropped := t.dropped)
    ensures ServerOk(t)
  {
  }

  lemma StoredPhase(m: Memory, phase: Phase, w: World)
    requires PhaseOk(m, phase, w) && m.chain != []
    ensures PhaseOk(m.(chain := m.chain[1..]), if m.chain[0].ReadCall? && phase.Reading? then Idle else phase, w)
  {
    var rest := m.chain[1..];
    assert forall i :: 0 <= i < |rest| ==> rest[i] == m.chain[i + 1];
    hide EntryOk;
  }

  lemma AcceptedRead(disk: seq<Entry>, m: Memory, phase: Phase, w: World)
    requires DiskOk(disk, m, w) && StartOk(disk, m) && PhaseOk(m, phase, w)
    requires m.chain != [] && m.chain[0].ReadCall? && phase == Reading(m.version)
    ensures var r := AfterRead(m.(chain := m.chain[1..]), disk, m.version);
      Run(disk, m.chain[0]) == disk && r.started == m.started && DiskOk(disk, r, w) && StartOk(disk, r)
        && PhaseOk(r, Idle, w)
  {
    hide DiskOk, StartOk, EntryOk;
    assert |m.chain| == 1;
    assert m.chain == [ReadCall] && m.chain[1..] == [];
    ReadFindsMemory(disk, m, w);
    StoredDisk(disk, m, w);
    StoredStart(disk, m);
    ReadKeeps(disk, m.(chain := []), w);
    hide Plain;
  }

  lemma StoredDisk(disk: seq<Entry>, m: Memory, w: World)
    requires DiskOk(disk, m, w) && m.chain != []
    ensures DiskOk(Run(disk, m.chain[0]), m.(chain := m.chain[1..]), w)
  {
    hide Sound, Tied, Plain, Run;
    forall i | 0 <= i <= |m.chain| - 1 ensures At(Run(disk, m.chain[0]), m.chain[1..], i) == At(disk, m.chain, i + 1) {
      AtLater(disk, m.chain, i);
    }
  }

  lemma StoredStart(disk: seq<Entry>, m: Memory)
    requires StartOk(disk, m) && m.chain != []
    ensures StartOk(Run(disk, m.chain[0]), m.(chain := m.chain[1..]))
  {
    hide HeadOn, Run;
    forall i | 0 <= i <= |m.chain| - 1 ensures At(Run(disk, m.chain[0]), m.chain[1..], i) == At(disk, m.chain, i + 1) {
      AtLater(disk, m.chain, i);
    }
    assert forall i :: 0 <= i <= |m.chain| - 1 ==> m.chain[1..][i..] == m.chain[i + 1..];
  }

  lemma ReadKeeps(disk: seq<Entry>, m: Memory, w: World)
    requires DiskOk(disk, m, w) && StartOk(disk, m) && m.chain == [] && Plain(disk) == Plain(m.entries)
    ensures DiskOk(disk, m.(entries := disk), w) && StartOk(disk, m.(entries := disk))
  {
    assert At(disk, m.chain, 0) == disk;
    SamePlain(disk, m.entries);
    forall k | 0 <= k < |disk| ensures disk[k].sent == m.entries[k].sent {
      assert disk[k].(started := false) == m.entries[k].(started := false);
    }
    hide Plain, Sound;
  }

  lemma AskKeeps(s: Sys)
    requires Inv(s) && s.phase.Idle?
    ensures Inv(s.(mem := s.mem.(chain := s.mem.chain + [ReadCall]), phase := Reading(s.mem.version)))
  {
    var m := s.mem.(chain := s.mem.chain + [ReadCall]);
    hide Sound, Tied, Plain, HeadOn;
    DiskGrows(s.disk, s.mem, m, ReadCall, WorldOf(s), WorldOf(s));
    StartGrows(s.disk, s.mem, m, ReadCall);
    hide DiskOk, StartOk, ServerOk;
  }

  lemma StartKeeps(s: Sys)
    requires Inv(s) && s.phase.Idle? && s.mem.entries != []
    ensures Inv(s.(mem := Starting(s.mem, s.mem.entries[0].sent.id), phase := Marking(s.mem.entries[0])))
  {
    hide DiskOk, StartOk, PhaseOk, ServerOk;
    var e := s.mem.entries[0];
    var t := s.(mem := Starting(s.mem, e.sent.id), phase := Marking(e));
    LastDisk(s.disk, s.mem, WorldOf(s));
    HeadEntry(At(s.disk, s.mem.chain, |s.mem.chain|), s.mem.entries, WorldOf(s));
    StartPhase(s.mem, WorldOf(s));
    SameServer(s, t);
    if e.sent.id !in s.mem.started { StartDisk(s.disk, s.mem, WorldOf(s)); }
  }

  lemma LastDisk(disk: seq<Entry>, m: Memory, w: World)
    requires DiskOk(disk, m, w)
    ensures var d := At(disk, m.chain, |m.chain|);
      Sound(d, w) && Tied(d, m.entries, m.started) && Plain(d) == Plain(m.entries)
  {
    hide Sound, Tied, Plain, At;
  }

  lemma StartPhase(m: Memory, w: World)
    requires PhaseOk(m, Idle, w) && m.entries != [] && EntryOk(m.entries[0], w)
    ensures PhaseOk(Starting(m, m.entries[0].sent.id), Marking(m.entries[0]), w)
  {
    hide EntryOk;
  }

  lemma StartDisk(disk: seq<Entry>, m: Memory, w: World)
    requires DiskOk(disk, m, w) && StartOk(disk, m) && m.entries != [] && m.entries[0].sent.id !in m.started
    ensures DiskOk(disk, Starting(m, m.entries[0].sent.id), w) && StartOk(disk, Starting(m, m.entries[0].sent.id))
  {
    hide Sound, Plain, StartOk;
    var e, n := m.entries[0], |m.chain|;
    var m', d := Starting(m, e.sent.id), At(disk, m.chain, n);
    forall i | 0 <= i <= n ensures Tied(At(disk, m.chain, i), m'.entries, m'.started) {
      assert Tied(At(disk, m.chain, i), m.entries, m.started);
    }
    StartedLast(d, m, e.sent.id, w);
    hide Tied, At;
    DiskGrows(disk, m, m', StartedCall(e.sent.id), w, w);
    OtherIds(d, m.entries, w);
    StartedHead(disk, m, m', e.sent);
  }

  lemma OtherIds(d: seq<Entry>, entries: seq<Entry>, w: World)
    requires Sound(d, w) && Plain(d) == Plain(entries)
    ensures forall i, j :: 0 <= i < j < |entries| ==> entries[i].sent.id < entries[j].sent.id
  {
    forall k | 0 <= k < |entries| ensures |d| == |entries| && d[k].sent == entries[k].sent {
      assert |Plain(d)| == |Plain(entries)| && Plain(d)[k].sent == Plain(entries)[k].sent;
    }
  }

  lemma HeadEntry(d: seq<Entry>, entries: seq<Entry>, w: World)
    requires Sound(d, w) && Plain(d) == Plain(entries) && entries != []
    ensures d != [] && d[0].sent == entries[0].sent && EntryOk(entries[0], w)
  {
    assert |Plain(d)| == |d| && Plain(d)[0] == Plain(entries)[0];
  }

  lemma StartedLast(d: seq<Entry>, m: Memory, id: Uid, w: World)
    requires Sound(d, w) && Tied(d, m.entries, m.started) && Plain(d) == Plain(m.entries) && m.entries != []
      && m.entries[0].sent.id == id
    ensures Sound(Started(d, id), w) && Tied(Started(d, id), m.entries, m.started + {id})
      && Plain(Started(d, id)) == Plain(m.entries)
    ensures HeadOn(Started(d, id), m.entries[0].sent)
  {
    HeadEntry(d, m.entries, w);
    var d' := Started(d, id);
    assert Plain(d') == Plain(d);
    forall k | 0 <= k < |d| ensures d[k].sent == m.entries[k].sent {
      assert Plain(d)[k].sent == Plain(m.entries)[k].sent;
    }
  }

  lemma StartedHead(disk: seq<Entry>, m: Memory, m': Memory, sent: SentOp)
    requires StartOk(disk, m) && m.entries != [] && m.entries[0].sent == sent && m'.entries == m.entries
    requires m'.started == m.started + {sent.id} && m'.chain == m.chain + [StartedCall(sent.id)]
    requires HeadOn(Run(At(disk, m.chain, |m.chain|), StartedCall(sent.id)), sent)
    requires forall k :: 1 <= k < |m.entries| ==> m.entries[k].sent.id != sent.id
    ensures StartOk(disk, m')
  {
    hide Run, HeadOn;
    var n := |m.chain|;
    AtLonger(disk, m.chain, [StartedCall(sent.id)], n);
    forall i | 0 <= i <= n ensures StartedCall(sent.id) in m'.chain[i..] {
      assert m'.chain[i..][n - i] == StartedCall(sent.id);
    }
  }

  lemma TransmitKeeps(s: Sys)
    requires Inv(s) && s.phase.Marking? && StartedCall(s.phase.e.sent.id) !in s.mem.chain
    ensures Inv(s.(requests := s.requests + [s.phase.e.sent], phase := Open(s.phase.e)))
  {
    hide DiskOk, StartOk, PhaseOk, ServerOk;
    var t := s.(requests := s.requests + [s.phase.e.sent], phase := Open(s.phase.e));
    var sent := s.phase.e.sent;
    MarkedHead(s.mem, s.phase, WorldOf(s));
    HeadEverywhere(s.disk, s.mem, sent);
    OneMoreRequest(s.disk, s.mem, WorldOf(s), sent);
    TransmitPhase(s.mem, s.phase.e, WorldOf(s));
    TransmitServer(s, t, sent);
  }

  lemma MarkedHead(m: Memory, phase: Phase, w: World)
    requires PhaseOk(m, phase, w) && (phase.Marking? || phase.Open?)
    ensures m.entries != [] && m.entries[0].sent == phase.e.sent && phase.e.sent.id in m.started && EntryOk(phase.e, w)
  {
  }

  /** Once its start is stored, the head of the queue is first in the storage, now and later. */
  lemma HeadEverywhere(disk: seq<Entry>, m: Memory, sent: SentOp)
    requires StartOk(disk, m) && m.entries != [] && m.entries[0].sent == sent && sent.id in m.started
      && StartedCall(sent.id) !in m.chain
    ensures forall i :: 0 <= i <= |m.chain| ==> HeadOn(At(disk, m.chain, i), sent)
  {
    hide HeadOn, At;
  }

  lemma OneMoreRequest(disk: seq<Entry>, m: Memory, w: World, sent: SentOp)
    requires DiskOk(disk, m, w) && forall i :: 0 <= i <= |m.chain| ==> HeadOn(At(disk, m.chain, i), sent)
    ensures DiskOk(disk, m, w.(requests := w.requests + [sent]))
  {
    hide At, Tied, Plain, Sound, HeadOn;
    var w' := w.(requests := w.requests + [sent]);
    forall i | 0 <= i <= |m.chain| ensures Sound(At(disk, m.chain, i), w') {
      SoundRequest(At(disk, m.chain, i), w, sent);
    }
  }

  lemma SoundRequest(d: seq<Entry>, w: World, sent: SentOp)
    requires Sound(d, w) && HeadOn(d, sent)
    ensures Sound(d, w.(requests := w.requests + [sent]))
  {
  }

  lemma TransmitPhase(m: Memory, e: Entry, w: World)
    requires PhaseOk(m, Marking(e), w) && StartedCall(e.sent.id) !in m.chain
    ensures PhaseOk(m, Open(e), w.(requests := w.requests + [e.sent]))
  {
    assert e.sent in w.requests + [e.sent];
  }

  lemma TransmitServer(s: Sys, t: Sys, sent: SentOp)
    requires ServerOk(s) && t == s.(requests := s.requests + [sent], phase := t.phase)
    requires DiskOk(s.disk, s.mem, WorldOf(s)) && HeadOn(At(s.disk, s.mem.chain, 0), sent)
    ensures ServerOk(t)
  {
    hide DiskOk;
    FirstDisk(s.disk, s.mem, WorldOf(s));
  }

  lemma FirstDisk(disk: seq<Entry>, m: Memory, w: World)
    requires DiskOk(disk, m, w)
    ensures Sound(disk, w)
  {
    hide Sound, Tied, Plain;
    assert At(disk, m.chain, 0) == disk;
  }

  // The server

  lemma TickKeeps(s: Sys, now: Time)
    requires Inv(s) && s.now <= now
    ensures Inv(s.(now := now))
  {
    hide DiskOk, StartOk, PhaseOk;
  }

  lemma PruneKeeps(s: Sys)
    requires Inv(s)
    ensures Inv(s.(processed := map id | id in s.processed && s.processed[id].at >= s.now - HOLD :: s.processed[id]))
  {
    hide DiskOk, StartOk, PhaseOk, WorldOk;
  }

  lemma ArriveKeeps(s: Sys, sent: SentOp)
    requires Inv(s) && sent in s.requests
    ensures Inv(Arrived(s, sent))
  {
    hide DiskOk, StartOk, PhaseOk, ServerOk;
    ArrivedServer(s, sent);
  }

  lemma OpenHead(m: Memory, e: Entry, w: World)
    requires PhaseOk(m, Open(e), w)
    ensures m.entries != [] && m.entries[0].sent == e.sent && e.sent.id in m.started && EntryOk(e, w)
    ensures StartedCall(e.sent.id) !in m.chain && e.sent in w.requests
  {
    hide EntryOk;
  }

  lemma ArrivedServer(s: Sys, sent: SentOp)
    requires ServerOk(s) && sent in s.requests && sent.id in s.made
    ensures ServerOk(Arrived(s, sent))
  {
  }

  // The answer, an error, or none

  lemma LoseKeeps(s: Sys)
    requires Inv(s) && s.phase.Open?
    ensures Inv(s.(phase := Idle))
  {
    hide DiskOk, StartOk, ServerOk, EntryOk;
    SameServer(s, s.(phase := Idle));
  }

  lemma {:induction false} WithoutNone(d: seq<Entry>, id: Uid)
    requires forall i :: 0 <= i < |d| ==> d[i].sent.id != id
    ensures WithoutEntry(d, id) == d
  {
    if d != [] { WithoutNone(d[1..], id); }
  }

  lemma WithoutHead(d: seq<Entry>, w: World)
    requires Sound(d, w) && d != []
    ensures WithoutEntry(d, d[0].sent.id) == d[1..]
  {
    WithoutNone(d[1..], d[0].sent.id);
  }

  lemma TailSound(d: seq<Entry>, w: World)
    requires Sound(d, w) && d != []
    ensures Sound(d[1..], w)
  {
  }

  lemma RemovedTied(d: seq<Entry>, entries: seq<Entry>, started: set<Uid>)
    requires Tied(d, entries, started) && entries != []
    ensures Tied(d, entries[1..], started - {entries[0].sent.id})
  {
  }

  /** The head leaves the queue: what is behind it was never started. */
  lemma RemoveDisk(disk: seq<Entry>, m: Memory, w: World)
    requires DiskOk(disk, m, w) && StartOk(disk, m) && m.entries != []
    ensures DiskOk(disk, Removed(m, m.entries[0].sent.id), w) && StartOk(disk, Removed(m, m.entries[0].sent.id))
    ensures Removed(m, m.entries[0].sent.id).entries == m.entries[1..]
    ensures forall k :: 0 <= k < |m.entries| - 1 ==>
      m.entries[1..][k].sent.id !in Removed(m, m.entries[0].sent.id).started
  {
    hide Sound, Tied, Plain;
    var id, n := m.entries[0].sent.id, |m.chain|;
    var m', d := Removed(m, id), At(disk, m.chain, n);
    LastDisk(disk, m, w);
    RemoveLast(d, m.entries, w);
    forall i | 0 <= i <= n ensures Tied(At(disk, m.chain, i), m'.entries, m'.started) {
      RemovedTied(At(disk, m.chain, i), m.entries, m.started);
    }
    RemovedTied(d, m.entries, m.started);
    TiedTail(d, m'.entries, m'.started);
    hide At;
    DiskGrows(disk, m, m', RemoveCall(id), w, w);
  }

  lemma TiedTail(d: seq<Entry>, entries: seq<Entry>, started: set<Uid>)
    requires Tied(d, entries, started) && d != []
    ensures Tied(d[1..], entries, started)
  {
  }

  lemma RemoveLast(d: seq<Entry>, entries: seq<Entry>, w: World)
    requires Sound(d, w) && Plain(d) == Plain(entries) && entries != []
    ensures d != [] && WithoutEntry(d, entries[0].sent.id) == d[1..]
      && WithoutEntry(entries, entries[0].sent.id) == entries[1..]
    ensures Sound(d[1..], w) && Plain(d[1..]) == Plain(entries[1..])
    ensures forall i, j :: 0 <= i < j < |entries| ==> entries[i].sent.id < entries[j].sent.id
  {
    OtherIds(d, entries, w);
    HeadEntry(d, entries, w);
    PlainTail(d, entries);
    WithoutHead(d, w);
    TailSound(d, w);
    hide Sound, Plain, WithoutEntry;
    WithoutTail(entries);
  }

  lemma WithoutTail(entries: seq<Entry>)
    requires entries != [] && forall i, j :: 0 <= i < j < |entries| ==> entries[i].sent.id < entries[j].sent.id
    ensures WithoutEntry(entries, entries[0].sent.id) == entries[1..]
  {
    WithoutNone(entries[1..], entries[0].sent.id);
  }

  lemma PlainTail(d: seq<Entry>, entries: seq<Entry>)
    requires Plain(d) == Plain(entries) && d != [] && entries != []
    ensures Plain(d[1..]) == Plain(entries[1..])
  {
    assert Plain(d[1..]) == Plain(d)[1..] && Plain(entries[1..]) == Plain(entries)[1..];
  }

  lemma SamePlain(d: seq<Entry>, entries: seq<Entry>)
    ensures Plain(d) == Plain(entries) <==>
      |d| == |entries| && forall k :: 0 <= k < |d| ==> d[k].(started := false) == entries[k].(started := false)
  {
    if Plain(d) == Plain(entries) {
      assert |Plain(d)| == |Plain(entries)|;
      forall k | 0 <= k < |d| ensures d[k].(started := false) == entries[k].(started := false) {
        assert Plain(d)[k] == Plain(entries)[k];
      }
    }
  }

  lemma RemovePhase(m: Memory, e: Entry, w: World)
    requires PhaseOk(m, Open(e), w) && WorldOk(w, m.started)
    ensures PhaseOk(Removed(m, e.sent.id), Idle, w) && WorldOk(w, Removed(m, e.sent.id).started)
  {
    hide EntryOk, WithoutEntry;
  }

  lemma FailKeeps(s: Sys)
    requires Inv(s) && s.phase.Open?
    ensures Inv(Failed(s, s.phase.e.sent.id))
  {
    hide DiskOk, StartOk, PhaseOk, ServerOk, WorldOk;
    var t := Failed(s, s.phase.e.sent.id);
    OpenHead(s.mem, s.phase.e, WorldOf(s));
    RemoveDisk(s.disk, s.mem, WorldOf(s));
    RemovePhase(s.mem, s.phase.e, WorldOf(s));
    SameServer(s, t);
  }

  /** One rewritten op behind the head, stored by one call. */
  function OneSet(m: Memory, id: Uid, op: Op): Memory {
    m.(entries := WithOp(m.entries, id, op), chain := m.chain + [SetOpCall(id, op)])
  }

  lemma SetLast(d: seq<Entry>, entries: seq<Entry>, started: set<Uid>, w: World, id: Uid, op: Op)
    requires Sound(d, w) && Tied(d, entries, started) && Plain(d) == Plain(entries) && id !in started
    ensures Sound(WithOp(d, id, op), w) && Tied(WithOp(d, id, op), WithOp(entries, id, op), started)
    ensures Plain(WithOp(d, id, op)) == Plain(WithOp(entries, id, op))
  {
    SamePlain(d, entries);
    SamePlain(WithOp(d, id, op), WithOp(entries, id, op));
    hide Plain;
    forall i | 0 <= i < |d| && d[i].started ensures d[i].sent.id != id {
      assert d[i].(started := false) == entries[i].(started := false);
    }
    SetSound(d, w, id, op);
    hide Sound;
  }

  lemma SetSound(d: seq<Entry>, w: World, id: Uid, op: Op)
    requires Sound(d, w) && forall i :: 0 <= i < |d| && d[i].started ==> d[i].sent.id != id
    ensures Sound(WithOp(d, id, op), w)
  {
  }

  lemma SetTied(d: seq<Entry>, entries: seq<Entry>, started: set<Uid>, id: Uid, op: Op)
    requires Tied(d, entries, started) && id !in started
    ensures Tied(d, WithOp(entries, id, op), started)
  {
  }

  lemma SetDisk(disk: seq<Entry>, m: Memory, w: World, id: Uid, op: Op)
    requires DiskOk(disk, m, w) && id !in m.started
    ensures DiskOk(disk, OneSet(m, id, op), w)
  {
    hide Sound, Tied, Plain, WithOp;
    var m', n := OneSet(m, id, op), |m.chain|;
    LastDisk(disk, m, w);
    SetLast(At(disk, m.chain, n), m.entries, m.started, w, id, op);
    forall i | 0 <= i <= n ensures Tied(At(disk, m.chain, i), m'.entries, m'.started) {
      SetTied(At(disk, m.chain, i), m.entries, m.started, id, op);
    }
    hide At;
    DiskGrows(disk, m, m', SetOpCall(id, op), w, w);
  }

  /** All entries unstarted: nothing is first in the storage yet. */
  ghost predicate NoneStarted(m: Memory) { forall k :: 0 <= k < |m.entries| ==> m.entries[k].sent.id !in m.started }

  function AllSet(m: Memory, order: seq<Uid>, rewritten: map<Uid, Op>): Memory
    requires forall id :: id in order ==> id in rewritten
  {
    if order == [] then m
    else
      var last := order[|order| - 1];
      OneSet(AllSet(m, order[..|order| - 1], rewritten), last, rewritten[last])
  }

  lemma {:induction false} AllSetKeeps(disk: seq<Entry>, m: Memory, w: World, order: seq<Uid>, rewritten: map<Uid, Op>)
    requires DiskOk(disk, m, w) && (forall id :: id in order ==> id in rewritten && id !in m.started)
    ensures var m' := AllSet(m, order, rewritten);
      DiskOk(disk, m', w) && m'.started == m.started && m'.chain == m.chain + SetOpCalls(order, rewritten)
        && m'.version == m.version
    ensures var e := AllSet(m, order, rewritten).entries;
      |e| == |m.entries| && forall k :: 0 <= k < |e| ==>
        e[k] == m.entries[k].(sent :=
          SentOp(m.entries[k].sent.id, if m.entries[k].sent.id in order then rewritten[m.entries[k].sent.id]
          else m.entries[k].sent.op))
  {
    hide DiskOk;
    if order != [] {
      var rest, last := order[..|order| - 1], order[|order| - 1];
      assert order == rest + [last];
      AllSetKeeps(disk, m, w, rest, rewritten);
      SetDisk(disk, AllSet(m, rest, rewritten), w, last, rewritten[last]);
      assert SetOpCalls(order, rewritten) == SetOpCalls(rest, rewritten) + [SetOpCall(last, rewritten[last])];
    }
  }

  lemma RewriteDisk(disk: seq<Entry>, m: Memory, w: World, order: seq<Uid>, rewritten: map<Uid, Op>)
    requires DiskOk(disk, m, w) && NoneStarted(m)
    requires (forall id :: id in order <==> id in rewritten) && forall id :: id in rewritten ==> id !in m.started
    ensures DiskOk(disk, WithRewrites(m, order, rewritten), w) && StartOk(disk, WithRewrites(m, order, rewritten))
  {
    hide DiskOk;
    AllSetKeeps(disk, m, w, order, rewritten);
    var m' := AllSet(m, order, rewritten);
    var r := WithRewrites(m, order, rewritten);
    if rewritten != map[] {
      assert m'.entries == RewriteEntries(m.entries, rewritten);
      SameDisk(disk, m', r, w);
    }
  }

  lemma SameDisk(disk: seq<Entry>, m: Memory, m': Memory, w: World)
    requires DiskOk(disk, m, w) && m' == m.(version := m'.version)
    ensures DiskOk(disk, m', w)
  {
    hide Sound, Tied, Plain, At;
  }

  lemma RewritePhase(m: Memory, w: World, order: seq<Uid>, rewritten: map<Uid, Op>)
    requires PhaseOk(m, Idle, w) && (forall id :: id in order ==> id in rewritten)
    ensures PhaseOk(WithRewrites(m, order, rewritten), Idle, w)
  {
    hide EntryOk;
  }

  lemma AnswerKeeps(s: Sys, order: seq<Uid>, rewritten: map<Uid, Op>)
    requires Inv(s) && s.phase.Open? && (forall id :: id in order <==> id in rewritten)
    requires forall id :: id in rewritten ==> id !in s.mem.started
    ensures Inv(s.(mem := WithRewrites(Removed(s.mem, s.phase.e.sent.id), order, rewritten), phase := Idle))
  {
    hide DiskOk, StartOk, PhaseOk, ServerOk, WorldOk;
    var m := Removed(s.mem, s.phase.e.sent.id);
    var t := s.(mem := WithRewrites(m, order, rewritten), phase := Idle);
    OpenHead(s.mem, s.phase.e, WorldOf(s));
    RemoveDisk(s.disk, s.mem, WorldOf(s));
    RemovePhase(s.mem, s.phase.e, WorldOf(s));
    RewriteDisk(s.disk, m, WorldOf(s), order, rewritten);
    RewritePhase(m, WorldOf(s), order, rewritten);
    SameServer(s, t);
  }

  // Holds and approvals

  function OneState(m: Memory, ids: set<Uid>, state: EntryState): Memory {
    m.(entries := WithState(m.entries, ids, state), chain := m.chain + [StateCall(ids, state)])
  }

  lemma StateLast(d: seq<Entry>, entries: seq<Entry>, started: set<Uid>, w: World, ids: set<Uid>, state: EntryState)
    requires Sound(d, w) && Tied(d, entries, started) && Plain(d) == Plain(entries)
      && (state == Approved ==> ids <= w.approved)
    ensures Sound(WithState(d, ids, state), w)
      && Tied(WithState(d, ids, state), WithState(entries, ids, state), started)
    ensures Plain(WithState(d, ids, state)) == Plain(WithState(entries, ids, state))
  {
    SamePlain(d, entries);
    SamePlain(WithState(d, ids, state), WithState(entries, ids, state));
    hide Plain;
    StateSound(d, w, ids, state);
    hide Sound;
  }

  lemma StateSound(d: seq<Entry>, w: World, ids: set<Uid>, state: EntryState)
    requires Sound(d, w) && (state == Approved ==> ids <= w.approved)
    ensures Sound(WithState(d, ids, state), w)
  {
  }

  lemma StateTied(d: seq<Entry>, entries: seq<Entry>, started: set<Uid>, ids: set<Uid>, state: EntryState)
    requires Tied(d, entries, started)
    ensures Tied(d, WithState(entries, ids, state), started)
  {
  }

  lemma StateDisk(disk: seq<Entry>, m: Memory, w: World, ids: set<Uid>, state: EntryState)
    requires DiskOk(disk, m, w) && StartOk(disk, m) && (state == Approved ==> ids <= w.approved)
    ensures DiskOk(disk, OneState(m, ids, state), w) && StartOk(disk, OneState(m, ids, state))
  {
    hide Sound, Tied, Plain, StartOk;
    var m', n := OneState(m, ids, state), |m.chain|;
    LastDisk(disk, m, w);
    StateLast(At(disk, m.chain, n), m.entries, m.started, w, ids, state);
    forall i | 0 <= i <= n ensures Tied(At(disk, m.chain, i), m'.entries, m'.started) {
      StateTied(At(disk, m.chain, i), m.entries, m.started, ids, state);
    }
    hide At;
    DiskGrows(disk, m, m', StateCall(ids, state), w, w);
    hide DiskOk;
    StartGrows(disk, m, m', StateCall(ids, state));
  }

  function AllStates(m: Memory, parts: seq<set<Uid>>, state: EntryState): Memory {
    if parts == [] then m else OneState(AllStates(m, parts[..|parts| - 1], state), parts[|parts| - 1], state)
  }

  lemma {:induction false} AllStatesKeep(disk: seq<Entry>, m: Memory, w: World, parts: seq<set<Uid>>, state: EntryState)
    requires DiskOk(disk, m, w) && StartOk(disk, m) && (state == Approved ==> Union(parts) <= w.approved)
    ensures var m' := AllStates(m, parts, state);
      DiskOk(disk, m', w) && StartOk(disk, m') && m'.started == m.started && m'.version == m.version
      && m'.chain == m.chain + StateCalls(parts, state) && m'.entries == WithState(m.entries, Union(parts), state)
  {
    hide DiskOk, StartOk;
    if parts == [] {
      assert StateCalls(parts, state) == [] && WithState(m.entries, {}, state) == m.entries;
    } else {
      var rest := parts[..|parts| - 1];
      AllStatesKeep(disk, m, w, rest, state);
      StateDisk(disk, AllStates(m, rest, state), w, parts[|parts| - 1], state);
      assert StateCalls(parts, state) == StateCalls(rest, state) + [StateCall(parts[|parts| - 1], state)];
      assert WithState(WithState(m.entries, Union(rest), state), parts[|parts| - 1], state)
        == WithState(m.entries, Union(parts), state);
    }
  }

  lemma MoreApproved(disk: seq<Entry>, m: Memory, w: World, approved: set<Uid>)
    requires DiskOk(disk, m, w) && w.approved <= approved
    ensures DiskOk(disk, m, w.(approved := approved))
  {
    hide At, Tied, Plain, Sound;
    forall i | 0 <= i <= |m.chain| ensures Sound(At(disk, m.chain, i), w.(approved := approved)) {
      SoundApproved(At(disk, m.chain, i), w, approved);
    }
  }

  lemma SoundApproved(d: seq<Entry>, w: World, approved: set<Uid>)
    requires Sound(d, w) && w.approved <= approved
    ensures Sound(d, w.(approved := approved))
  {
  }

  lemma StatePhase(m: Memory, phase: Phase, w: World, ids: set<Uid>, state: EntryState, parts: seq<set<Uid>>,
      approved: set<Uid>)
    requires PhaseOk(m, phase, w) && w.approved <= approved
    ensures PhaseOk(Mutated(m, WithState(m.entries, ids, state), StateCalls(parts, state)), phase,
      w.(approved := approved))
  {
  }

  lemma StatesKeep(s: Sys, ids: set<Uid>, state: EntryState, parts: seq<set<Uid>>)
    requires Inv(s) && ids == Union(parts)
    ensures Inv(s.(mem := Mutated(s.mem, WithState(s.mem.entries, ids, state), StateCalls(parts, state)),
                   approved := if state == Approved then s.approved + ids else s.approved))
  {
    hide DiskOk, StartOk, PhaseOk, ServerOk, Union, WithState, StateCalls;
    var approved := if state == Approved then s.approved + ids else s.approved;
    var t :=
        s.(mem := Mutated(s.mem, WithState(s.mem.entries, ids, state), StateCalls(parts, state)), approved := approved);
    MoreApproved(s.disk, s.mem, WorldOf(s), approved);
    AllStatesKeep(s.disk, s.mem, WorldOf(t), parts, state);
    SameDisk(s.disk, AllStates(s.mem, parts, state), t.mem, WorldOf(t));
    SameStart(s.disk, AllStates(s.mem, parts, state), t.mem);
    StatePhase(s.mem, s.phase, WorldOf(s), ids, state, parts, approved);
    ApprovedServer(s, t);
  }

  lemma SameStart(disk: seq<Entry>, m: Memory, m': Memory)
    requires StartOk(disk, m) && m' == m.(version := m'.version)
    ensures StartOk(disk, m')
  {
    hide At, HeadOn;
  }

  lemma ApprovedServer(s: Sys, t: Sys)
    requires ServerOk(s) && t == s.(mem := t.mem, approved := t.approved) && s.approved <= t.approved
    ensures ServerOk(t)
  {
  }

  // A crash: the calls not run are lost

  lemma CrashKeeps(s: Sys)
    requires Inv(s)
    ensures Inv(s.(mem := Reloaded(s.disk), phase := Idle))
  {
    hide DiskOk, StartOk, PhaseOk, ServerOk;
    var t := s.(mem := Reloaded(s.disk), phase := Idle);
    FirstDisk(s.disk, s.mem, WorldOf(s));
    CrashDisk(s.disk, WorldOf(s));
    CrashPhase(s.disk, WorldOf(s));
    SameServer(s, t);
  }

  lemma CrashDisk(disk: seq<Entry>, w: World)
    requires Sound(disk, w)
    ensures DiskOk(disk, Reloaded(disk), w) && StartOk(disk, Reloaded(disk))
  {
    assert At(disk, [], 0) == disk;
  }

  lemma CrashPhase(disk: seq<Entry>, w: World)
    requires Sound(disk, w) && forall r :: r in w.requests ==> r.id in w.made
    ensures PhaseOk(Reloaded(disk), Idle, w) && WorldOk(w, Reloaded(disk).started)
  {
  }

  lemma StepKeeps(s: Sys, step: Step)
    requires Inv(s) && Can(s, step)
    ensures Inv(Do(s, step))
  {
    hide Inv, CallRun, Arrived, Failed, Queued, Starting, Removed, WithRewrites, Reloaded, WithState, StateCalls, Union,
      Classify;
    match step
    case Tick(now) => TickKeeps(s, now);
    case Act(id, op) => ActKeeps(s, id, op);
    case Store => StoreKeeps(s);
    case Read => AskKeeps(s);
    case Start => StartKeeps(s);
    case Transmit => TransmitKeeps(s);
    case Arrive(sent) => ArriveKeeps(s, sent);
    case Answer(order, rewritten) => AnswerKeeps(s, order, rewritten);
    case Lose => LoseKeeps(s);
    case Fail => FailKeeps(s);
    case SetStates(ids, state, parts) => StatesKeep(s, ids, state, parts);
    case Prune => PruneKeeps(s);
    case Crash => CrashKeeps(s);
  }

  ghost predicate Possible(s: Sys, steps: seq<Step>)
    decreases |steps|
  {
    steps == [] || (Can(s, steps[0]) && Possible(Do(s, steps[0]), steps[1..]))
  }

  ghost function After(s: Sys, steps: seq<Step>): Sys
    requires Possible(s, steps)
    decreases |steps|
  {
    if steps == [] then s else After(Do(s, steps[0]), steps[1..])
  }

  lemma {:induction false} RunKeeps(s: Sys, steps: seq<Step>)
    requires Inv(s) && Possible(s, steps)
    ensures Inv(After(s, steps))
    decreases |steps|
  {
    hide Inv, Can, Do;
    if steps != [] {
      StepKeeps(s, steps[0]);
      RunKeeps(Do(s, steps[0]), steps[1..]);
    }
  }

  // What every run keeps

  /** Within the hold age of the op, or the user sent it by hand. */
  predicate InTime(s: Sys, sent: SentOp) {
    sent.id in s.approved || (sent.id in s.made && s.now - s.made[sent.id] <= HOLD)
  }

  /** The page starts an op only in time. */
  lemma StartsInTime(s: Sys, steps: seq<Step>)
    requires Init(s) && Possible(s, steps) && Can(After(s, steps), Start)
    ensures InTime(After(s, steps), After(s, steps).mem.entries[0].sent)
  {
    hide Possible, After, Init, StartOk, PhaseOk, ServerOk, WorldOk, Tied;
    InitInv(s);
    RunKeeps(s, steps);
    var t := After(s, steps);
    LastDisk(t.disk, t.mem, WorldOf(t));
    HeadEntry(At(t.disk, t.mem.chain, |t.mem.chain|), t.mem.entries, WorldOf(t));
    hide DiskOk, Inv;
  }

  /** And whatever is in time it can start: the first entry of an idle page, not held for sign-out. */
  lemma StartsWhenInTime(s: Sys, steps: seq<Step>)
    requires Init(s) && Possible(s, steps)
    requires var t := After(s, steps); t.phase.Idle? && t.mem.entries != []
    requires var t := After(s, steps); var e := t.mem.entries[0];
      e.state == Approved || (e.state == Pending && e.sent.id in t.made && t.now - t.made[e.sent.id] <= 2_592_000_000)
    ensures Can(After(s, steps), Start)
  {
    hide Possible, After, Init, StartOk, PhaseOk, ServerOk, WorldOk, Tied;
    InitInv(s);
    RunKeeps(s, steps);
    var t := After(s, steps);
    LastDisk(t.disk, t.mem, WorldOf(t));
    HeadEntry(At(t.disk, t.mem.chain, |t.mem.chain|), t.mem.entries, WorldOf(t));
    hide DiskOk, Inv;
  }

  /** Pruning is harmless: in every run, an executed op without a stored response was made before the hold age. */
  lemma PrunedAreOld(s: Sys, steps: seq<Step>)
    requires Init(s) && Possible(s, steps)
    ensures var t := After(s, steps);
      forall i :: 0 <= i < |t.log| ==>
          t.log[i] in t.made && (t.log[i] in t.processed || t.now - t.made[t.log[i]] > HOLD)
  {
    hide Possible, After, Init, DiskOk, StartOk, PhaseOk, WorldOk;
    InitInv(s);
    RunKeeps(s, steps);
    var t := After(s, steps);
    forall i | 0 <= i < |t.log|
      ensures t.log[i] in t.made && (t.log[i] in t.processed || t.now - t.made[t.log[i]] > HOLD)
    {
      assert Executed(t, t.log[i]);
    }
  }

  /**
    What a crash finds, in every run: a stored queue in which each op has its own ID, only the
    first may have gone out, every request had the stored body, and an open request is the first's.
   */
  lemma EveryCrash(s: Sys, steps: seq<Step>)
    requires Init(s) && Possible(s, steps)
    ensures var t := After(s, steps);
      && (forall i, j :: 0 <= i < j < |t.disk| ==> t.disk[i].sent.id != t.disk[j].sent.id)
      && (forall i :: 1 <= i < |t.disk| ==> !t.disk[i].started)
      && (forall r, i :: r in t.requests && 0 <= i < |t.disk| && r.id == t.disk[i].sent.id ==>
            t.disk[i].started && t.disk[i].sent == r)
      && (t.phase.Open? ==> t.disk != [] && t.disk[0].sent == t.phase.e.sent)
  {
    hide Possible, After, Init, ServerOk, WorldOk, Tied;
    InitInv(s);
    RunKeeps(s, steps);
    var t := After(s, steps);
    FirstDisk(t.disk, t.mem, WorldOf(t));
    if t.phase.Open? {
      HeadEverywhere(t.disk, t.mem, t.phase.e.sent);
      assert HeadOn(At(t.disk, t.mem.chain, 0), t.phase.e.sent);
    }
  }
}
