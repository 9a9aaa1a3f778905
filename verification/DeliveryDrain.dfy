/** Nothing gets stuck: an idle page can send every op of its queue that is in time, in order. */
module DeliveryDrain {
  import opened RoomModel
  import opened Rebase
  import opened WriteQueues
  import opened Delivery

  /** Some run goes from `s` to `t`. */
  ghost predicate Leads(s: Sys, t: Sys) { exists steps :: Possible(s, steps) && After(s, steps) == t }

  lemma LeadsNowhere(s: Sys)
    ensures Leads(s, s)
  {
    assert Possible(s, []) && After(s, []) == s;
  }

  lemma LeadsStep(s: Sys, step: Step)
    requires Can(s, step)
    ensures Leads(s, Do(s, step))
  {
    hide Can, Do;
    assert [step][0] == step && [step][1..] == [];
    assert Possible(Do(s, step), []) && After(Do(s, step), []) == Do(s, step);
    assert Possible(s, [step]) && After(s, [step]) == Do(s, step);
  }

  lemma {:induction false} BothRuns(s: Sys, a: seq<Step>, b: seq<Step>)
    requires Possible(s, a) && Possible(After(s, a), b)
    ensures Possible(s, a + b) && After(s, a + b) == After(After(s, a), b)
    decreases |a|
  {
    hide Can, Do;
    if a == [] {
      assert a + b == b;
    } else {
      BothRuns(Do(s, a[0]), a[1..], b);
      assert (a + b)[0] == a[0] && (a + b)[1..] == a[1..] + b;
    }
  }

  lemma LeadsOn(s: Sys, t: Sys, u: Sys)
    requires Leads(s, t) && Leads(t, u)
    ensures Leads(s, u)
  {
    var a :| Possible(s, a) && After(s, a) == t;
    var b :| Possible(t, b) && After(t, b) == u;
    BothRuns(s, a, b);
    hide Possible, After;
  }

  /** The chain can run out while the page stores a start. */
  lemma {:induction false} ChainRuns(s: Sys)
    requires Inv(s) && !s.phase.Reading?
    ensures var t := s.(disk := At(s.disk, s.mem.chain, |s.mem.chain|), mem := s.mem.(chain := []));
      Inv(t) && Leads(s, t)
    decreases |s.mem.chain|
  {
    hide Inv, Run, Leads;
    if s.mem.chain == [] {
      assert s.mem.(chain := []) == s.mem;
      LeadsNowhere(s);
    } else {
      var t := Do(s, Store);
      StepKeeps(s, Store);
      LeadsStep(s, Store);
      ChainRuns(t);
      AtLater(s.disk, s.mem.chain, |s.mem.chain| - 1);
      LeadsOn(s, t, s.(disk := At(s.disk, s.mem.chain, |s.mem.chain|), mem := s.mem.(chain := [])));
    }
  }

  /** In time, or approved by the user. */
  predicate MaySend(e: Entry, now: Time) {
    e.readable && (e.state == Approved || (e.state == Pending && e.at.Some? && now - e.at.value <= 2_592_000_000))
  }

  /** What the page and the server are like after the first op went out and was answered. */
  ghost predicate SentOne(s: Sys, t: Sys)
    requires s.mem.entries != []
  {
    var id := s.mem.entries[0].sent.id;
    && Inv(t) && t.phase.Idle? && t.mem.entries == s.mem.entries[1..] && t.now == s.now
    && t.log == (if id in s.processed then s.log else s.log + [id])
    && t.processed.Keys == s.processed.Keys + {id} && t.dropped == s.dropped && t.approved == s.approved
  }

  lemma HeadAnswered(s: Sys) returns (t: Sys)
    requires Inv(s) && s.phase.Open? && s.mem.entries != []
    ensures SentOne(s, t) && Leads(s, t)
  {
    hide DiskOk, StartOk, ServerOk, WorldOk, EntryOk, Leads, WithoutEntry;
    var sent := s.phase.e.sent;
    var u := Do(s, Arrive(sent));
    StepKeeps(s, Arrive(sent));
    LeadsStep(s, Arrive(sent));
    assert Can(u, Answer([], map[]));
    t := Do(u, Answer([], map[]));
    StepKeeps(u, Answer([], map[]));
    LeadsStep(u, Answer([], map[]));
    LeadsOn(s, u, t);
    RemoveDisk(u.disk, u.mem, WorldOf(u));
  }

  lemma HeadTransmitted(s: Sys) returns (t: Sys)
    requires Inv(s) && s.phase.Marking? && s.mem.chain == []
    ensures Leads(s, t) && Inv(t) && t == s.(requests := t.requests, phase := Open(s.phase.e))
  {
    t := Do(s, Transmit);
    StepKeeps(s, Transmit);
    LeadsStep(s, Transmit);
    hide Inv, Leads;
  }

  lemma HeadStarted(s: Sys) returns (t: Sys)
    requires Inv(s) && s.phase.Idle? && s.mem.entries != [] && MaySend(s.mem.entries[0], s.now)
    ensures Leads(s, t) && Inv(t) && t.mem.chain == [] && t.mem.entries == s.mem.entries
    ensures t == s.(mem := t.mem, disk := t.disk, phase := Marking(s.mem.entries[0]))
  {
    hide Inv, Leads, At;
    var u := Do(s, Start);
    StepKeeps(s, Start);
    LeadsStep(s, Start);
    ChainRuns(u);
    t := u.(disk := At(u.disk, u.mem.chain, |u.mem.chain|), mem := u.mem.(chain := []));
    LeadsOn(s, u, t);
  }

  lemma SendsOne(s: Sys) returns (t: Sys)
    requires Inv(s) && s.phase.Idle? && s.mem.entries != [] && MaySend(s.mem.entries[0], s.now)
    ensures SentOne(s, t) && Leads(s, t)
  {
    hide Inv, Leads, MaySend;
    var started := HeadStarted(s);
    var transmitted := HeadTransmitted(started);
    t := HeadAnswered(transmitted);
    LeadsOn(started, transmitted, t);
    LeadsOn(s, started, t);
  }

  /** The ops of the queue that the server has no response of, in order. */
  function Unanswered(entries: seq<Entry>, processed: set<Uid>): seq<Uid> {
    if entries == [] then []
    else (if entries[0].sent.id in processed then [] else [entries[0].sent.id]) + Unanswered(entries[1..], processed)
  }

  lemma {:induction false} UnansweredMore(entries: seq<Entry>, processed: set<Uid>, id: Uid)
    requires forall i :: 0 <= i < |entries| ==> entries[i].sent.id != id
    ensures Unanswered(entries, processed + {id}) == Unanswered(entries, processed)
  {
    if entries != [] {
      assert entries[0].sent.id != id;
      UnansweredMore(entries[1..], processed, id);
    }
  }

  lemma IdsDiffer(s: Sys)
    requires Inv(s)
    ensures forall i, j :: 0 <= i < j < |s.mem.entries| ==> s.mem.entries[i].sent.id < s.mem.entries[j].sent.id
  {
    hide StartOk, PhaseOk, ServerOk, WorldOk;
    LastDisk(s.disk, s.mem, WorldOf(s));
    OtherIds(At(s.disk, s.mem.chain, |s.mem.chain|), s.mem.entries, WorldOf(s));
    hide Inv, DiskOk;
  }

  lemma {:induction false} Drains(s: Sys) returns (t: Sys)
    requires Inv(s) && s.phase.Idle? && forall e :: e in s.mem.entries ==> MaySend(e, s.now)
    ensures Leads(s, t) && t.phase.Idle? && t.mem.entries == []
    ensures t.log == s.log + Unanswered(s.mem.entries, s.processed.Keys)
    ensures t.now == s.now && t.dropped == s.dropped && t.approved == s.approved
    decreases |s.mem.entries|
  {
    hide Inv, Leads, MaySend;
    if s.mem.entries == [] {
      t := s;
      LeadsNowhere(s);
    } else {
      var id := s.mem.entries[0].sent.id;
      var u := SendsOne(s);
      assert s.mem.entries[0] in s.mem.entries;
      t := Drains(u);
      LeadsOn(s, u, t);
      IdsDiffer(s);
      UnansweredMore(s.mem.entries[1..], s.processed.Keys, id);
    }
  }

  /**
    From every state that a run reaches with the page idle and its queue in time or approved, there
    is a run after which the queue is empty: each op without a stored response was executed once,
    in the order of the queue, and none was dropped or approved on the way.
   */
  lemma QueueDrains(init: Sys, steps: seq<Step>)
    requires Init(init) && Possible(init, steps) && After(init, steps).phase.Idle?
    requires var s := After(init, steps); forall e :: e in s.mem.entries ==> MaySend(e, s.now)
    ensures var s := After(init, steps);
      exists more :: Possible(s, more) && var t := After(s, more);
        && t.mem.entries == [] && t.log == s.log + Unanswered(s.mem.entries, s.processed.Keys)
        && t.dropped == s.dropped && t.approved == s.approved
  {
    hide Possible, After, Init, Inv, MaySend;
    InitInv(init);
    RunKeeps(init, steps);
    var s := After(init, steps);
    var t := Drains(s);
    var more :| Possible(s, more) && After(s, more) == t;
  }
}
