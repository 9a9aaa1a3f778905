/**
  Reminder policies of one installation in one room (src/reminders/policies.py): a row per
  target that was ever saved, the effective policy of an item, and its cutoff. A time is in whole
  milliseconds, as it is stored: a stored activation is cut to the millisecond of its save.
 */
module Policies {
  import opened RoomModel
  import opened ReminderRules
  import Ops = Operations

  datatype Target = RoomTarget | ListTarget(uid: Uid) | ItemTarget(uid: Uid)
  datatype State = Inherit | Disabled | Replace
  datatype Preset = Quiet | DailySummary | Scheduled | Custom

  /** A saved row. A reset (`Inherit`) keeps its activation, so it never reopens earlier offsets. */
  datatype Row = Row(state: State, preset: Option<Preset>, summary: bool, rules: seq<Rule>, revision: nat,
      activated: Time)

  datatype Enrollment = Enrollment(
    mode: Preset, activated: Time, policyActivated: Time, summaryTime: string, summaryActivated: Time, revision: nat)

  datatype Store = Store(enrollment: Enrollment, rows: map<Target, Row>)

  datatype Policy = Policy(state: State, preset: Option<Preset>, summary: bool, rules: seq<Rule>, revision: nat,
      activated: Option<Time>)

  const SCHEDULED := [RelativeRule(Calendar, 1), RelativeRule(AtDue, 0)]

  function PresetRules(preset: Preset): seq<Rule> { if preset == Scheduled then SCHEDULED else [] }

  /** The room's preset is the enrollment's mode, with or without a row. */
  function PolicyOf(s: Store, target: Target): Policy {
    if target in s.rows then
      var row := s.rows[target];
      Policy(row.state, if target.RoomTarget? then Some(s.enrollment.mode)
        else row.preset, row.summary, row.rules, row.revision, Some(row.activated))
    else if target.RoomTarget? then
      Policy(Replace, Some(s.enrollment.mode), s.enrollment.mode == DailySummary, PresetRules(s.enrollment.mode), 0,
        Some(s.enrollment.policyActivated))
    else Policy(Inherit, None, false, [], 0, None)
  }

  function Saved(s: Store, target: Target, state: State, preset: Option<Preset>, summary: bool, rules: seq<Rule>,
      now: Time): Store {
    s.(rows := s.rows[target := Row(state, if target.RoomTarget? then None else preset, summary, rules,
                                    if target in s.rows then s.rows[target].revision + 1 else 1, now)])
  }

  /** What a save asks for, as checked; None if it is refused. */
  datatype Wanted = Wanted(state: State, preset: Option<Preset>, summary: bool, rules: seq<Rule>)

  function FixedOf(rules: seq<Rule>): seq<Rule> {
    if rules == [] then [] else (if rules[0].FixedRule? then [rules[0]] else []) + FixedOf(rules[1..])
  }

  function Want(current: Policy, target: Target, state: State, preset: Option<Preset>, inputs: seq<Input>,
      summary: bool,
                summaryTime: Option<string>, now: Time, ids: nat -> Uid): Option<Wanted> {
    if summaryTime.Some? && !Ops.ClockTime(summaryTime.value) then None
    else if target.RoomTarget? && (state != Replace || preset.None?) then None
    else if state != Replace then
      (if preset.Some? || inputs != [] || summary || (summaryTime.Some? && !target.RoomTarget?) then None
        else Some(Wanted(state, None, false, [])))
    else if preset.None? then None
    else if preset.value == Custom then
      match Normalize(inputs, FixedOf(current.rules), now, ids)
      case None => None
      case Some(rules) => if summaryTime.Some? && !target.RoomTarget? then None
          else Some(Wanted(state, preset, summary, rules))
    else if inputs != [] || summary || (summaryTime.Some? && !target.RoomTarget?) then None
    else Some(Wanted(state, preset, preset.value == DailySummary, PresetRules(preset.value)))
  }

  function AsSet(rules: seq<Rule>): set<Rule> { set r | r in rules }

  predicate Unchanged(current: Policy, w: Wanted) {
    current.state == w.state && current.preset == w.preset && current.summary == w.summary
      && AsSet(current.rules) == AsSet(w.rules)
  }

  function Replaced(s: Store, target: Target, w: Wanted, summaryTime: Option<string>, now: Time): Store {
    var changedTime := summaryTime.Some? && summaryTime.value != s.enrollment.summaryTime;
    if Unchanged(PolicyOf(s, target), w) && !changedTime then s
    else
      var t := Saved(s, target, w.state, w.preset, w.summary, w.rules, now);
      if target.RoomTarget? && w.preset.Some? then
        t.(enrollment := t.enrollment.(
          mode := w.preset.value, summaryTime := Keep(summaryTime, t.enrollment.summaryTime), policyActivated := now,
          summaryActivated := if changedTime then now
            else t.enrollment.summaryActivated, revision := t.enrollment.revision + 1))
      else t
  }

  /** The enrollment's own settings were written; the room's row follows. */
  function Synced(s: Store, previous: Preset, summaryChanged: bool, now: Time): Store {
    if previous == s.enrollment.mode && !summaryChanged then s
    else
      var current := PolicyOf(s, RoomTarget);
      var same := previous == s.enrollment.mode;
      var t := Saved(s, RoomTarget, Replace, None, if same then current.summary else s.enrollment.mode == DailySummary,
                     if same then current.rules else PresetRules(s.enrollment.mode), now);
      t.(enrollment :=
        t.enrollment.(policyActivated := now, summaryActivated := if summaryChanged then now
        else t.enrollment.summaryActivated))
  }

  /** A change of mode or summary time through the enrollment (`update_enrollment_locked`). */
  function Reenrolled(s: Store, mode: Preset, summaryTime: string, now: Time): Store {
    var t :=
        s.(enrollment :=
        s.enrollment.(mode := mode, summaryTime := summaryTime, revision := s.enrollment.revision + 1));
    if mode == s.enrollment.mode && summaryTime == s.enrollment.summaryTime then s
    else Synced(t, s.enrollment.mode, summaryTime != s.enrollment.summaryTime, now)
  }

  // The effective policy

  function Chain(item: Uid, list: Uid): seq<Target> { [ItemTarget(item), ListTarget(list), RoomTarget] }

  /** The first policy of the chain that does not inherit. */
  function Selected(s: Store, chain: seq<Target>): (Target, Policy)
    requires chain != []
  {
    var p := PolicyOf(s, chain[0]);
    if p.state != Inherit || |chain| == 1 then (chain[0], p) else Selected(s, chain[1..])
  }

  /** The latest activation of the enrollment, of the selected policy and of the resets before it. */
  function Cutoff(s: Store, chain: seq<Target>): Time {
    if chain == [] then s.enrollment.activated
    else
      var p := PolicyOf(s, chain[0]);
      var own := if p.activated.Some? then p.activated.value else s.enrollment.activated;
      Max(own, if p.state != Inherit then s.enrollment.activated else Cutoff(s, chain[1..]))
  }

  /** What of the effective policy a recipient notices: not the revision nor the activation. */
  function Effect(s: Store, chain: seq<Target>): (Target, State, Option<Preset>, bool, seq<Rule>)
    requires chain != []
  {
    var (target, p) := Selected(s, chain);
    (target, p.state, p.preset, p.summary, p.rules)
  }

  /** Every stamp is at or before `now`; the room never inherits. */
  predicate Past(s: Store, now: Time) {
    && s.enrollment.activated <= now && s.enrollment.policyActivated <= now
    && (forall t | t in s.rows :: s.rows[t].activated <= now && (t.RoomTarget? ==> s.rows[t].state == Replace))
  }

  /** `t` is `s` but for one target, activated at `now`. */
  predicate OneSaved(s: Store, t: Store, target: Target, now: Time) {
    && t.enrollment.activated == s.enrollment.activated
    && PolicyOf(t, target).activated == Some(now)
  }

  lemma {:induction false} CutoffPast(s: Store, chain: seq<Target>, now: Time)
    requires Past(s, now)
    ensures Cutoff(s, chain) <= now
  {
    if chain != [] { CutoffPast(s, chain[1..], now); }
  }

  lemma {:induction false} CutoffFloor(s: Store, chain: seq<Target>)
    ensures Cutoff(s, chain) >= s.enrollment.activated
  {
    if chain != [] { CutoffFloor(s, chain[1..]); }
  }

  lemma {:induction false} SavedMovesForward(s: Store, t: Store, chain: seq<Target>, target: Target, now: Time)
    requires Past(s, now) && OneSaved(s, t, target, now) && chain != []
    requires forall x :: x in chain && x != target ==> PolicyOf(t, x) == PolicyOf(s, x)
    ensures Cutoff(t, chain) >= Cutoff(s, chain)
    ensures Effect(t, chain) != Effect(s, chain) ==> Cutoff(t, chain) >= now
  {
    CutoffPast(s, chain, now);
    CutoffFloor(s, chain);
    if chain[0] != target {
      assert PolicyOf(t, chain[0]) == PolicyOf(s, chain[0]);
      if |chain| > 1 { SavedMovesForward(s, t, chain[1..], target, now); }
    }
  }

  /** A write that the recipient of some item can notice. */
  datatype Write =
    | Save(target: Target, wanted: Wanted, summaryTime: Option<string>, at: Time)
    | Enroll(mode: Preset, newTime: string, at: Time)

  /** As `Want` gives it: the room takes a preset and never inherits. */
  predicate Proper(w: Write) { w.Save? && w.target.RoomTarget? ==> w.wanted.state == Replace && w.wanted.preset.Some? }

  function After(s: Store, w: Write): Store {
    match w
    case Save(target, wanted, summaryTime, at) => Replaced(s, target, wanted, summaryTime, at)
    case Enroll(mode, newTime, at) => Reenrolled(s, mode, newTime, at)
  }

  /**
    A cutoff never moves back, and a write that changes the effective policy of an item leaves
    its cutoff at the time of the write.
   */
  lemma CutoffNeverMovesBack(s: Store, w: Write, item: Uid, list: Uid)
    requires Past(s, w.at) && Proper(w)
    ensures var t, chain := After(s, w), Chain(item, list);
      Past(t, w.at) && Cutoff(t, chain) >= Cutoff(s, chain)
        && (Effect(t, chain) != Effect(s, chain) ==> Cutoff(t, chain) == w.at)
  {
    var t, chain := After(s, w), Chain(item, list);
    var target := if w.Save? then w.target else RoomTarget;
    if t != s {
      SavedMovesForward(s, t, chain, target, w.at);
      CutoffPast(t, chain, w.at);
    }
  }

  function AfterAll(s: Store, writes: seq<Write>): Store {
    if writes == [] then s else After(AfterAll(s, writes[..|writes| - 1]), writes[|writes| - 1])
  }

  /** One clock that does not go back. */
  predicate Clock(start: Time, writes: seq<Write>) {
    forall i | 0 <= i < |writes| ::
        Proper(writes[i]) && start <= writes[i].at && forall j | 0 <= j < i :: writes[j].at <= writes[i].at
  }

  lemma {:induction false} RunsStayPast(s: Store, start: Time, writes: seq<Write>)
    requires Past(s, start) && Clock(start, writes)
    ensures Past(AfterAll(s, writes), if writes == [] then start else writes[|writes| - 1].at)
  {
    if writes != [] {
      var rest, last := writes[..|writes| - 1], writes[|writes| - 1];
      assert forall i :: 0 <= i < |rest| ==> rest[i] == writes[i];
      RunsStayPast(s, start, rest);
      hide After, Proper;
      var t := AfterAll(s, rest);
      assert Past(t, last.at);
      assert Proper(writes[|writes| - 1]);
      CutoffNeverMovesBack(t, last, 0, 0);
    }
  }

  /** Over any run of saves: the cutoff of an item is at or after any write that changed its policy. */
  lemma {:induction false} CutoffCoversChanges(s: Store, start: Time, writes: seq<Write>, k: nat, item: Uid, list: Uid)
    requires Past(s, start) && Clock(start, writes) && k < |writes|
    requires Effect(AfterAll(s, writes[..k + 1]), Chain(item, list)) != Effect(AfterAll(s, writes[..k]),
      Chain(item, list))
    ensures Cutoff(AfterAll(s, writes), Chain(item, list)) >= writes[k].at
  {
    hide After, Effect, Cutoff, Past, Proper;
    var rest, last := writes[..|writes| - 1], writes[|writes| - 1];
    assert forall i :: 0 <= i < |rest| ==> rest[i] == writes[i];
    RunsStayPast(s, start, rest);
    var t := AfterAll(s, rest);
    LaterPast(t, if rest == [] then start else rest[|rest| - 1].at, last.at);
    CutoffNeverMovesBack(t, last, item, list);
    if k < |writes| - 1 {
      assert rest[..k + 1] == writes[..k + 1] && rest[..k] == writes[..k];
      CutoffCoversChanges(s, start, rest, k, item, list);
    } else {
      assert writes[..k] == rest && writes[..k + 1] == writes;
    }
  }

  lemma LaterPast(s: Store, a: Time, b: Time)
    requires Past(s, a) && a <= b
    ensures Past(s, b)
  {
  }

  // Saving what is stored

  lemma {:induction false} FixedOfShape(rules: seq<Rule>)
    requires DistinctFixedIds(rules)
    ensures Stored(FixedOf(rules)) && forall r :: r in FixedOf(rules) <==> r in rules && r.FixedRule?
  {
    if rules != [] {
      var rest := rules[1..];
      assert forall i :: 0 <= i < |rest| ==> rest[i] == rules[i + 1];
      assert rules == [rules[0]] + rest;
      FixedOfShape(rest);
      if rules[0].FixedRule? {
        var f := FixedOf(rest);
        forall i | 0 <= i < |f| ensures f[i].FixedRule? && f[i].id != rules[0].id {
          assert f[i] in rest;
          var k :| 0 <= k < |rest| && rest[k] == f[i];
        }
      }
    }
  }

  /**
    A custom policy sent back as the page shows it changes nothing, at any later time: no
    revision, no activation, no resolved instant.
   */
  lemma ResavingChangesNothing(s: Store, target: Target, inputs: seq<Input>, existing: seq<Rule>, first: Time,
      firstIds: nat -> Uid,
                               now: Time, ids: nat -> Uid)
    requires PolicyOf(s, target).state == Replace && PolicyOf(s, target).preset == Some(Custom)
    requires Normalize(inputs, existing, first, firstIds) == Some(PolicyOf(s, target).rules)
      && FreshIds(firstIds, existing)
    ensures var p := PolicyOf(s, target);
      var w := Want(p, target, Replace, Some(Custom), ToInputs(p.rules), p.summary, None, now, ids);
      w.Some? && Replaced(s, target, w.value, None, now) == s
  {
    hide FreshIds, Normalize, DistinctFixedIds;
    var p := PolicyOf(s, target);
    OutputIdsDistinct(inputs, existing, first, firstIds);
    FixedOfShape(p.rules);
    ResavingIsIdentity(inputs, existing, first, firstIds, p.rules, FixedOf(p.rules), now, ids);
  }

  /** The tables, changed in place. */
  class PolicyTables {
    var enrollment: Enrollment
    var rows: map<Target, Row>

    function State(): Store
      reads this
    {
      Store(enrollment, rows)
    }

    constructor (e: Enrollment)
      ensures State() == Store(e, map[])
    {
      enrollment, rows := e, map[];
    }

    method SaveRow(target: Target, state: State, preset: Option<Preset>, summary: bool, rules: seq<Rule>, now: Time)
      modifies `rows
      ensures State() == Saved(old(State()), target, state, preset, summary, rules, now)
    {
      var stored := if target.RoomTarget? then None else preset;
      if target !in rows {
        rows := rows[target := Row(state, stored, summary, [], 1, now)];
      } else {
        rows := rows[target := rows[target].(state := state, preset := stored, summary := summary, rules := [],
                                             revision := rows[target].revision + 1, activated := now)];
      }
      for i := 0 to |rules|
        invariant rows.Keys == old(rows.Keys) + {target}
        invariant rows == Saved(old(State()), target, state, preset, summary, rules[..i], now).rows
      {
        assert rules[..i + 1] == rules[..i] + [rules[i]];
        rows := rows[target := rows[target].(rules := rows[target].rules + [rules[i]])];
      }
      assert rules[..|rules|] == rules;
    }

    /** A full replacement; one that changes nothing writes nothing. False if it is refused. */
    method ReplacePolicy(target: Target, state: State, preset: Option<Preset>, inputs: seq<Input>, summary: bool,
                         summaryTime: Option<string>, now: Time, ids: nat -> Uid) returns (ok: bool)
      modifies this
      ensures var w :=
        Want(PolicyOf(old(State()), target), target, state, preset, inputs, summary, summaryTime, now, ids);
        ok == w.Some?
          && State() == (if w.Some? then Replaced(old(State()), target, w.value, summaryTime, now) else old(State()))
    {
      hide Saved;
      var current := PolicyOf(State(), target);
      var wanted := Want(current, target, state, preset, inputs, summary, summaryTime, now, ids);
      if wanted.None? { return false; }
      var w := wanted.value;
      var changedTime := summaryTime.Some? && summaryTime.value != enrollment.summaryTime;
      if Unchanged(current, w) && !changedTime { return true; }
      SavedKeepsEnrollment(State(), target, w.state, w.preset, w.summary, w.rules, now);
      SaveRow(target, w.state, w.preset, w.summary, w.rules, now);
      if target.RoomTarget? {
        enrollment :=
          enrollment.(mode := w.preset.value, summaryTime := Keep(summaryTime, enrollment.summaryTime),
          policyActivated := now,
                                  summaryActivated := if changedTime then now else enrollment.summaryActivated,
                                  revision := enrollment.revision + 1);
      }
      return true;
    }

    method SyncEnrollment(previous: Preset, summaryChanged: bool, now: Time)
      modifies this
      ensures State() == Synced(old(State()), previous, summaryChanged, now)
    {
      if previous == enrollment.mode && !summaryChanged { return; }
      var current := PolicyOf(State(), RoomTarget);
      var rules, summary := current.rules, current.summary;
      if previous != enrollment.mode {
        rules, summary := PresetRules(enrollment.mode), enrollment.mode == DailySummary;
      }
      SaveRow(RoomTarget, Replace, None, summary, rules, now);
      enrollment :=
        enrollment.(policyActivated := now, summaryActivated := if summaryChanged then now
        else enrollment.summaryActivated);
    }

    /** Walks the chain as far as it inherits. */
    method Resolve(item: Uid, list: Uid) returns (target: Target, selected: Policy, cutoff: Time)
      requires RoomTarget in rows ==> rows[RoomTarget].state == Replace
      ensures (target, selected) == Selected(State(), Chain(item, list)) && cutoff == Cutoff(State(), Chain(item, list))
    {
      var chain := Chain(item, list);
      var i := 0;
      cutoff := enrollment.activated;
      CutoffFloor(State(), chain);
      assert chain[0..] == chain;
      while true
        invariant 0 <= i < |chain| && cutoff >= enrollment.activated
        invariant Selected(State(), chain) == Selected(State(), chain[i..])
        invariant Cutoff(State(), chain) == Max(cutoff, Cutoff(State(), chain[i..]))
        decreases |chain| - i
      {
        CutoffFloor(State(), chain[i..]);
        CutoffFloor(State(), chain[i..][1..]);
        target, selected := chain[i], PolicyOf(State(), chain[i]);
        if selected.activated.Some? { cutoff := Max(cutoff, selected.activated.value); }
        if selected.state != Inherit { return; }
        assert chain[i..][1..] == chain[i + 1..];
        i := i + 1;
      }
    }
  }

  lemma SavedKeepsEnrollment(s: Store, target: Target, state: State, preset: Option<Preset>, summary: bool,
      rules: seq<Rule>, now: Time)
    ensures Saved(s, target, state, preset, summary, rules, now).enrollment == s.enrollment
  {
  }
}
