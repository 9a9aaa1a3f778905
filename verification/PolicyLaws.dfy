/** What saving a reminder policy does, said of the policies before and after it. */
module PolicyLaws {
  import opened RoomModel
  import opened ReminderRules
  import opened Policies
  import Ops = Operations
  import Laws = RuleLaws

  /** A save as the client sends it. */
  datatype Ask = Ask(target: Target, state: State, preset: Option<Preset>, inputs: seq<Input>, summary: bool,
    summaryTime: Option<string>)

  function Wants(s: Store, a: Ask, now: Time, ids: nat -> Uid): Option<Wanted> {
    Want(PolicyOf(s, a.target), a.target, a.state, a.preset, a.inputs, a.summary, a.summaryTime, now, ids)
  }

  /** What `PolicyTables.ReplacePolicy` makes of it. */
  function Save(s: Store, a: Ask, now: Time, ids: nat -> Uid): (bool, Store) {
    match Wants(s, a, now, ids)
    case None => (false, s)
    case Some(w) => (true, Replaced(s, a.target, w, a.summaryTime, now))
  }

  /** The rules the save is about: those of the preset, or the client's, normalized. */
  function AskedRules(s: Store, a: Ask, now: Time, ids: nat -> Uid): Option<seq<Rule>> {
    if a.state != Replace || a.preset.None? then Some([])
    else match a.preset.value
      case Custom => Normalize(a.inputs, FixedOf(PolicyOf(s, a.target).rules), now, ids)
      case Scheduled => Some([RelativeRule(Calendar, 1), RelativeRule(AtDue, 0)])
      case Quiet => Some([])
      case DailySummary => Some([])
  }

  function AskedSummary(a: Ask): bool {
    if a.state != Replace || a.preset.None? then false
    else if a.preset.value == Custom then a.summary else a.preset.value == DailySummary
  }

  predicate Accepts(s: Store, a: Ask, now: Time, ids: nat -> Uid) {
    && (a.summaryTime.Some? ==> Ops.ClockTime(a.summaryTime.value) && a.target == RoomTarget)
    && (a.target == RoomTarget ==> a.state == Replace)
    && (if a.state == Replace then a.preset.Some? else a.preset.None?)
    && (a.preset != Some(Custom) ==> a.inputs == [] && !a.summary)
    && AskedRules(s, a, now, ids).Some?
  }

  /** When a save is accepted. */
  lemma WhenSaved(s: Store, a: Ask, now: Time, ids: nat -> Uid)
    ensures Save(s, a, now, ids).0 <==> Accepts(s, a, now, ids)
    ensures !Save(s, a, now, ids).0 ==> Save(s, a, now, ids).1 == s
  {
    hide Normalize, Ops.ClockTime, Replaced, PolicyOf;
  }

  /** The policy says what was asked for. */
  predicate Has(p: Policy, a: Ask, rules: seq<Rule>) {
    && p.state == a.state && p.preset == (if a.state == Replace then a.preset else None)
    && p.summary == AskedSummary(a) && (set r | r in p.rules) == (set r | r in rules)
  }

  predicate RoomReplaces(s: Store) { RoomTarget in s.rows ==> s.rows[RoomTarget].state == Replace }

  /**
    After an accepted save the policy of the target has the asked state, preset and summary, and as
    a set exactly the asked rules; every other policy is as it was; and the enrollment changes only
    with the room's policy.
   */
  lemma SavedIsAsked(s: Store, a: Ask, now: Time, ids: nat -> Uid)
    requires Save(s, a, now, ids).0
    ensures var t := Save(s, a, now, ids).1;
      && AskedRules(s, a, now, ids).Some? && Has(PolicyOf(t, a.target), a, AskedRules(s, a, now, ids).value)
      && (forall x :: x != a.target ==> PolicyOf(t, x) == PolicyOf(s, x))
      && (a.target != RoomTarget ==> t.enrollment == s.enrollment)
      && (a.target == RoomTarget ==>
        && t.enrollment.mode == a.preset.value && t.enrollment.activated == s.enrollment.activated
        && t.enrollment.summaryTime == (if a.summaryTime.Some? then a.summaryTime.value else s.enrollment.summaryTime))
  {
    WhenSaved(s, a, now, ids);
    hide Normalize, Ops.ClockTime, FixedOf;
    var w := Wants(s, a, now, ids).value;
    assert AskedRules(s, a, now, ids) == Some(w.rules) && w.summary == AskedSummary(a);
    hide Want;
  }

  /** A save that changes something is stamped: revision, activation, and for the room the enrollment. */
  lemma SavedIsStamped(s: Store, a: Ask, now: Time, ids: nat -> Uid)
    requires Save(s, a, now, ids).0
    ensures var t := Save(s, a, now, ids).1;
      if Has(PolicyOf(s, a.target), a, AskedRules(s, a, now, ids).value)
          && (a.summaryTime.Some? ==> a.summaryTime.value == s.enrollment.summaryTime)
      then t == s
      else
        && PolicyOf(t, a.target).revision == PolicyOf(s, a.target).revision + 1
        && PolicyOf(t, a.target).activated == Some(now)
        && (a.target == RoomTarget ==>
          && t.enrollment.policyActivated == now && t.enrollment.revision == s.enrollment.revision + 1
          && t.enrollment.summaryActivated
            == if t.enrollment.summaryTime != s.enrollment.summaryTime then now else s.enrollment.summaryActivated)
  {
    WhenSaved(s, a, now, ids);
    hide Normalize, Ops.ClockTime, FixedOf;
    var w := Wants(s, a, now, ids).value;
    assert AskedRules(s, a, now, ids) == Some(w.rules) && w.summary == AskedSummary(a) && w.state == a.state;
    assert w.preset == if a.state == Replace then a.preset else None;
    hide Want;
  }

  // The effective policy of an item

  /** The item's own policy counts if it does not inherit, else the list's, else the room's. */
  lemma SelectedIs(s: Store, item: Uid, list: Uid)
    ensures Selected(s, Chain(item, list)) ==
      if PolicyOf(s, ItemTarget(item)).state != Inherit then (ItemTarget(item), PolicyOf(s, ItemTarget(item)))
      else if PolicyOf(s, ListTarget(list)).state != Inherit then (ListTarget(list), PolicyOf(s, ListTarget(list)))
      else (RoomTarget, PolicyOf(s, RoomTarget))
  {
    var chain, rest := Chain(item, list), [ListTarget(list), RoomTarget];
    assert chain[1..] == rest && rest[1..] == [RoomTarget];
    assert Selected(s, [RoomTarget]) == (RoomTarget, PolicyOf(s, RoomTarget));
    assert Selected(s, rest) == if PolicyOf(s, rest[0]).state != Inherit then (rest[0], PolicyOf(s, rest[0]))
      else Selected(s, [RoomTarget]);
    hide PolicyOf;
  }

  /** So an item whose own policy was saved as a replacement has that policy, with the asked rules. */
  lemma SavedIsSelected(s: Store, a: Ask, now: Time, ids: nat -> Uid, item: Uid, list: Uid)
    requires Save(s, a, now, ids).0 && a.target == ItemTarget(item) && a.state == Replace
    ensures var (target, p) := Selected(Save(s, a, now, ids).1, Chain(item, list));
      target == ItemTarget(item) && AskedRules(s, a, now, ids).Some? && Has(p, a, AskedRules(s, a, now, ids).value)
  {
    SavedIsAsked(s, a, now, ids);
    SelectedIs(Save(s, a, now, ids).1, item, list);
    hide Save, AskedRules, Selected, PolicyOf;
  }

  function Stamp(s: Store, target: Target): Time {
    var p := PolicyOf(s, target);
    if p.activated.Some? then p.activated.value else s.enrollment.activated
  }

  /** The cutoff is the latest of the enrollment's activation and those of the policies up to the one that counts. */
  lemma CutoffIs(s: Store, item: Uid, list: Uid)
    ensures var c, e := Cutoff(s, Chain(item, list)), s.enrollment.activated;
      var a, b, r := Stamp(s, ItemTarget(item)), Stamp(s, ListTarget(list)), Stamp(s, RoomTarget);
      if PolicyOf(s, ItemTarget(item)).state != Inherit then c == Max(e, a)
      else if PolicyOf(s, ListTarget(list)).state != Inherit then c == Max(e, Max(a, b))
      else c == Max(e, Max(a, Max(b, r)))
  {
    var chain, rest, room := Chain(item, list), [ListTarget(list), RoomTarget], [RoomTarget];
    assert chain[1..] == rest && rest[1..] == room && room[1..] == [];
    assert Cutoff(s, []) == s.enrollment.activated;
    assert Cutoff(s, room) == Max(Stamp(s, RoomTarget), s.enrollment.activated);
    assert Cutoff(s, rest) == Max(Stamp(s, rest[0]),
      if PolicyOf(s, rest[0]).state != Inherit then s.enrollment.activated else Cutoff(s, room));
    hide PolicyOf;
  }

  // The enrollment's own settings

  /** Another mode brings its preset's rules to the room; another summary time alone keeps them. */
  lemma EnrolledIsAsked(s: Store, mode: Preset, summaryTime: string, now: Time)
    ensures var t := Reenrolled(s, mode, summaryTime, now);
      && t.enrollment.mode == mode && t.enrollment.summaryTime == summaryTime
      && t.enrollment.activated == s.enrollment.activated
      && (forall x :: x != RoomTarget ==> PolicyOf(t, x) == PolicyOf(s, x))
      && var p, q := PolicyOf(t, RoomTarget), PolicyOf(s, RoomTarget);
      && p.preset == Some(mode)
      && (mode == s.enrollment.mode ==> p.rules == q.rules && p.summary == q.summary)
      && (mode != s.enrollment.mode ==>
        && p.state == Replace && p.summary == (mode == DailySummary)
        && p.rules == if mode == Scheduled then [RelativeRule(Calendar, 1), RelativeRule(AtDue, 0)] else [])
      && (mode == s.enrollment.mode && summaryTime == s.enrollment.summaryTime ==> t == s)
  {
  }

  // The same save again

  /** Rules that are all stored already come out the same at any time. */
  lemma {:induction false} StoredStay(inputs: seq<Input>, existing: seq<Rule>, reserved: set<Uid>, now: Time,
      ids: nat -> Uid, later: Time, laterIds: nat -> Uid)
    requires Steps(inputs, existing, reserved, now, ids).Some? && FreshIds(ids, existing)
    requires forall r :: r in Steps(inputs, existing, reserved, now, ids).value.rules && r.FixedRule? ==> r in existing
    ensures Steps(inputs, existing, reserved, later, laterIds) == Steps(inputs, existing, reserved, now, ids)
  {
    if inputs != [] {
      var rest, raw := inputs[..|inputs| - 1], inputs[|inputs| - 1];
      var p := Steps(rest, existing, reserved, now, ids).value;
      var q := Step(p, raw, existing, reserved, now, ids).value;
      Laws.OneRule(rest, raw, existing, reserved, now, ids) by { assert rest + [raw] == inputs; }
      forall r | r in p.rules ensures r in q.rules { assert r in q.rules[..|p.rules|]; }
      StoredStay(rest, existing, reserved, now, ids, later, laterIds);
      assert q.rules[|p.rules|] in q.rules;
      StoredStep(p, raw, existing, reserved, now, ids, later, laterIds);
    }
  }

  lemma StoredStep(p: Progress, raw: Input, existing: seq<Rule>, reserved: set<Uid>, now: Time, ids: nat -> Uid,
      later: Time, laterIds: nat -> Uid)
    requires Step(p, raw, existing, reserved, now, ids).Some? && FreshIds(ids, existing)
    requires var q := Step(p, raw, existing, reserved, now, ids).value;
      |q.rules| == |p.rules| + 1 && (q.rules[|p.rules|].FixedRule? ==> q.rules[|p.rules|] in existing)
    ensures Step(p, raw, existing, reserved, later, laterIds) == Step(p, raw, existing, reserved, now, ids)
  {
    hide WallFields, ById, ByIntent;
    StoredIdsAreNotNew(ids(p.made), existing, ids);
    hide FreshIds;
  }

  /** The IDs of the save are new to the policy. */
  ghost predicate NewIds(s: Store, a: Ask, ids: nat -> Uid) {
    FreshIds(ids, FixedOf(PolicyOf(s, a.target).rules))
  }

  /** Every fixed rule that the save names has the stored wall time. */
  ghost predicate KeepsNamed(s: Store, a: Ask) {
    Laws.KeepsNamed(a.inputs, FixedOf(PolicyOf(s, a.target).rules))
  }

  lemma {:induction false} FixedMembers(rules: seq<Rule>)
    ensures forall r :: r in FixedOf(rules) <==> r in rules && r.FixedRule?
  {
    if rules != [] {
      FixedMembers(rules[1..]);
      assert rules == [rules[0]] + rules[1..];
    }
  }

  lemma StoredAgain(inputs: seq<Input>, existing: seq<Rule>, now: Time, ids: nat -> Uid, later: Time,
      laterIds: nat -> Uid)
    requires Normalize(inputs, existing, now, ids).Some? && FreshIds(ids, existing)
    requires forall r :: r in Normalize(inputs, existing, now, ids).value && r.FixedRule? ==> r in existing
    ensures Normalize(inputs, existing, later, laterIds) == Normalize(inputs, existing, now, ids)
  {
    StoredStay(inputs, existing, Reserved(inputs, existing).value, now, ids, later, laterIds);
    hide Steps, Reserved, FreshIds, Stored, NoDuplicates;
  }

  /** What a save left: the policy as it was, with the asked rules as a set, or exactly the asked rules. */
  lemma SavedRules(s: Store, a: Ask, now: Time, ids: nat -> Uid)
    requires Save(s, a, now, ids).0
    ensures AskedRules(s, a, now, ids).Some?
    ensures var t, rules := Save(s, a, now, ids).1, AskedRules(s, a, now, ids).value;
      if t == s then (set r | r in PolicyOf(s, a.target).rules) == (set r | r in rules)
      else PolicyOf(t, a.target).rules == rules
  {
    SavedIsAsked(s, a, now, ids);
    WhenSaved(s, a, now, ids);
    hide Normalize, Ops.ClockTime, FixedOf;
    var w := Wants(s, a, now, ids).value;
    assert AskedRules(s, a, now, ids) == Some(w.rules);
    hide Wants;
  }

  lemma SameRules(a: seq<Rule>, b: seq<Rule>)
    requires (set r | r in a) == (set r | r in b)
    ensures forall r :: r in b && r.FixedRule? ==> r in FixedOf(a)
  {
    FixedMembers(a);
    var x, y := (set r | r in a), set r | r in b;
    forall r | r in b ensures r in a {
      assert r in y;
      assert r in x;
    }
  }

  /** The normalizer gives the same rules again, whether the save wrote them or found them stored. */
  lemma RulesAgain(s: Store, a: Ask, now: Time, ids: nat -> Uid, later: Time, laterIds: nat -> Uid)
    requires Save(s, a, now, ids).0 && a.state == Replace && a.preset == Some(Custom) && NewIds(s, a, ids)
    ensures var t := Save(s, a, now, ids).1;
      AskedRules(t, a, later, laterIds)
        == if t == s || KeepsNamed(s, a) then AskedRules(s, a, now, ids) else None
  {
    SavedRules(s, a, now, ids);
    var existing, t := FixedOf(PolicyOf(s, a.target).rules), Save(s, a, now, ids).1;
    hide Save, Normalize, FixedOf, FreshIds, PolicyOf;
    var rules := AskedRules(s, a, now, ids).value;
    if t == s {
      SameRules(PolicyOf(s, a.target).rules, rules);
      StoredAgain(a.inputs, existing, now, ids, later, laterIds);
    } else {
      Laws.SameInputAgain(a.inputs, existing, now, ids, later, laterIds);
    }
  }

  /** What was just saved is there, so saving the same rules again changes nothing. */
  lemma NothingNew(s: Store, a: Ask, now: Time, ids: nat -> Uid, later: Time, laterIds: nat -> Uid)
    requires Save(s, a, now, ids).0
    requires AskedRules(Save(s, a, now, ids).1, a, later, laterIds) == AskedRules(s, a, now, ids)
    ensures Save(Save(s, a, now, ids).1, a, later, laterIds) == (true, Save(s, a, now, ids).1)
  {
    var t := Save(s, a, now, ids).1;
    SavedIsAsked(s, a, now, ids);
    WhenSaved(s, a, now, ids);
    WhenSaved(t, a, later, laterIds);
    assert Accepts(t, a, later, laterIds);
    SavedIsStamped(t, a, later, laterIds);
    hide Save, AskedRules, PolicyOf;
  }

  /**
    The same save again, at any later time, is accepted and writes nothing; but a custom save that
    gave a named fixed rule another time is refused the second time, as the name is gone.
   */
  lemma SavedAgain(s: Store, a: Ask, now: Time, ids: nat -> Uid, later: Time, laterIds: nat -> Uid)
    requires Save(s, a, now, ids).0 && NewIds(s, a, ids)
    ensures var t := Save(s, a, now, ids).1;
      Save(t, a, later, laterIds) == (a.preset != Some(Custom) || t == s || KeepsNamed(s, a), t)
  {
    WhenSaved(s, a, now, ids);
    var t := Save(s, a, now, ids).1;
    if a.preset == Some(Custom) {
      RulesAgain(s, a, now, ids, later, laterIds);
      if t == s || KeepsNamed(s, a) {
        NothingNew(s, a, now, ids, later, laterIds);
      } else {
        WhenSaved(t, a, later, laterIds);
      }
    } else {
      NothingNew(s, a, now, ids, later, laterIds);
    }
    hide Save, Normalize, PolicyOf;
  }
}
