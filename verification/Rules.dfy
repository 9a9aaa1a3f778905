/**
  Personal reminder rules (src/reminders/rules.py) and what the page sends back for stored ones
  (frontend/src/lib/reminders/rules.ts).
 */
module ReminderRules {
  import opened RoomModel
  import opened Operations

  datatype Unit = Minutes | Hours | Days | Weeks
  datatype Basis = AtDue | Elapsed | Calendar

  /** A rule as a client sends it; a fixed one may name the stored rule it was. */
  datatype Input =
    | RelativeInput(amount: int, unit: Unit)
    | FixedInput(id: Option<Uid>, date: string, time: string, zone: string)

  datatype Rule =
    | RelativeRule(basis: Basis, amount: int)
    | FixedRule(id: Uid, date: string, time: string, zone: string, instant: Time, activation: Time)

  const MAX_RULES := 5
  const MAX_ZONE_NAME_LENGTH := 64

  function LimitOf(unit: Unit): int {
    match unit
    case Minutes => 525_600
    case Hours => 8_760
    case Days => 365
    case Weeks => 52
  }

  predicate Digit(c: char) { '0' <= c <= '9' }

  predicate DateText(s: string) {
    && |s| == 10 && s[4] == '-' && s[7] == '-'
    && forall i | i in {0, 1, 2, 3, 5, 6, 8, 9} :: Digit(s[i])
  }

  predicate WallFields(date: string, time: string, zone: string) {
    DateText(date) && ClockTime(time) && 0 < |zone| <= MAX_ZONE_NAME_LENGTH
  }

  predicate SameIntent(rule: Rule, date: string, time: string, zone: string) {
    rule.FixedRule? && rule.date == date && rule.time == time && rule.zone == zone
  }

  /** None for a refused input, here and below. */
  function Relative(amount: int, unit: Unit): Option<Rule> {
    if amount < 0 || amount > LimitOf(unit) then None
    else if amount == 0 then Some(RelativeRule(AtDue, 0))
    else match unit
      case Minutes => Some(RelativeRule(Elapsed, amount))
      case Hours => Some(RelativeRule(Elapsed, amount * 60))
      case Days => Some(RelativeRule(Calendar, amount))
      case Weeks => Some(RelativeRule(Calendar, amount * 7))
  }

  /** Stored rules as a policy keeps them: fixed rules, each with its own ID. */
  predicate Stored(existing: seq<Rule>) {
    (forall i :: 0 <= i < |existing| ==> existing[i].FixedRule?)
    && forall i, j :: 0 <= i < j < |existing| ==>
      existing[i].FixedRule? && existing[j].FixedRule? && existing[i].id != existing[j].id
  }

  function ById(existing: seq<Rule>, id: Uid): (r: Option<Rule>)
    ensures r.Some? ==> r.value in existing && r.value.FixedRule? && r.value.id == id
  {
    if existing == [] then None
    else if existing[0].FixedRule? && existing[0].id == id then Some(existing[0])
    else ById(existing[1..], id)
  }

  /** The first stored rule with this wall intent that no input has taken. */
  function ByIntent(existing: seq<Rule>, taken: set<Uid>, date: string, time: string, zone: string): (r: Option<Rule>)
    ensures r.Some? ==> r.value in existing && SameIntent(r.value, date, time, zone) && r.value.id !in taken
  {
    if existing == [] then None
    else if SameIntent(existing[0], date, time, zone) && existing[0].id !in taken then Some(existing[0])
    else ByIntent(existing[1..], taken, date, time, zone)
  }

  /** The IDs named by inputs: each one stored, and named once. */
  function Reserved(inputs: seq<Input>, existing: seq<Rule>): Option<set<Uid>> {
    if inputs == [] then Some({})
    else
      var raw := inputs[|inputs| - 1];
      match Reserved(inputs[..|inputs| - 1], existing)
      case None => None
      case Some(reserved) =>
        if raw.RelativeInput? || raw.id.None? then Some(reserved)
        else if ById(existing, raw.id.value).None? || raw.id.value in reserved then None
        else Some(reserved + {raw.id.value})
  }

  /** The rules so far, the stored IDs taken by intent, and how many new IDs were made. */
  datatype Progress = Progress(rules: seq<Rule>, claimed: set<Uid>, made: nat)

  function Future(date: string, time: string, zone: string, now: Time): Option<Time> {
    match Resolve(date, time, zone)
    case Instant(at) => if at > now then Some(at) else None
    case _ => None
  }

  function FixedStep(p: Progress, raw: Input, existing: seq<Rule>, reserved: set<Uid>, now: Time,
      ids: nat -> Uid): Option<Progress>
    requires raw.FixedInput?
  {
    if !WallFields(raw.date, raw.time, raw.zone) then None
    else
      var stored := if raw.id.Some? then ById(existing, raw.id.value)
          else ByIntent(existing, reserved + p.claimed, raw.date, raw.time, raw.zone);
      var claimed := if raw.id.None? && stored.Some? then p.claimed + {stored.value.id} else p.claimed;
      if stored.Some? && SameIntent(stored.value, raw.date, raw.time, raw.zone)
      then Some(Progress(p.rules + [stored.value], claimed, p.made))
      else match Future(raw.date, raw.time, raw.zone, now)
        case None => None
        case Some(at) =>
            Some(Progress(p.rules + [FixedRule(ids(p.made), raw.date, raw.time, raw.zone, at, now)], claimed,
            p.made + 1))
  }

  function Step(p: Progress, raw: Input, existing: seq<Rule>, reserved: set<Uid>, now: Time,
      ids: nat -> Uid): Option<Progress> {
    if raw.RelativeInput? then
      match Relative(raw.amount, raw.unit)
      case None => None
      case Some(rule) => Some(p.(rules := p.rules + [rule]))
    else FixedStep(p, raw, existing, reserved, now, ids)
  }

  function Steps(inputs: seq<Input>, existing: seq<Rule>, reserved: set<Uid>, now: Time,
      ids: nat -> Uid): Option<Progress> {
    if inputs == [] then Some(Progress([], {}, 0))
    else match Steps(inputs[..|inputs| - 1], existing, reserved, now, ids)
      case None => None
      case Some(p) => Step(p, inputs[|inputs| - 1], existing, reserved, now, ids)
  }

  /** The same relative rule, or two fixed rules at one instant. */
  predicate Clash(a: Rule, b: Rule) {
    if a.RelativeRule? then a == b else b.FixedRule? && a.instant == b.instant
  }

  predicate NoDuplicates(rules: seq<Rule>) { forall i, j :: 0 <= i < j < |rules| ==> !Clash(rules[i], rules[j]) }

  function Normalize(inputs: seq<Input>, existing: seq<Rule>, now: Time, ids: nat -> Uid): Option<seq<Rule>> {
    if |inputs| > MAX_RULES || !Stored(existing) then None
    else match Reserved(inputs, existing)
      case None => None
      case Some(reserved) =>
        match Steps(inputs, existing, reserved, now, ids)
        case None => None
        case Some(p) => if NoDuplicates(p.rules) then Some(p.rules) else None
  }

  // The code: loops that fill a set, a list and the sets of duplicates

  method ReserveExplicitIds(inputs: seq<Input>, existing: seq<Rule>) returns (r: Option<set<Uid>>)
    ensures r == Reserved(inputs, existing)
  {
    var reserved: set<Uid> := {};
    for i := 0 to |inputs|
      invariant Reserved(inputs[..i], existing) == Some(reserved)
    {
      assert inputs[..i + 1][..i] == inputs[..i];
      var raw := inputs[i];
      if raw.FixedInput? && raw.id.Some? {
        if ById(existing, raw.id.value).None? || raw.id.value in reserved {
          ReservedStays(inputs, existing, i + 1);
          return None;
        }
        reserved := reserved + {raw.id.value};
      }
    }
    assert inputs[..|inputs|] == inputs;
    return Some(reserved);
  }

  lemma {:induction false} ReservedStays(inputs: seq<Input>, existing: seq<Rule>, n: nat)
    requires n <= |inputs| && Reserved(inputs[..n], existing).None?
    ensures Reserved(inputs, existing).None?
  {
    if n == |inputs| {
      assert inputs[..n] == inputs;
    } else {
      assert inputs[..|inputs| - 1][..n] == inputs[..n];
      ReservedStays(inputs[..|inputs| - 1], existing, n);
    }
  }

  lemma {:induction false} StepsStay(inputs: seq<Input>, existing: seq<Rule>, reserved: set<Uid>, now: Time,
      ids: nat -> Uid, n: nat)
    requires n <= |inputs| && Steps(inputs[..n], existing, reserved, now, ids).None?
    ensures Steps(inputs, existing, reserved, now, ids).None?
  {
    hide Step;
    if n == |inputs| {
      assert inputs[..n] == inputs;
    } else {
      assert inputs[..|inputs| - 1][..n] == inputs[..n];
      StepsStay(inputs[..|inputs| - 1], existing, reserved, now, ids, n);
    }
  }

  method StoredByIntent(existing: seq<Rule>, reserved: set<Uid>, claimed: set<Uid>, date: string, time: string,
      zone: string)
    returns (stored: Option<Rule>, next: set<Uid>)
    ensures stored == ByIntent(existing, reserved + claimed, date, time, zone)
    ensures next == if stored.Some? then claimed + {stored.value.id} else claimed
  {
    next := claimed;
    for i := 0 to |existing|
      invariant next == claimed
      invariant ByIntent(existing, reserved + claimed, date, time, zone)
        == ByIntent(existing[i..], reserved + claimed, date, time, zone)
    {
      var rule := existing[i];
      if SameIntent(rule, date, time, zone) && rule.id !in reserved && rule.id !in claimed {
        return Some(rule), claimed + {rule.id};
      }
    }
    return None, claimed;
  }

  method RejectDuplicates(rules: seq<Rule>) returns (ok: bool)
    ensures ok == NoDuplicates(rules)
  {
    var keys: set<Rule>, instants: set<Time> := {}, {};
    for i := 0 to |rules|
      invariant keys == set k | 0 <= k < i && rules[k].RelativeRule? :: rules[k]
      invariant instants == set k | 0 <= k < i && rules[k].FixedRule? :: rules[k].instant
      invariant NoDuplicates(rules[..i])
    {
      if rules[i].RelativeRule? {
        if rules[i] in keys {
          var k :| 0 <= k < i && rules[k] == rules[i];
          assert Clash(rules[k], rules[i]);
          return false;
        }
        keys := keys + {rules[i]};
      } else {
        if rules[i].instant in instants {
          var k :| 0 <= k < i && rules[k].FixedRule? && rules[k].instant == rules[i].instant;
          assert Clash(rules[k], rules[i]);
          return false;
        }
        instants := instants + {rules[i].instant};
      }
    }
    assert rules[..|rules|] == rules;
    return true;
  }

  method NormalizeRules(inputs: seq<Input>, existing: seq<Rule>, now: Time,
      ids: nat -> Uid) returns (r: Option<seq<Rule>>)
    ensures r == Normalize(inputs, existing, now, ids)
  {
    hide Step, NoDuplicates, Reserved;
    if |inputs| > MAX_RULES || !Stored(existing) { return None; }
    hide Stored;
    var reserve := ReserveExplicitIds(inputs, existing);
    if reserve.None? { return None; }
    var reserved, p := reserve.value, Progress([], {}, 0);
    for i := 0 to |inputs|
      invariant Steps(inputs[..i], existing, reserved, now, ids) == Some(p)
    {
      assert inputs[..i + 1][..i] == inputs[..i];
      var next := NextRule(p, inputs[i], existing, reserved, now, ids);
      if next.None? {
        StepsStay(inputs, existing, reserved, now, ids, i + 1);
        return None;
      }
      p := next.value;
    }
    assert inputs[..|inputs|] == inputs;
    var ok := RejectDuplicates(p.rules);
    return if ok then Some(p.rules) else None;
  }

  method NextRule(p: Progress, raw: Input, existing: seq<Rule>, reserved: set<Uid>, now: Time,
      ids: nat -> Uid) returns (next: Option<Progress>)
    ensures next == Step(p, raw, existing, reserved, now, ids)
  {
    if raw.RelativeInput? {
      var rule := Relative(raw.amount, raw.unit);
      return if rule.None? then None else Some(p.(rules := p.rules + [rule.value]));
    }
    if !WallFields(raw.date, raw.time, raw.zone) { return None; }
    var stored: Option<Rule>, claimed := None, p.claimed;
    if raw.id.Some? {
      stored := ById(existing, raw.id.value);
    } else {
      stored, claimed := StoredByIntent(existing, reserved, p.claimed, raw.date, raw.time, raw.zone);
    }
    if stored.Some? && SameIntent(stored.value, raw.date, raw.time, raw.zone) {
      return Some(Progress(p.rules + [stored.value], claimed, p.made));
    }
    var at := Future(raw.date, raw.time, raw.zone, now);
    if at.None? { return None; }
    return Some(Progress(p.rules + [FixedRule(ids(p.made), raw.date, raw.time, raw.zone, at.value, now)], claimed,
      p.made + 1));
  }

  // What comes out

  /** A rule the normalizer can have produced. */
  predicate Produced(rule: Rule) {
    match rule
    case RelativeRule(AtDue, amount) => amount == 0
    case RelativeRule(Elapsed, amount) => 1 <= amount <= LimitOf(Minutes)
    case RelativeRule(Calendar, amount) => 1 <= amount <= LimitOf(Days)
    case FixedRule(_, date, time, zone, _, _) => WallFields(date, time, zone)
  }

  lemma {:induction false} AllProduced(inputs: seq<Input>, existing: seq<Rule>, reserved: set<Uid>, now: Time,
      ids: nat -> Uid)
    requires Steps(inputs, existing, reserved, now, ids).Some?
    ensures var p := Steps(inputs, existing, reserved, now, ids).value;
      |p.rules| == |inputs| && p.made <= |inputs| && forall r :: r in p.rules ==> Produced(r)
  {
    hide WallFields, Future;
    if inputs != [] { AllProduced(inputs[..|inputs| - 1], existing, reserved, now, ids); }
  }

  /** `ruleToInput`. */
  function ToInput(rule: Rule): Input {
    match rule
    case FixedRule(id, date, time, zone, _, _) => FixedInput(Some(id), date, time, zone)
    case RelativeRule(basis, amount) => RelativeInput(amount, if basis == Calendar then Days else Minutes)
  }

  function ToInputs(rules: seq<Rule>): seq<Input> { seq(|rules|, i requires 0 <= i < |rules| => ToInput(rules[i])) }

  lemma {:induction false} FoundById(existing: seq<Rule>, i: nat)
    requires Stored(existing) && i < |existing|
    ensures ById(existing, existing[i].id) == Some(existing[i])
  {
    if i > 0 { FoundById(existing[1..], i - 1); }
  }

  ghost predicate DistinctFixedIds(rules: seq<Rule>) {
    forall i, j :: 0 <= i < j < |rules| && rules[i].FixedRule? && rules[j].FixedRule? ==> rules[i].id != rules[j].id
  }

  function FixedIds(rules: seq<Rule>): set<Uid> { set r | r in rules && r.FixedRule? :: r.id }

  lemma FixedIdsSnoc(rest: seq<Rule>, last: Rule)
    requires DistinctFixedIds(rest + [last])
    ensures DistinctFixedIds(rest)
    ensures FixedIds(rest + [last]) == if last.FixedRule? then FixedIds(rest) + {last.id} else FixedIds(rest)
    ensures last.FixedRule? ==> last.id !in FixedIds(rest)
  {
    var rules := rest + [last];
    assert forall i :: 0 <= i < |rest| ==> rules[i] == rest[i];
    if last.FixedRule? {
      forall r | r in rest && r.FixedRule? ensures r.id != last.id {
        var i :| 0 <= i < |rest| && rest[i] == r;
        assert rules[i].id != rules[|rest|].id;
      }
    }
  }

  lemma {:induction false} ResavedIds(rules: seq<Rule>, stored: seq<Rule>)
    requires Stored(stored) && DistinctFixedIds(rules) && forall r :: r in rules && r.FixedRule? ==> r in stored
    ensures Reserved(ToInputs(rules), stored) == Some(FixedIds(rules))
  {
    if rules == [] {
      assert ToInputs(rules) == [] && FixedIds(rules) == {};
    } else {
      var rest, last := rules[..|rules| - 1], rules[|rules| - 1];
      assert rules == rest + [last];
      FixedIdsSnoc(rest, last);
      hide FixedIds, DistinctFixedIds;
      ResavedIds(rest, stored);
      assert ToInputs(rules)[..|rules| - 1] == ToInputs(rest);
      if last.FixedRule? {
        var i :| 0 <= i < |stored| && stored[i] == last;
        FoundById(stored, i);
      }
    }
  }

  lemma {:induction false} ResavedSteps(rules: seq<Rule>, stored: seq<Rule>, reserved: set<Uid>, now: Time,
      ids: nat -> Uid)
    requires Stored(stored) && forall r :: r in rules ==> Produced(r) && (r.FixedRule? ==> r in stored)
    ensures Steps(ToInputs(rules), stored, reserved, now, ids) == Some(Progress(rules, {}, 0))
  {
    if rules != [] {
      var rest, last := rules[..|rules| - 1], rules[|rules| - 1];
      assert rules == rest + [last];
      ResavedSteps(rest, stored, reserved, now, ids);
      assert ToInputs(rules)[..|rules| - 1] == ToInputs(rest);
      if last.FixedRule? {
        var i :| 0 <= i < |stored| && stored[i] == last;
        FoundById(stored, i);
      }
    }
  }

  /**
    Re-saving is the identity: rules that came out of the normalizer, sent back by the page with
    those fixed rules stored (and maybe others), come out the same at any time, with nothing
    resolved again and no new ID.
   */
  lemma ResavingIsIdentity(inputs: seq<Input>, existing: seq<Rule>, now: Time, ids: nat -> Uid, rules: seq<Rule>,
                           stored: seq<Rule>, later: Time, laterIds: nat -> Uid)
    requires Normalize(inputs, existing, now, ids) == Some(rules)
    requires Stored(stored) && DistinctFixedIds(rules) && forall r :: r in rules && r.FixedRule? ==> r in stored
    ensures Normalize(ToInputs(rules), stored, later, laterIds) == Some(rules)
  {
    hide Step, NoDuplicates, Stored;
    var reserved := Reserved(inputs, existing).value;
    AllProduced(inputs, existing, reserved, now, ids);
    ResavedIds(rules, stored);
    ResavedSteps(rules, stored, FixedIds(rules), later, laterIds);
  }

  // Identities

  /** New IDs are new. */
  ghost predicate FreshIds(ids: nat -> Uid, existing: seq<Rule>) {
    (forall k: nat, r :: r in existing && r.FixedRule? ==> ids(k) != r.id) && forall j: nat, k: nat :: j != k ==>
      ids(j) != ids(k)
  }

  /** Where the ID of an output rule comes from. */
  predicate FromSomewhere(id: Uid, named: set<Uid>, claimed: set<Uid>, made: nat, ids: nat -> Uid) {
    id in named || id in claimed || exists k | 0 <= k < made :: ids(k) == id
  }

  /** All fixed IDs so far are distinct, and each comes from one of the three sources. */
  ghost predicate IdsOk(p: Progress, named: set<Uid>, existing: seq<Rule>, reserved: set<Uid>, ids: nat -> Uid) {
    && DistinctFixedIds(p.rules) && p.claimed !! reserved && p.claimed <= FixedIds(existing)
    && forall r :: r in p.rules && r.FixedRule? ==> FromSomewhere(r.id, named, p.claimed, p.made, ids)
  }

  lemma {:induction false} NamedAreStored(inputs: seq<Input>, existing: seq<Rule>)
    requires Reserved(inputs, existing).Some?
    ensures Reserved(inputs, existing).value <= FixedIds(existing)
  {
    if inputs != [] {
      NamedAreStored(inputs[..|inputs| - 1], existing);
      var raw := inputs[|inputs| - 1];
      if raw.FixedInput? && raw.id.Some? { assert ById(existing, raw.id.value).Some?; }
    }
  }

  lemma OneMoreId(p: Progress, rule: Rule)
    requires DistinctFixedIds(p.rules) && forall r :: r in p.rules && r.FixedRule? && rule.FixedRule? ==>
      r.id != rule.id
    ensures DistinctFixedIds(p.rules + [rule])
  {
  }

  /** A stored rule is kept, under a name or by its intent. */
  lemma KeptIds(p: Progress, rule: Rule, named: set<Uid>, more: set<Uid>, claimed: set<Uid>, existing: seq<Rule>,
      reserved: set<Uid>, ids: nat -> Uid)
    requires IdsOk(p, named, existing, reserved, ids) && FreshIds(ids, existing) && named <= reserved && rule.FixedRule?
      && rule in existing
    requires rule.id !in named && rule.id !in p.claimed && (rule.id in reserved || claimed == p.claimed + {rule.id})
    requires if rule.id in reserved then more == named + {rule.id} && claimed == p.claimed else more == named
    ensures IdsOk(Progress(p.rules + [rule], claimed, p.made), more, existing, reserved, ids)
  {
    StoredIdsAreNotNew(rule.id, existing, ids);
    hide FreshIds;
    forall r | r in p.rules && r.FixedRule? ensures r.id != rule.id {
      assert FromSomewhere(r.id, named, p.claimed, p.made, ids);
    }
    OneMoreId(p, rule);
    hide DistinctFixedIds;
  }

  lemma NewIds(p: Progress, rule: Rule, named: set<Uid>, more: set<Uid>, existing: seq<Rule>, reserved: set<Uid>,
      ids: nat -> Uid)
    requires IdsOk(p, named, existing, reserved, ids) && FreshIds(ids, existing) && named <= FixedIds(existing)
      && named <= more
    requires rule.FixedRule? && rule.id == ids(p.made)
    ensures IdsOk(Progress(p.rules + [rule], p.claimed, p.made + 1), more, existing, reserved, ids)
  {
    forall r | r in p.rules && r.FixedRule?
      ensures r.id != rule.id && FromSomewhere(r.id, more, p.claimed, p.made + 1, ids)
    {
      assert FromSomewhere(r.id, named, p.claimed, p.made, ids);
      StoredIdsAreNotNew(r.id, existing, ids);
    }
    OneMoreId(p, rule);
    hide DistinctFixedIds, FreshIds;
  }

  lemma StepIds(p: Progress, raw: Input, named: set<Uid>, more: set<Uid>, existing: seq<Rule>, reserved: set<Uid>,
      now: Time, ids: nat -> Uid)
    requires IdsOk(p, named, existing, reserved, ids) && FreshIds(ids, existing) && named <= reserved
      && named <= FixedIds(existing)
    requires if raw.FixedInput? && raw.id.Some?
      then raw.id.value !in named && raw.id.value in reserved && more == named + {raw.id.value} else more == named
    requires raw.FixedInput? && raw.id.Some? ==> ById(existing, raw.id.value).Some?
    requires Step(p, raw, existing, reserved, now, ids).Some?
    ensures IdsOk(Step(p, raw, existing, reserved, now, ids).value, more, existing, reserved, ids)
  {
    hide WallFields, Future, FreshIds;
    var q := Step(p, raw, existing, reserved, now, ids).value;
    if raw.RelativeInput? {
      OneMoreId(p, q.rules[|p.rules|]);
      assert q.rules == p.rules + [q.rules[|p.rules|]];
    } else {
      var stored := if raw.id.Some? then ById(existing, raw.id.value)
          else ByIntent(existing, reserved + p.claimed, raw.date, raw.time, raw.zone);
      hide IdsOk, ById, ByIntent;
      if stored.Some? && SameIntent(stored.value, raw.date, raw.time, raw.zone) {
        if raw.id.Some? { ReservedNotClaimed(p, named, existing, reserved, ids, raw.id.value); }
        KeptIds(p, stored.value, named, more, q.claimed, existing, reserved, ids);
      } else {
        NewIds(p, q.rules[|p.rules|], named, more, existing, reserved, ids);
      }
    }
  }

  lemma ReservedNotClaimed(p: Progress, named: set<Uid>, existing: seq<Rule>, reserved: set<Uid>, ids: nat -> Uid,
      id: Uid)
    requires IdsOk(p, named, existing, reserved, ids) && id in reserved
    ensures id !in p.claimed
  {
  }

  lemma StoredIdsAreNotNew(id: Uid, existing: seq<Rule>, ids: nat -> Uid)
    requires FreshIds(ids, existing)
    ensures id in FixedIds(existing) ==> forall k: nat :: ids(k) != id
  {
  }

  lemma {:induction false} IdsOf(inputs: seq<Input>, existing: seq<Rule>, reserved: set<Uid>, now: Time,
      ids: nat -> Uid)
    requires Steps(inputs, existing, reserved, now, ids).Some? && Reserved(inputs, existing).Some?
    requires Reserved(inputs, existing).value <= reserved && FreshIds(ids, existing)
    ensures IdsOk(Steps(inputs, existing, reserved, now, ids).value, Reserved(inputs, existing).value, existing,
      reserved, ids)
  {
    hide Step, FreshIds, IdsOk;
    if inputs == [] {
      EmptyIds(existing, reserved, ids);
    } else {
      var rest := inputs[..|inputs| - 1];
      IdsOf(rest, existing, reserved, now, ids);
      NamedAreStored(rest, existing);
      StepIds(Steps(rest, existing, reserved, now, ids).value, inputs[|inputs| - 1], Reserved(rest, existing).value,
        Reserved(inputs, existing).value, existing, reserved, now, ids);
    }
  }

  lemma EmptyIds(existing: seq<Rule>, reserved: set<Uid>, ids: nat -> Uid)
    ensures IdsOk(Progress([], {}, 0), {}, existing, reserved, ids)
  {
  }

  /** No two fixed rules that come out share an ID. */
  lemma OutputIdsDistinct(inputs: seq<Input>, existing: seq<Rule>, now: Time, ids: nat -> Uid)
    requires FreshIds(ids, existing) && Normalize(inputs, existing, now, ids).Some?
    ensures DistinctFixedIds(Normalize(inputs, existing, now, ids).value)
  {
    hide Step, FreshIds, DistinctFixedIds;
    IdsOf(inputs, existing, Reserved(inputs, existing).value, now, ids);
  }
}
