/**
  What normalized reminder rules mean: they fire when the input asked for, fixed rules keep their
  wall time, and the same input sent again gives the same rules.
 */
module RuleLaws {
  import opened RoomModel
  import opened Operations
  import opened ReminderRules
  import Zoned = ZonedTime
  import opened Policies

  // When a rule fires

  /** `u` is the instant of the rule for something due at the wall time `w` (seconds). */
  ghost predicate Fires(z: Zoned.Zone, w: int, rule: Rule, u: int)
    requires Zoned.Valid(z) && rule.RelativeRule?
  {
    match rule.basis
    case AtDue => Zoned.First(z, w, u)
    case Elapsed => Zoned.First(z, w, u + 60 * rule.amount)
    case Calendar => Zoned.First(z, w - 24 * 60 * 60 * rule.amount, u)
  }

  /** Minutes and hours before it are elapsed time; days and weeks are calendar days. */
  ghost predicate AskedFor(z: Zoned.Zone, w: int, amount: int, unit: Unit, u: int)
    requires Zoned.Valid(z)
  {
    match unit
    case Minutes => Zoned.First(z, w, u + 60 * amount)
    case Hours => Zoned.First(z, w, u + 60 * 60 * amount)
    case Days => Zoned.First(z, w - 24 * 60 * 60 * amount, u)
    case Weeks => Zoned.First(z, w - 7 * 24 * 60 * 60 * amount, u)
  }

  predicate InLimits(amount: int, unit: Unit) {
    0 <= amount <= match unit
    case Minutes => 525_600
    case Hours => 8_760
    case Days => 365
    case Weeks => 52
  }

  lemma RelativeMeans(amount: int, unit: Unit, z: Zoned.Zone, w: int, u: int)
    requires Zoned.Valid(z)
    ensures Relative(amount, unit).Some? <==> InLimits(amount, unit)
    ensures Relative(amount, unit).Some? ==>
      var rule := Relative(amount, unit).value;
      rule.RelativeRule? && (Fires(z, w, rule, u) <==> AskedFor(z, w, amount, unit, u))
  {
    hide Zoned.Valid, Zoned.First;
  }

  // Each output rule is that of its input

  /** The rules after the first `n` inputs are the first `n` rules. */
  lemma {:induction false} Prefix(inputs: seq<Input>, existing: seq<Rule>, reserved: set<Uid>, now: Time,
      ids: nat -> Uid, n: nat)
    requires Steps(inputs, existing, reserved, now, ids).Some? && n <= |inputs|
    ensures Steps(inputs[..n], existing, reserved, now, ids).Some?
    ensures |Steps(inputs, existing, reserved, now, ids).value.rules| == |inputs|
    ensures Steps(inputs[..n], existing, reserved, now, ids).value.rules
      == Steps(inputs, existing, reserved, now, ids).value.rules[..n]
    decreases |inputs|
  {
    var fewer := if inputs == [] then [] else inputs[..|inputs| - 1];
    if n == |inputs| { assert inputs[..n] == inputs; }
    if inputs != [] {
      OneRule(fewer, inputs[|inputs| - 1], existing, reserved, now, ids);
      assert fewer + [inputs[|inputs| - 1]] == inputs;
      if n < |inputs| {
        assert fewer[..n] == inputs[..n];
        Prefix(fewer, existing, reserved, now, ids, n);
      } else {
        Prefix(fewer, existing, reserved, now, ids, |fewer|);
      }
    }
  }

  lemma OneRule(rest: seq<Input>, raw: Input, existing: seq<Rule>, reserved: set<Uid>, now: Time, ids: nat -> Uid)
    requires Steps(rest + [raw], existing, reserved, now, ids).Some?
    ensures Steps(rest, existing, reserved, now, ids).Some?
    ensures var p, q := Steps(rest, existing, reserved, now, ids).value,
          Steps(rest + [raw], existing, reserved, now, ids).value;
      && Some(q) == Step(p, raw, existing, reserved, now, ids)
      && |q.rules| == |p.rules| + 1 && q.rules[..|p.rules|] == p.rules
  {
    assert (rest + [raw])[..|rest|] == rest;
    hide WallFields, Future, Relative, ById, ByIntent;
  }

  /** The rule at `i` is what the step for the input at `i` adds. */
  lemma AtStep(inputs: seq<Input>, existing: seq<Rule>, now: Time, ids: nat -> Uid, i: nat) returns (p: Progress)
    requires Normalize(inputs, existing, now, ids).Some? && i < |inputs|
    ensures Stored(existing) && Reserved(inputs, existing).Some?
    ensures Step(p, inputs[i], existing, Reserved(inputs, existing).value, now, ids).Some?
    ensures var q := Step(p, inputs[i], existing, Reserved(inputs, existing).value, now, ids).value;
      && |q.rules| == |p.rules| + 1 && |Normalize(inputs, existing, now, ids).value| == |inputs|
      && Normalize(inputs, existing, now, ids).value[i] == q.rules[|p.rules|]
  {
    hide Stored, Step, NoDuplicates;
    var reserved := Reserved(inputs, existing).value;
    Prefix(inputs, existing, reserved, now, ids, i);
    Prefix(inputs, existing, reserved, now, ids, i + 1);
    p := Steps(inputs[..i], existing, reserved, now, ids).value;
    assert inputs[..i + 1] == inputs[..i] + [inputs[i]];
    OneRule(inputs[..i], inputs[i], existing, reserved, now, ids);
  }

  /** What a fixed rule is to its input: its wall time, and the instant of it unless the stored rule is kept. */
  ghost predicate FixedRight(raw: Input, rule: Rule, existing: seq<Rule>, now: Time)
    requires raw.FixedInput?
  {
    && SameIntent(rule, raw.date, raw.time, raw.zone)
    && (rule in existing || (rule.instant > now && rule.activation == now
        && Resolve(raw.date, raw.time, raw.zone) == Instant(rule.instant)))
    && (raw.id.Some? ==> forall r :: r in existing && SameIntent(r, raw.date, raw.time, raw.zone) ==>
        r.id == raw.id.value ==> rule.id == raw.id.value)
  }

  lemma StepRight(p: Progress, raw: Input, existing: seq<Rule>, reserved: set<Uid>, now: Time, ids: nat -> Uid)
    requires raw.FixedInput? && Stored(existing) && Step(p, raw, existing, reserved, now, ids).Some?
    ensures var q := Step(p, raw, existing, reserved, now, ids).value;
      |q.rules| == |p.rules| + 1 && FixedRight(raw, q.rules[|p.rules|], existing, now)
  {
    hide WallFields;
    if raw.id.Some? {
      forall r | r in existing && r.id == raw.id.value ensures ById(existing, raw.id.value) == Some(r) {
        var i :| 0 <= i < |existing| && existing[i] == r;
        FoundById(existing, i);
      }
    }
    hide ById, ByIntent;
  }

  /**
    Every rule that comes out means what its input asked for: a relative one fires for any due time
    in any zone when the input says, and a fixed one has the input's wall time.
   */
  lemma RulesMean(inputs: seq<Input>, existing: seq<Rule>, now: Time, ids: nat -> Uid, i: nat)
    requires Normalize(inputs, existing, now, ids).Some? && i < |inputs|
    ensures |Normalize(inputs, existing, now, ids).value| == |inputs|
    ensures var rule := Normalize(inputs, existing, now, ids).value[i];
      match inputs[i]
      case RelativeInput(amount, unit) =>
        && InLimits(amount, unit) && rule.RelativeRule?
        && forall z: Zoned.Zone, w: int, u: int :: Zoned.Valid(z) ==>
          (Fires(z, w, rule, u) <==> AskedFor(z, w, amount, unit, u))
      case FixedInput(_, _, _, _) => FixedRight(inputs[i], rule, existing, now)
  {
    hide Normalize, Stored, Step, Fires, AskedFor, FixedRight, InLimits;
    var p := AtStep(inputs, existing, now, ids, i);
    StepMeans(p, inputs[i], existing, Reserved(inputs, existing).value, now, ids);
  }

  lemma StepMeans(p: Progress, raw: Input, existing: seq<Rule>, reserved: set<Uid>, now: Time, ids: nat -> Uid)
    requires Stored(existing) && Step(p, raw, existing, reserved, now, ids).Some?
    ensures var q := Step(p, raw, existing, reserved, now, ids).value;
      && |q.rules| == |p.rules| + 1
      && var rule := q.rules[|p.rules|];
      match raw
      case RelativeInput(amount, unit) =>
        && InLimits(amount, unit) && rule.RelativeRule?
        && forall z: Zoned.Zone, w: int, u: int :: Zoned.Valid(z) ==>
          (Fires(z, w, rule, u) <==> AskedFor(z, w, amount, unit, u))
      case FixedInput(_, _, _, _) => FixedRight(raw, rule, existing, now)
  {
    if raw.FixedInput? {
      StepRight(p, raw, existing, reserved, now, ids);
    } else {
      hide Fires, AskedFor, Relative;
      AnyZone(raw.amount, raw.unit);
      forall z: Zoned.Zone, w: int, u: int | Zoned.Valid(z) { RelativeMeans(raw.amount, raw.unit, z, w, u); }
    }
  }

  lemma AnyZone(amount: int, unit: Unit)
    ensures Relative(amount, unit).Some? <==> InLimits(amount, unit)
    ensures Relative(amount, unit).Some? ==> Relative(amount, unit).value.RelativeRule?
  {
  }

  // Which inputs are accepted

  /** The rule an input with this amount stands for: at the due time, minutes before it, or days before it. */
  function Meaning(raw: Input): (Basis, int)
    requires raw.RelativeInput?
  {
    if raw.amount == 0 then (AtDue, 0)
    else match raw.unit
      case Minutes => (Elapsed, raw.amount)
      case Hours => (Elapsed, 60 * raw.amount)
      case Days => (Calendar, raw.amount)
      case Weeks => (Calendar, 7 * raw.amount)
  }

  /** YYYY-MM-DD. */
  predicate DateShape(s: string) {
    |s| == 10 && forall i | 0 <= i < 10 :: if i == 4 || i == 7 then s[i] == '-' else '0' <= s[i] <= '9'
  }

  function When(raw: Input): Resolution
    requires raw.FixedInput?
  {
    Resolve(raw.date, raw.time, raw.zone)
  }

  /** In its limits, or of its form with a known instant to come. */
  predicate Sound(raw: Input, now: Time) {
    if raw.RelativeInput? then InLimits(raw.amount, raw.unit)
    else DateShape(raw.date) && ClockTime(raw.time) && 1 <= |raw.zone| <= 64 && When(raw).Instant? && When(raw).at > now
  }

  predicate SameMeaning(a: Input, b: Input) {
    if a.RelativeInput? then b.RelativeInput? && Meaning(a) == Meaning(b)
    else b.FixedInput? && When(a) == When(b)
  }

  /** Names no stored rule, and none has its wall time. */
  ghost predicate IsNew(raw: Input, existing: seq<Rule>) {
    raw.FixedInput? ==> raw.id.None? && forall r :: r in existing ==> !SameIntent(r, raw.date, raw.time, raw.zone)
  }

  ghost predicate AllNew(inputs: seq<Input>, existing: seq<Rule>) {
    forall i :: 0 <= i < |inputs| ==> IsNew(inputs[i], existing)
  }

  ghost predicate AllSound(inputs: seq<Input>, now: Time) { forall i :: 0 <= i < |inputs| ==> Sound(inputs[i], now) }

  /** The rule of a new input. */
  predicate NewRule(raw: Input, rule: Rule) {
    if raw.RelativeInput? then rule == RelativeRule(Meaning(raw).0, Meaning(raw).1)
    else rule.FixedRule? && When(raw) == Instant(rule.instant)
  }

  lemma {:induction false} NoneStored(existing: seq<Rule>, taken: set<Uid>, raw: Input)
    requires raw.FixedInput? && IsNew(raw, existing)
    ensures ByIntent(existing, taken, raw.date, raw.time, raw.zone) == None
  {
    if existing != [] {
      assert existing[0] in existing;
      NoneStored(existing[1..], taken, raw);
    }
  }

  lemma NewStep(p: Progress, raw: Input, existing: seq<Rule>, now: Time, ids: nat -> Uid)
    requires IsNew(raw, existing)
    ensures var q := Step(p, raw, existing, {}, now, ids);
      && (q.Some? <==> Sound(raw, now))
      && (q.Some? ==> exists rule :: q.value.rules == p.rules + [rule] && NewRule(raw, rule))
  {
    if raw.FixedInput? {
      NoneStored(existing, {} + p.claimed, raw);
      assert DateShape(raw.date) <==> DateText(raw.date);
      hide IsNew, ClockTime, DateText, DateShape, ById, ByIntent;
      var q := Step(p, raw, existing, {}, now, ids);
      if q.Some? { assert q.value.rules == p.rules + [q.value.rules[|p.rules|]]; }
    } else {
      AnyZone(raw.amount, raw.unit);
      hide IsNew, InLimits;
      var q := Step(p, raw, existing, {}, now, ids);
      if q.Some? { assert NewRule(raw, q.value.rules[|p.rules|]); }
    }
  }

  lemma {:induction false} NewSteps(inputs: seq<Input>, existing: seq<Rule>, now: Time, ids: nat -> Uid)
    requires AllNew(inputs, existing)
    ensures Reserved(inputs, existing) == Some({})
    ensures Steps(inputs, existing, {}, now, ids).Some? <==> AllSound(inputs, now)
    ensures AllSound(inputs, now) ==>
      var rules := Steps(inputs, existing, {}, now, ids).value.rules;
      |rules| == |inputs| && forall i :: 0 <= i < |inputs| ==> NewRule(inputs[i], rules[i])
  {
    hide Step, IsNew, Sound, NewRule, ById;
    if inputs != [] {
      var rest, raw := inputs[..|inputs| - 1], inputs[|inputs| - 1];
      NewSteps(rest, existing, now, ids);
      assert inputs == rest + [raw];
      assert AllSound(inputs, now) <==> AllSound(rest, now) && Sound(raw, now);
      assert raw.FixedInput? ==> raw.id.None? by { assert IsNew(raw, existing); NewHasNoId(raw, existing); }
      var p := Steps(rest, existing, {}, now, ids);
      if p.Some? { NewStep(p.value, raw, existing, now, ids); }
    }
  }

  lemma NewHasNoId(raw: Input, existing: seq<Rule>)
    requires IsNew(raw, existing)
    ensures raw.FixedInput? ==> raw.id.None?
  {
  }

  /**
    New inputs are accepted exactly if there are at most five, each in its limits or of its form
    with an instant to come, and no two mean the same.
   */
  lemma NewAccepted(inputs: seq<Input>, existing: seq<Rule>, now: Time, ids: nat -> Uid)
    requires Stored(existing) && AllNew(inputs, existing)
    ensures Normalize(inputs, existing, now, ids).Some? <==>
      && |inputs| <= 5 && AllSound(inputs, now)
      && forall i, j :: 0 <= i < j < |inputs| ==> !SameMeaning(inputs[i], inputs[j])
  {
    hide Stored, Meaning, AllNew, AllSound, When;
    NewSteps(inputs, existing, now, ids);
    if AllSound(inputs, now) {
      var rules := Steps(inputs, existing, {}, now, ids).value.rules;
      forall i, j | 0 <= i < j < |inputs| ensures Clash(rules[i], rules[j]) <==> SameMeaning(inputs[i], inputs[j]) {
        assert NewRule(inputs[i], rules[i]) && NewRule(inputs[j], rules[j]);
      }
    }
  }

  /** No two rules that come out are the same or fire at the same fixed instant. */
  lemma OutputsDiffer(inputs: seq<Input>, existing: seq<Rule>, now: Time, ids: nat -> Uid, i: nat, j: nat)
    requires Normalize(inputs, existing, now, ids).Some? && i < j < |Normalize(inputs, existing, now, ids).value|
    ensures var rules := Normalize(inputs, existing, now, ids).value;
      && rules[i] != rules[j]
      && (rules[i].FixedRule? && rules[j].FixedRule? ==> rules[i].instant != rules[j].instant)
  {
    hide Steps, Reserved, Stored;
    var rules := Normalize(inputs, existing, now, ids).value;
    assert !Clash(rules[i], rules[j]);
  }

  // The same input again

  /** Every input that names a stored rule has the wall time of that rule. */
  ghost predicate KeepsNamed(inputs: seq<Input>, existing: seq<Rule>) {
    forall i :: 0 <= i < |inputs| && inputs[i].FixedInput? && inputs[i].id.Some? ==> KeepsItsRule(inputs[i], existing)
  }

  predicate KeepsItsRule(raw: Input, existing: seq<Rule>)
    requires raw.FixedInput? && raw.id.Some?
  {
    exists r | r in existing :: r.FixedRule? && r.id == raw.id.value && SameIntent(r, raw.date, raw.time, raw.zone)
  }

  lemma NamedRule(raw: Input, existing: seq<Rule>)
    requires Stored(existing) && raw.FixedInput? && raw.id.Some?
    ensures KeepsItsRule(raw, existing) <==>
      ById(existing, raw.id.value).Some? && SameIntent(ById(existing, raw.id.value).value, raw.date, raw.time, raw.zone)
  {
    if r :| r in existing && r.FixedRule? && r.id == raw.id.value && SameIntent(r, raw.date, raw.time, raw.zone) {
      var k :| 0 <= k < |existing| && existing[k] == r;
      FoundById(existing, k);
    }
  }

  /** The IDs that inputs name, each by one input only. */
  lemma {:induction false} NamedOnce(inputs: seq<Input>, existing: seq<Rule>)
    requires Reserved(inputs, existing).Some?
    ensures var reserved := Reserved(inputs, existing).value;
      && (forall i :: 0 <= i < |inputs| && inputs[i].FixedInput? && inputs[i].id.Some? ==>
        inputs[i].id.value in reserved && ById(existing, inputs[i].id.value).Some?)
      && (forall i, j ::
        0 <= i < j < |inputs| && inputs[i].FixedInput? && inputs[i].id.Some? && inputs[j].FixedInput? ==>
        inputs[j].id != inputs[i].id)
      && forall k :: k in reserved ==> exists i :: 0 <= i < |inputs| && inputs[i].FixedInput? && inputs[i].id == Some(k)
  {
    hide ById;
    if inputs != [] {
      var rest := inputs[..|inputs| - 1];
      NamedOnce(rest, existing);
      var reserved := Reserved(inputs, existing).value;
      forall k | k in reserved
        ensures exists i :: 0 <= i < |inputs| && inputs[i].FixedInput? && inputs[i].id == Some(k)
      {
        if k in Reserved(rest, existing).value {
          var i :| 0 <= i < |rest| && rest[i].FixedInput? && rest[i].id == Some(k);
          assert inputs[i] == rest[i];
        } else {
          assert inputs[|inputs| - 1].id == Some(k);
        }
      }
    }
  }

  /** What the first pass made of a fixed input: where the ID of its rule comes from. */
  ghost predicate Sourced(raw: Input, rule: Rule, existing: seq<Rule>, reserved: set<Uid>)
    requires raw.FixedInput?
  {
    && SameIntent(rule, raw.date, raw.time, raw.zone)
    && (FindsNamed(raw, existing) ==> rule.id == raw.id.value)
    && (rule.id in reserved ==> raw.id == Some(rule.id) && FindsNamed(raw, existing))
  }

  predicate FindsNamed(raw: Input, existing: seq<Rule>)
    requires raw.FixedInput?
  {
    raw.id.Some? && ById(existing, raw.id.value).Some?
      && SameIntent(ById(existing, raw.id.value).value, raw.date, raw.time, raw.zone)
  }

  lemma StepSourced(p: Progress, raw: Input, existing: seq<Rule>, reserved: set<Uid>, now: Time, ids: nat -> Uid)
    requires raw.FixedInput? && FreshIds(ids, existing) && reserved <= FixedIds(existing)
    requires Step(p, raw, existing, reserved, now, ids).Some?
    ensures var q := Step(p, raw, existing, reserved, now, ids).value;
      |q.rules| == |p.rules| + 1 && Sourced(raw, q.rules[|p.rules|], existing, reserved)
  {
    hide WallFields, Future;
    StoredIdsAreNotNew(ids(p.made), existing, ids);
    hide FreshIds, ById, ByIntent;
  }

  lemma RuleSourced(inputs: seq<Input>, existing: seq<Rule>, now: Time, ids: nat -> Uid, i: nat)
    requires Normalize(inputs, existing, now, ids).Some? && i < |inputs| && FreshIds(ids, existing)
    ensures |Normalize(inputs, existing, now, ids).value| == |inputs|
    ensures var rule := Normalize(inputs, existing, now, ids).value[i];
      && (inputs[i].RelativeInput? ==> Relative(inputs[i].amount, inputs[i].unit) == Some(rule))
      && (inputs[i].FixedInput? ==>
        && WallFields(inputs[i].date, inputs[i].time, inputs[i].zone)
        && Sourced(inputs[i], rule, existing, Reserved(inputs, existing).value))
  {
    hide Normalize, Stored, Sourced, FreshIds, ById, ByIntent, WallFields, Relative, FixedIds, Future;
    var p := AtStep(inputs, existing, now, ids, i);
    NamedAreStored(inputs, existing);
    if inputs[i].FixedInput? {
      StepSourced(p, inputs[i], existing, Reserved(inputs, existing).value, now, ids);
    }
  }

  lemma FixedHead(rules: seq<Rule>)
    ensures FixedOf(rules) == if rules == [] then []
      else (if rules[0].FixedRule? then [rules[0]] else []) + FixedOf(rules[1..])
  {
  }

  lemma {:induction false} FixedConcat(a: seq<Rule>, b: seq<Rule>)
    ensures FixedOf(a + b) == FixedOf(a) + FixedOf(b)
  {
    hide FixedOf;
    FixedHead(a);
    if a == [] {
      assert a + b == b;
    } else {
      var rest := a[1..];
      FixedConcat(rest, b);
      FixedHead(a + b);
      assert (a + b)[1..] == rest + b && (a + b)[0] == a[0];
      var head := if a[0].FixedRule? then [a[0]] else [];
      assert head + FixedOf(rest) + FixedOf(b) == head + (FixedOf(rest) + FixedOf(b));
    }
  }

  lemma FixedSplit(rules: seq<Rule>, i: nat)
    requires i < |rules| && rules[i].FixedRule?
    ensures FixedOf(rules) == FixedOf(rules[..i]) + [rules[i]] + FixedOf(rules[i + 1..])
  {
    hide FixedOf;
    var before, after := rules[..i], rules[i + 1..];
    assert rules == before + ([rules[i]] + after);
    FixedConcat(before, [rules[i]] + after);
    FixedConcat([rules[i]], after);
    FixedHead([rules[i]]);
    FixedHead([]);
    assert [rules[i]][1..] == [] && FixedOf([rules[i]]) == [rules[i]];
    assert FixedOf(before) + ([rules[i]] + FixedOf(after)) == FixedOf(before) + [rules[i]] + FixedOf(after);
  }

  /** The stored rules before `x` are taken, so the search ends at `x`. */
  lemma {:induction false} SearchEnds(before: seq<Rule>, x: Rule, after: seq<Rule>, taken: set<Uid>, date: string,
      time: string, zone: string)
    requires forall r :: r in before ==> r.FixedRule? && r.id in taken
    requires SameIntent(x, date, time, zone) && x.id !in taken
    ensures ByIntent(before + [x] + after, taken, date, time, zone) == Some(x)
  {
    if before == [] {
      assert before + [x] + after == [x] + after;
    } else {
      assert (before + [x] + after)[1..] == before[1..] + [x] + after;
      SearchEnds(before[1..], x, after, taken, date, time, zone);
    }
  }

  /** The IDs of rules so far whose inputs name none. */
  ghost function Unnamed(inputs: seq<Input>, rules: seq<Rule>, n: nat): set<Uid>
    requires n <= |inputs| == |rules|
  {
    set i | 0 <= i < n && inputs[i].FixedInput? && inputs[i].id.None? && rules[i].FixedRule? :: rules[i].id
  }

  /** What the second pass needs to know of the first. */
  ghost predicate FirstPass(inputs: seq<Input>, rules: seq<Rule>, reserved: set<Uid>) {
    |rules| == |inputs| && DistinctFixedIds(rules)
      && forall i :: 0 <= i < |inputs| ==> OnePass(inputs[i], rules[i], reserved)
  }

  predicate OnePass(raw: Input, rule: Rule, reserved: set<Uid>) {
    if raw.RelativeInput? then Relative(raw.amount, raw.unit) == Some(rule) && !rule.FixedRule?
    else
      && WallFields(raw.date, raw.time, raw.zone) && SameIntent(rule, raw.date, raw.time, raw.zone)
      && (raw.id.Some? ==> rule.id == raw.id.value) && (raw.id.Some? <==> rule.id in reserved)
  }

  lemma SecondFind(inputs: seq<Input>, rules: seq<Rule>, reserved: set<Uid>, i: nat)
    requires FirstPass(inputs, rules, reserved) && i < |inputs| && inputs[i].FixedInput? && inputs[i].id.None?
    ensures ByIntent(FixedOf(rules), reserved + Unnamed(inputs, rules, i), inputs[i].date, inputs[i].time,
      inputs[i].zone)
      == Some(rules[i])
  {
    hide WallFields, Relative, FixedOf, ByIntent;
    var before, after := rules[..i], rules[i + 1..];
    FixedSplit(rules, i);
    var taken := reserved + Unnamed(inputs, rules, i);
    DistinctPart(rules, i);
    FixedOfShape(before);
    forall r | r in FixedOf(before) ensures r.FixedRule? && r.id in taken {
      var j :| 0 <= j < |before| && before[j] == r;
      assert rules[j] == r;
    }
    SearchEnds(FixedOf(before), rules[i], FixedOf(after), taken, inputs[i].date, inputs[i].time, inputs[i].zone);
  }

  lemma DistinctPart(rules: seq<Rule>, n: nat)
    requires DistinctFixedIds(rules) && n <= |rules|
    ensures DistinctFixedIds(rules[..n])
  {
    var part := rules[..n];
    assert forall i :: 0 <= i < n ==> part[i] == rules[i];
  }

  lemma FoundAgain(rules: seq<Rule>, i: nat)
    requires DistinctFixedIds(rules) && i < |rules| && rules[i].FixedRule?
    ensures ById(FixedOf(rules), rules[i].id) == Some(rules[i])
  {
    FixedOfShape(rules);
    var fixed := FixedOf(rules);
    assert rules[i] in fixed;
    var k :| 0 <= k < |fixed| && fixed[k] == rules[i];
    FoundById(fixed, k);
  }

  lemma SecondStep(inputs: seq<Input>, rules: seq<Rule>, reserved: set<Uid>, later: Time, ids: nat -> Uid, i: nat)
    requires FirstPass(inputs, rules, reserved) && i < |inputs|
    ensures Step(Progress(rules[..i], Unnamed(inputs, rules, i), 0), inputs[i], FixedOf(rules), reserved, later, ids)
      == Some(Progress(rules[..i] + [rules[i]], Unnamed(inputs, rules, i + 1), 0))
  {
    assert OnePass(inputs[i], rules[i], reserved);
    var raw, fixed, claimed := inputs[i], FixedOf(rules), Unnamed(inputs, rules, i);
    OneUnnamed(inputs, rules, i);
    if raw.FixedInput? {
      if raw.id.Some? {
        FoundAgain(rules, i);
        assert ById(fixed, raw.id.value) == Some(rules[i]);
      } else {
        SecondFind(inputs, rules, reserved, i);
        assert ByIntent(fixed, reserved + claimed, raw.date, raw.time, raw.zone) == Some(rules[i]);
      }
    }
    hide FirstPass, WallFields, Relative, Future, ById, ByIntent, FixedOf, Unnamed;
  }

  lemma {:induction false} SecondSteps(inputs: seq<Input>, rules: seq<Rule>, reserved: set<Uid>, later: Time,
      ids: nat -> Uid, n: nat)
    requires FirstPass(inputs, rules, reserved) && n <= |inputs|
    ensures Steps(inputs[..n], FixedOf(rules), reserved, later, ids)
      == Some(Progress(rules[..n], Unnamed(inputs, rules, n), 0))
  {
    assert |rules| == |inputs|;
    assert Unnamed(inputs, rules, 0) == {};
    hide FirstPass, Step, Unnamed, FixedOf;
    if n > 0 {
      SecondSteps(inputs, rules, reserved, later, ids, n - 1);
      SecondStep(inputs, rules, reserved, later, ids, n - 1);
      assert inputs[..n][..n - 1] == inputs[..n - 1] && rules[..n] == rules[..n - 1] + [rules[n - 1]];
    }
  }

  lemma OneUnnamed(inputs: seq<Input>, rules: seq<Rule>, i: nat)
    requires i < |inputs| == |rules|
    ensures Unnamed(inputs, rules, i + 1)
      == if inputs[i].FixedInput? && inputs[i].id.None? && rules[i].FixedRule?
         then Unnamed(inputs, rules, i) + {rules[i].id} else Unnamed(inputs, rules, i)
  {
  }

  /** The named IDs are found again, so they are reserved again. */
  lemma {:induction false} SecondReserved(inputs: seq<Input>, rules: seq<Rule>, existing: seq<Rule>, reserved: set<Uid>,
      n: nat)
    requires FirstPass(inputs, rules, reserved) && n <= |inputs| && Reserved(inputs[..n], existing).Some?
    ensures Reserved(inputs[..n], FixedOf(rules)) == Reserved(inputs[..n], existing)
  {
    hide WallFields, Relative, ById, FixedOf;
    if n > 0 {
      var i := n - 1;
      assert inputs[..n][..i] == inputs[..i];
      SecondReserved(inputs, rules, existing, reserved, i);
      assert OnePass(inputs[i], rules[i], reserved);
      if inputs[i].FixedInput? && inputs[i].id.Some? { FoundAgain(rules, i); }
    }
  }

  lemma PassedFirst(inputs: seq<Input>, existing: seq<Rule>, now: Time, ids: nat -> Uid)
    requires Normalize(inputs, existing, now, ids).Some? && FreshIds(ids, existing) && KeepsNamed(inputs, existing)
    ensures FirstPass(inputs, Normalize(inputs, existing, now, ids).value, Reserved(inputs, existing).value)
  {
    var rules, reserved := Normalize(inputs, existing, now, ids).value, Reserved(inputs, existing).value;
    OutputIdsDistinct(inputs, existing, now, ids);
    NamedOnce(inputs, existing);
    assert Stored(existing);
    hide Normalize, Reserved, FreshIds, ById, WallFields, KeepsItsRule, Stored, Relative;
    forall i | 0 <= i < |inputs| ensures |rules| == |inputs| && OnePass(inputs[i], rules[i], reserved) {
      RuleSourced(inputs, existing, now, ids, i);
      if inputs[i].FixedInput? {
        if inputs[i].id.Some? { NamedRule(inputs[i], existing); }
      } else {
        NotFixed(inputs[i].amount, inputs[i].unit);
      }
    }
    if inputs == [] { NoRules(existing, now, ids); }
  }

  lemma NotFixed(amount: int, unit: Unit)
    ensures Relative(amount, unit).Some? ==> Relative(amount, unit).value.RelativeRule?
  {
  }

  lemma NoRules(existing: seq<Rule>, now: Time, ids: nat -> Uid)
    requires Normalize([], existing, now, ids).Some?
    ensures Normalize([], existing, now, ids) == Some([])
  {
  }

  /** Of a rule that an input names with another wall time, the ID is gone. */
  lemma NameIsGone(inputs: seq<Input>, existing: seq<Rule>, now: Time, ids: nat -> Uid, i: nat)
    requires Normalize(inputs, existing, now, ids).Some? && FreshIds(ids, existing) && i < |inputs|
    requires inputs[i].FixedInput? && inputs[i].id.Some? && !FindsNamed(inputs[i], existing)
    ensures forall r :: r in Normalize(inputs, existing, now, ids).value && r.FixedRule? ==> r.id != inputs[i].id.value
  {
    var rules, reserved := Normalize(inputs, existing, now, ids).value, Reserved(inputs, existing).value;
    NamedOnce(inputs, existing);
    hide Normalize, Reserved, FreshIds, ById, WallFields, Relative;
    RuleSourced(inputs, existing, now, ids, i);
    forall j | 0 <= j < |rules| && rules[j].FixedRule? ensures rules[j].id != inputs[i].id.value {
      RuleSourced(inputs, existing, now, ids, j);
      if inputs[j].RelativeInput? { NotFixed(inputs[j].amount, inputs[j].unit); }
    }
  }

  lemma {:induction false} NoneFound(rules: seq<Rule>, id: Uid)
    requires forall r :: r in rules && r.FixedRule? ==> r.id != id
    ensures ById(FixedOf(rules), id) == None
  {
    if rules != [] {
      assert rules == [rules[0]] + rules[1..];
      NoneFound(rules[1..], id);
      var rest := FixedOf(rules[1..]);
      if rules[0].FixedRule? {
        assert FixedOf(rules) == [rules[0]] + rest && ([rules[0]] + rest)[1..] == rest;
      } else {
        assert FixedOf(rules) == [] + rest && [] + rest == rest;
      }
    }
  }

  /**
    The same input sent again, when its rules are stored: at any later time it gives the same rules,
    with nothing resolved again and no new ID, if and only if every input that names a stored rule
    has that rule's wall time. Else the name is unknown by then, and it is refused.
   */
  lemma SameInputAgain(inputs: seq<Input>, existing: seq<Rule>, now: Time, ids: nat -> Uid, later: Time,
      laterIds: nat -> Uid)
    requires Normalize(inputs, existing, now, ids).Some? && FreshIds(ids, existing)
    ensures var rules := Normalize(inputs, existing, now, ids).value;
      Normalize(inputs, FixedOf(rules), later, laterIds)
        == if KeepsNamed(inputs, existing) then Some(rules) else None
  {
    var rules, reserved := Normalize(inputs, existing, now, ids).value, Reserved(inputs, existing).value;
    assert Stored(existing) && NoDuplicates(rules) && |inputs| <= MAX_RULES;
    if KeepsNamed(inputs, existing) {
      PassedFirst(inputs, existing, now, ids);
      FixedOfShape(rules);
      hide FirstPass, FixedOf, Stored, NoDuplicates, Unnamed;
      assert inputs[..|inputs|] == inputs && rules[..|rules|] == rules by { FirstLength(inputs, rules, reserved); }
      SecondReserved(inputs, rules, existing, reserved, |inputs|);
      SecondSteps(inputs, rules, reserved, later, laterIds, |inputs|);
    } else {
      var i :| 0 <= i < |inputs| && inputs[i].FixedInput? && inputs[i].id.Some? && !KeepsItsRule(inputs[i], existing);
      NamedRule(inputs[i], existing);
      NameIsGone(inputs, existing, now, ids, i);
      NoneFound(rules, inputs[i].id.value);
      hide Stored, NoDuplicates, FixedOf, ById, Steps;
      if Reserved(inputs, FixedOf(rules)).Some? { NamedOnce(inputs, FixedOf(rules)); }
    }
  }

  lemma FirstLength(inputs: seq<Input>, rules: seq<Rule>, reserved: set<Uid>)
    requires FirstPass(inputs, rules, reserved)
    ensures |rules| == |inputs|
  {
  }
}
