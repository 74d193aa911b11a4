/** Deterministic rules over managed positions: validation, evaluation and state. */
module Rules {
  import opened Domain
  import opened Store

  const NO_STATE := RuleState(false, None, None, None)

  // -------------------------------------------------------------- one rule, one tick

  function PremiumOf(p: Position, s: ManagementSnapshot): Option<real> {
    if s.premium.Some? then s.premium else p.facts.lastPrice
  }

  function EffectivePnl(p: Position, s: ManagementSnapshot): Option<real> {
    if s.pnl.Some? then s.pnl
    else
      match PremiumOf(p, s)
      case None => p.facts.unrealizedPnl
      case Some(premium) => Some((premium - p.facts.averagePrice) * (p.facts.quantity as real))
  }

  /** `_validate_spec`: the parameters the rule type needs, within their ranges. */
  predicate ValidSpec(t: RuleType, p: RuleParameters) {
    match t
    case TrailingSl => p.trailPct.Some? && 0.0 < p.trailPct.value < 100.0
    case ProfitLock => p.activatePnl.Some? && p.floorPnl.Some? && p.floorPnl.value < p.activatePnl.value
    case TimeExit => p.at.Some?
    case Horizon => true
    case _ => p.operator.Some? && p.value.Some?
  }

  function Evaluated(r: ManagementRule, triggered: bool, reason: Reason, at: Time, value: Option<real>): Evaluation {
    Evaluation(r.ruleId, r.positionId, r.ruleType, triggered, reason, at, value)
  }

  function Stop(long: bool, watermark: real, pct: real): real {
    if long then watermark * (1.0 - pct / 100.0) else watermark * (1.0 + pct / 100.0)
  }

  predicate Activates(long: bool, activation: Option<real>, premium: real) {
    activation.None? || (if long then premium >= activation.value else premium <= activation.value)
  }

  predicate Improves(long: bool, premium: real, watermark: real) {
    if long then premium > watermark else premium < watermark
  }

  predicate Past(long: bool, premium: real, stop: real) {
    if long then premium <= stop else premium >= stop
  }

  function TrailingTick(r: ManagementRule, long: bool, premium: Option<real>, at: Time): (Evaluation, ManagementRule)
    requires ValidSpec(TrailingSl, r.parameters)
  {
    if premium.None? then (Evaluated(r, false, Unavailable, at, None), r)
    else
      var p := premium.value;
      if !r.state.armed && !Activates(long, r.parameters.activateAtPremium, p) then
        (Evaluated(r, false, Waiting, at, None), r)
      else
        var start := if !r.state.armed || r.state.watermark.None? then p else r.state.watermark.value;
        var watermark := if Improves(long, p, start) then p else start;
        var stop := Stop(long, watermark, r.parameters.trailPct.value);
        var hit := Past(long, p, stop);
        (Evaluated(r, hit, if hit then TrailingHit(p, stop) else TrailingActive(p, stop), at, Some(stop)),
         r.(status := if hit then RuleTriggered else RuleArmed,
            state := r.state.(armed := true, watermark := Some(watermark), effectiveStop := Some(stop)),
            updatedAt := at))
  }

  function ProfitLockTick(r: ManagementRule, pnl: Option<real>, at: Time): (Evaluation, ManagementRule)
    requires ValidSpec(ProfitLock, r.parameters)
  {
    if pnl.None? then (Evaluated(r, false, Unavailable, at, None), r)
    else
      var armsNow := !r.state.armed && pnl.value >= r.parameters.activatePnl.value;
      var floor := r.parameters.floorPnl.value;
      if !r.state.armed && !armsNow then (Evaluated(r, false, Waiting, at, None), r)
      else
        var hit := pnl.value <= floor;
        (Evaluated(r, hit, if hit then FloorReached(pnl.value, floor) else FloorAhead(pnl.value, floor), at, Some(floor)),
         r.(status := if hit then RuleTriggered else RuleArmed,
            state := r.state.(armed := true,
                              activatedPnl := if armsNow then pnl else r.state.activatedPnl),
            updatedAt := at))
  }

  /** Stateless rules: a trigger is the only change. */
  function SimpleTick(r: ManagementRule, hit: bool, reason: Reason, at: Time, value: Option<real>): (Evaluation, ManagementRule) {
    (Evaluated(r, hit, if hit then reason else Waiting, at, value),
     if hit then r.(status := RuleTriggered, updatedAt := at) else r)
  }

  function MetricValue(p: Position, t: RuleType, s: ManagementSnapshot): (Option<real>, Metric) {
    match t
    case SpotCondition => (s.underlyingPrice, UnderlyingMetric)
    case UnderlyingInvalidation => (s.underlyingPrice, UnderlyingMetric)
    case PnlCondition => (EffectivePnl(p, s), PnlMetric)
    case _ => (PremiumOf(p, s), PremiumMetric)
  }

  function EvaluateRule(p: Position, profile: ManagementProfile, r: ManagementRule, s: ManagementSnapshot)
    : (Evaluation, ManagementRule)
    requires ValidSpec(r.ruleType, r.parameters)
  {
    var at := s.observedAt;
    if r.Done() then (Evaluated(r, false, Waiting, at, None), r)
    else
      match r.ruleType
      case TrailingSl => TrailingTick(r, p.facts.quantity > 0, PremiumOf(p, s), at)
      case ProfitLock => ProfitLockTick(r, EffectivePnl(p, s), at)
      case Horizon => SimpleTick(r, at >= profile.horizonAt, HorizonReached(profile.horizonAt), at, None)
      case TimeExit => SimpleTick(r, at >= r.parameters.at.value, TimeReached(r.parameters.at.value), at, None)
      case _ =>
        var (value, metric) := MetricValue(p, r.ruleType, s);
        var operator, threshold := r.parameters.operator.value, r.parameters.value.value;
        if value.None? then (Evaluated(r, false, Unavailable, at, None), r)
        else SimpleTick(r, Compare(value.value, operator, threshold),
                        Satisfied(metric, value.value, operator, threshold), at, Some(threshold))
  }

  /** What one evaluation can do to a rule: a live rule stays live or triggers, and its identity,
      type and parameters never change; a rule that is done is not touched. */
  lemma EvaluationTriggersOnce(p: Position, profile: ManagementProfile, r: ManagementRule, s: ManagementSnapshot)
    requires ValidSpec(r.ruleType, r.parameters)
    ensures var (e, r') := EvaluateRule(p, profile, r, s);
      && e.ruleId == r.ruleId && e.positionId == r.positionId && e.ruleType == r.ruleType
      && r' == r.(status := r'.status, state := r'.state, updatedAt := r'.updatedAt)
      && (r.Done() ==> r' == r && !e.triggered)
      && (!r.Done() ==> (e.triggered <==> r'.status == RuleTriggered) && r'.status != RuleCancelled)
      && (e.triggered ==> !e.reason.Text?)
  {
  }

  // ------------------------------------------------------------------ the engine

  predicate RulesOk(rules: map<Id, ManagementRule>) {
    forall id | id in rules :: rules[id].ruleId == id && ValidSpec(rules[id].ruleType, rules[id].parameters)
  }

  /** An open MANAGED position with a management profile. */
  predicate Manageable(positions: map<Id, Position>, profiles: map<Id, ManagementProfile>, id: Id) {
    id in positions && positions[id].IsManaged() && positions[id].IsOpen() && id in profiles
  }

  function ActiveRules(rules: map<Id, ManagementRule>, positionId: Id): set<Id> {
    set id | id in rules && rules[id].positionId == positionId && !rules[id].Done()
  }

  /** Every live rule of the position after this snapshot; all other rules as they were. */
  function EvaluatedRules(rules: map<Id, ManagementRule>, p: Position, profile: ManagementProfile,
                          s: ManagementSnapshot): map<Id, ManagementRule>
    requires RulesOk(rules)
  {
    map id | id in rules ::
      if id in ActiveRules(rules, p.positionId) then EvaluateRule(p, profile, rules[id], s).1 else rules[id]
  }

  ghost predicate EnumeratesIds(order: seq<Id>, ids: set<Id>) {
    && (forall id :: id in order <==> id in ids)
    && (forall i, j | 0 <= i < j < |order| :: order[i] != order[j])
  }

  /** The evaluations of the position's live rules, in the order they were listed. */
  ghost predicate EvaluationsOf(es: seq<Evaluation>, order: seq<Id>, rules: map<Id, ManagementRule>, p: Position,
                                profile: ManagementProfile, s: ManagementSnapshot)
    requires RulesOk(rules)
  {
    && EnumeratesIds(order, ActiveRules(rules, p.positionId))
    && |es| == |order|
    && (forall i | 0 <= i < |order| :: order[i] in rules && es[i] == EvaluateRule(p, profile, rules[order[i]], s).0)
  }

  function NewRule(id: Id, positionId: Id, spec: RuleSpec, at: Time): ManagementRule {
    ManagementRule(id, positionId, spec.ruleType, spec.parameters, RuleActive, NO_STATE, at, at,
                   spec.createdBy, spec.reason, spec.policyName)
  }

  function Named(spec: RuleSpec, policy: string): RuleSpec { spec.(policyName := Some(policy)) }

  /** The first n rules of a policy stored, one save each. */
  function Installed(rules: map<Id, ManagementRule>, positionId: Id, policy: string, specs: seq<RuleSpec>, ids: seq<Id>,
                     at: Time, n: nat): map<Id, ManagementRule>
    requires n <= |specs| <= |ids|
  {
    if n == 0 then rules
    else Installed(rules, positionId, policy, specs, ids, at, n - 1)
         [ids[n - 1] := NewRule(ids[n - 1], positionId, Named(specs[n - 1], policy), at)]
  }

  predicate UnusedIds(ids: seq<Id>, rules: map<Id, ManagementRule>) {
    && (forall i | 0 <= i < |ids| :: ids[i] !in rules)
    && (forall i, j | 0 <= i < j < |ids| :: ids[i] != ids[j])
  }

  /** An installed policy is each of its rules, under its own id and name, beside what was there. */
  lemma {:induction false} PolicyIsItsRules(rules: map<Id, ManagementRule>, positionId: Id, policy: string,
                                            specs: seq<RuleSpec>, ids: seq<Id>, at: Time, n: nat)
    requires n <= |specs| <= |ids| && UnusedIds(ids, rules)
    ensures var after := Installed(rules, positionId, policy, specs, ids, at, n);
      && (forall id: Id :: id in after <==> id in rules || id in ids[..n])
      && (forall id | id in rules :: after[id] == rules[id])
      && (forall i | 0 <= i < n :: after[ids[i]] == NewRule(ids[i], positionId, Named(specs[i], policy), at))
  {
    if n > 0 {
      PolicyIsItsRules(rules, positionId, policy, specs, ids, at, n - 1);
      OneMoreRule(rules, Installed(rules, positionId, policy, specs, ids, at, n - 1), positionId, policy, specs, ids, at, n);
    }
  }

  lemma OneMoreRule(rules: map<Id, ManagementRule>, before: map<Id, ManagementRule>, positionId: Id, policy: string,
                    specs: seq<RuleSpec>, ids: seq<Id>, at: Time, n: nat)
    requires 0 < n <= |specs| <= |ids| && UnusedIds(ids, rules)
    requires forall id: Id :: id in before <==> id in rules || id in ids[..n - 1]
    requires forall id | id in rules :: before[id] == rules[id]
    requires forall i | 0 <= i < n - 1 :: before[ids[i]] == NewRule(ids[i], positionId, Named(specs[i], policy), at)
    ensures var after := before[ids[n - 1] := NewRule(ids[n - 1], positionId, Named(specs[n - 1], policy), at)];
      && (forall id: Id :: id in after <==> id in rules || id in ids[..n])
      && (forall id | id in rules :: after[id] == rules[id])
      && (forall i | 0 <= i < n :: after[ids[i]] == NewRule(ids[i], positionId, Named(specs[i], policy), at))
  {
    assert ids[..n] == ids[..n - 1] + [ids[n - 1]];
    forall i | 0 <= i < n - 1 ensures ids[i] in before && ids[i] != ids[n - 1] {
      assert ids[i] in ids[..n - 1] by { assert ids[..n - 1][i] == ids[i]; }
    }
  }

  class ManagementRuleEngine {
    const repository: Repository

    constructor (repository: Repository)
      ensures this.repository == repository
    {
      this.repository := repository;
    }

    method AddRule(positionId: Id, spec: RuleSpec, id: Id, at: Time) returns (r: Outcome<ManagementRule>)
      requires id !in repository.managementRules
      modifies repository`managementRules
      ensures r.Returned? <==> Manageable(repository.positions, repository.managementProfiles, positionId)
                               && ValidSpec(spec.ruleType, spec.parameters)
      ensures repository.managementRules ==
        if r.Returned? then old(repository.managementRules)[id := NewRule(id, positionId, spec, at)]
        else old(repository.managementRules)
    {
      if !Manageable(repository.positions, repository.managementProfiles, positionId) { return Raised; }
      if !ValidSpec(spec.ruleType, spec.parameters) { return Raised; }
      var rule := NewRule(id, positionId, spec, at);
      repository.managementRules := repository.managementRules[id := rule];
      return Returned(rule);
    }

    /** A named batch: the whole batch is validated before any rule is stored, so it is all or nothing. */
    method InstallPolicy(positionId: Id, policy: string, specs: seq<RuleSpec>, ids: seq<Id>, at: Time) returns (r: Outcome<()>)
      requires |ids| == |specs| && UnusedIds(ids, repository.managementRules)
      modifies repository`managementRules
      ensures r.Returned? <==>
        && !Blank(policy) && Manageable(repository.positions, repository.managementProfiles, positionId)
        && specs != [] && (forall spec | spec in specs :: ValidSpec(spec.ruleType, spec.parameters))
      ensures repository.managementRules ==
        if r.Returned? then Installed(old(repository.managementRules), positionId, policy, specs, ids, at, |specs|)
        else old(repository.managementRules)
    {
      if Blank(policy) { return Raised; }
      if !Manageable(repository.positions, repository.managementProfiles, positionId) { return Raised; }
      if specs == [] { return Raised; }
      for i := 0 to |specs|
        invariant forall j | 0 <= j < i :: ValidSpec(specs[j].ruleType, specs[j].parameters)
      {
        if !ValidSpec(specs[i].ruleType, specs[i].parameters) {
          assert specs[i] in specs;
          return Raised;
        }
      }
      ghost var before := repository.managementRules;
      for i := 0 to |specs|
        invariant repository.managementRules == Installed(before, positionId, policy, specs, ids, at, i)
      {
        PolicyIsItsRules(before, positionId, policy, specs, ids, at, i);
        assert specs[i] in specs && ids[i] !in ids[..i];
        var added := AddRule(positionId, Named(specs[i], policy), ids[i], at);
      }
      return Returned(());
    }

    /** Any rule of an open managed position may be cancelled, a triggered one too. */
    method CancelRule(id: Id, at: Time, cancelledBy: string, reason: string) returns (r: Outcome<ManagementRule>)
      modifies repository`managementRules
      ensures r.Returned? <==>
        && id in old(repository.managementRules)
        && Manageable(repository.positions, repository.managementProfiles,
                      old(repository.managementRules)[id].positionId)
        && !Blank(cancelledBy) && !Blank(reason)
      ensures repository.managementRules ==
        if r.Returned? && old(repository.managementRules)[id].status != RuleCancelled
        then old(repository.managementRules)
             [id := old(repository.managementRules)[id].(status := RuleCancelled, updatedAt := at)]
        else old(repository.managementRules)
    {
      if id !in repository.managementRules { return Raised; }
      var rule := repository.managementRules[id];
      if !Manageable(repository.positions, repository.managementProfiles, rule.positionId) { return Raised; }
      if Blank(cancelledBy) || Blank(reason) { return Raised; }
      if rule.status == RuleCancelled { return Returned(rule); }
      var updated := rule.(status := RuleCancelled, updatedAt := at);
      repository.managementRules := repository.managementRules[id := updated];
      return Returned(updated);
    }

    /** Evaluates every live rule of one position and saves each rule that changed. */
    method Evaluate(positionId: Id, snapshot: ManagementSnapshot)
      returns (r: Outcome<seq<Evaluation>>, ghost order: seq<Id>)
      requires RulesOk(repository.managementRules)
      requires positionId in repository.positions ==> repository.positions[positionId].positionId == positionId
      modifies repository`managementRules
      ensures r.Returned? <==> Manageable(repository.positions, repository.managementProfiles, positionId)
      ensures r.Raised? ==> repository.managementRules == old(repository.managementRules)
      ensures r.Returned? ==>
        var p, profile := repository.positions[positionId], repository.managementProfiles[positionId];
        && repository.managementRules == EvaluatedRules(old(repository.managementRules), p, profile, snapshot)
        && EvaluationsOf(r.value, order, old(repository.managementRules), p, profile, snapshot)
    {
      order := [];
      if !Manageable(repository.positions, repository.managementProfiles, positionId) { return Raised, []; }
      var p, profile := repository.positions[positionId], repository.managementProfiles[positionId];
      var rules := repository.managementRules;
      var listed := ListIds(ActiveRules(rules, positionId));
      var evaluations := [];
      assert forall id | id in listed :: id in rules;
      for i := 0 to |listed|
        invariant repository.managementRules == RulesAfter(rules, listed, p, profile, snapshot, i)
        invariant |evaluations| == i
        invariant forall j | 0 <= j < i :: listed[j] in rules
                    && evaluations[j] == EvaluateRule(p, profile, rules[listed[j]], snapshot).0
      {
        var rule := rules[listed[i]];
        var (evaluation, updated) := EvaluateRule(p, profile, rule, snapshot);
        evaluations := evaluations + [evaluation];
        EvaluationTriggersOnce(p, profile, rule, snapshot);
        if updated != rule {
          repository.managementRules := repository.managementRules[updated.ruleId := updated];
        } else {
          UnchangedRule(rules, listed, p, profile, snapshot, i);
        }
      }
      AllRulesAfter(rules, listed, p, profile, snapshot);
      return Returned(evaluations), listed;
    }

    /** The repository's listing, in some order. */
    static method ListIds(ids: set<Id>) returns (order: seq<Id>)
      ensures EnumeratesIds(order, ids)
    {
      order := [];
      var rest := ids;
      while rest != {}
        invariant rest <= ids
        invariant EnumeratesIds(order, ids - rest)
        decreases |rest|
      {
        var id :| id in rest;
        assert ids - (rest - {id}) == ids - rest + {id};
        rest, order := rest - {id}, order + [id];
      }
      assert ids - rest == ids;
    }
  }

  // ------------------------------------------------------- the loop, as a function

  function RulesAfter(rules: map<Id, ManagementRule>, order: seq<Id>, p: Position, profile: ManagementProfile,
                      s: ManagementSnapshot, n: nat): map<Id, ManagementRule>
    requires RulesOk(rules) && n <= |order| && (forall id | id in order :: id in rules)
  {
    if n == 0 then rules
    else RulesAfter(rules, order, p, profile, s, n - 1)[order[n - 1] := EvaluateRule(p, profile, rules[order[n - 1]], s).1]
  }

  lemma {:induction false} RulesAfterAt(rules: map<Id, ManagementRule>, order: seq<Id>, p: Position,
                                        profile: ManagementProfile, s: ManagementSnapshot, n: nat, id: Id)
    requires RulesOk(rules) && n <= |order| && (forall i | i in order :: i in rules)
    ensures id in RulesAfter(rules, order, p, profile, s, n) <==> id in rules
    ensures id in rules ==>
      RulesAfter(rules, order, p, profile, s, n)[id] ==
      if id in order[..n] then EvaluateRule(p, profile, rules[id], s).1 else rules[id]
  {
    if n > 0 {
      assert order[..n] == order[..n - 1] + [order[n - 1]];
      assert order[n - 1] in order;
      RulesAfterAt(rules, order, p, profile, s, n - 1, id);
    }
  }

  lemma UnchangedRule(rules: map<Id, ManagementRule>, order: seq<Id>, p: Position, profile: ManagementProfile,
                      s: ManagementSnapshot, n: nat)
    requires RulesOk(rules) && n < |order| && (forall i | i in order :: i in rules)
    requires EvaluateRule(p, profile, rules[order[n]], s).1 == rules[order[n]]
    ensures RulesAfter(rules, order, p, profile, s, n + 1) == RulesAfter(rules, order, p, profile, s, n)
  {
    RulesAfterAt(rules, order, p, profile, s, n, order[n]);
  }

  lemma AllRulesAfter(rules: map<Id, ManagementRule>, order: seq<Id>, p: Position, profile: ManagementProfile,
                      s: ManagementSnapshot)
    requires RulesOk(rules) && EnumeratesIds(order, ActiveRules(rules, p.positionId))
    ensures RulesAfter(rules, order, p, profile, s, |order|) == EvaluatedRules(rules, p, profile, s)
  {
    assert order[..|order|] == order;
    forall id
      ensures id in RulesAfter(rules, order, p, profile, s, |order|) <==> id in rules
      ensures id in rules ==>
        RulesAfter(rules, order, p, profile, s, |order|)[id] == EvaluatedRules(rules, p, profile, s)[id]
    {
      RulesAfterAt(rules, order, p, profile, s, |order|, id);
    }
  }
}
