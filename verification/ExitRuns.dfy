/** Whole runs of the position side of Core: broker truth, adoption, rules, exit proposals and
    their reviews.  Each Core call is one step, and each that writes more than once has a step
    for being cut short between its writes. */
module ExitRuns {
  import opened Domain
  import opened Positions
  import opened Rules
  import opened ExitMonitor
  import opened ExitReview

  /** The position tables, and history: the rules as they trigger; those whose trigger a crash kept
      from its proposal; proposals a crash left active on a closed position until a whole reconcile;
      positions a crash left MANAGED without a profile. */
  datatype Desk = Desk(
    positions: map<Id, Position>,
    profiles: map<Id, ManagementProfile>,
    rules: map<Id, ManagementRule>,
    proposals: map<Id, ExitProposal>,
    triggered: seq<Id>,
    lost: set<Id>,
    orphans: set<Id>,
    unprofiled: set<Id>)

  /** One evaluation of a position's rules, listed in some order. */
  datatype Tick = Tick(positionId: Id, snapshot: ManagementSnapshot, order: seq<Id>, newId: Id)

  datatype Step =
    | BrokerMoved(broker: BrokerName, positions: map<Id, Position>, at: Time)
    | BrokerMoveCut(broker: BrokerName, positions: map<Id, Position>, looked: set<Id>, at: Time)
    | Adopt(profile: ManagementProfile)
    | AdoptCut(profile: ManagementProfile)
    | RuleAdded(id: Id, positionId: Id, spec: RuleSpec, at: Time)
    | RuleCancelled(id: Id, at: Time)
    | Ticked(tick: Tick)
    | TickCut(tick: Tick, saved: nat, consumed: nat)
    | ExitProposed(positionId: Id, request: ExitOrder, newId: Id, at: Time)
    | SupersedeCut(positionId: Id, some: set<Id>, at: Time)
    | Converted(profile: ManagementProfile)
    | AgentApproved(proposalId: Id, at: Time)
    | UserResolved(proposalId: Id, choice: Verdict, at: Time)

  // ----------------------------------------------------------------- the steps

  /** What a reconcile of one broker, whole or cut short, can do to the stored positions: identity
      and management stay, new ones are UNMANAGED, other brokers' positions are not touched. */
  predicate BrokerMoves(broker: BrokerName, before: map<Id, Position>, after: map<Id, Position>) {
    && Coherent(after) && OthersKept(broker, before, after)
    && (forall id | id in before ::
          id in after && after[id].management == before[id].management && after[id].broker == before[id].broker)
    && (forall id | id in after && id !in before :: after[id].management == Unmanaged)
  }

  /** Those of the exits `looked` at that are on closed positions of the broker are satisfied. */
  function Satisfied(proposals: map<Id, ExitProposal>, positions: map<Id, Position>, looked: set<Id>, broker: BrokerName,
                     at: Time): map<Id, ExitProposal>
  {
    map id | id in proposals ::
      if id in looked && OnClosed(proposals[id], positions, broker)
      then proposals[id].(status := SatisfiedByBroker, updatedAt := at) else proposals[id]
  }

  predicate OnClosed(p: ExitProposal, positions: map<Id, Position>, broker: BrokerName) {
    && p.Active() && p.positionId in positions
    && positions[p.positionId].broker == broker && !positions[p.positionId].IsOpen()
  }

  /** After a whole reconcile every exit was looked at. */
  function ClosedSatisfied(proposals: map<Id, ExitProposal>, positions: map<Id, Position>, broker: BrokerName, at: Time)
    : map<Id, ExitProposal>
  {
    Satisfied(proposals, positions, proposals.Keys, broker, at)
  }

  /** A whole reconcile settles what was left behind at its broker. */
  function StillOrphaned(orphans: set<Id>, proposals: map<Id, ExitProposal>, positions: map<Id, Position>,
                         broker: BrokerName): set<Id>
  {
    set id | id in orphans && id in proposals && proposals[id].positionId in positions
             && positions[proposals[id].positionId].broker != broker
  }

  predicate LeftBehind(proposals: map<Id, ExitProposal>, positions: map<Id, Position>, id: Id) {
    id in proposals && proposals[id].Active() && !OpenManaged(positions, proposals[id].positionId)
  }

  function EvaluationsIn(d: Desk, t: Tick): seq<Evaluation>
    requires RulesOk(d.rules) && t.positionId in d.positions && t.positionId in d.profiles
    requires forall id | id in t.order :: id in d.rules
  {
    seq(|t.order|, i requires 0 <= i < |t.order| =>
      EvaluateRule(d.positions[t.positionId], d.profiles[t.positionId], d.rules[t.order[i]], t.snapshot).0)
  }

  function TriggeredIds(es: seq<Evaluation>): seq<Id> {
    if es == [] then []
    else TriggeredIds(es[..|es| - 1]) + if es[|es| - 1].triggered then [es[|es| - 1].ruleId] else []
  }

  ghost predicate CanEvaluate(d: Desk, t: Tick) {
    && RulesOk(d.rules)
    && Manageable(d.positions, d.profiles, t.positionId)
    && d.positions[t.positionId].positionId == t.positionId
    && EnumeratesIds(t.order, ActiveRules(d.rules, t.positionId))
    && FreshIfNeeded(d.proposals, t.positionId, t.newId)
  }

  /** Rules are saved one by one; only when all are, triggers become proposals one by one. */
  predicate TickFits(t: Tick, saved: nat, consumed: nat) {
    saved <= |t.order| && consumed <= |t.order| && (consumed > 0 ==> saved == |t.order|)
  }

  /** `evaluate_position_management` once the first `saved` rules were saved and the first
      `consumed` evaluations were turned into proposals. */
  ghost function AfterTick(d: Desk, t: Tick, saved: nat, consumed: nat): Desk
    requires CanEvaluate(d, t) && TickFits(t, saved, consumed)
  {
    assert forall id | id in t.order :: id in d.rules;
    var es := EvaluationsIn(d, t);
    var done, proposed := TriggeredIds(es[..saved]), TriggeredIds(es[..consumed]);
    d.(rules := RulesAfter(d.rules, t.order, d.positions[t.positionId], d.profiles[t.positionId], t.snapshot, saved),
       proposals := Consumed(d.proposals, t.positionId, es, t.newId, t.snapshot.observedAt, consumed),
       triggered := d.triggered + done,
       lost := d.lost + (set id | id in done && id !in proposed))
  }

  ghost function Next(d: Desk, step: Step): Desk {
    match step
    case BrokerMoved(broker, positions, at) =>
      if BrokerMoves(broker, d.positions, positions)
      then d.(positions := positions, proposals := ClosedSatisfied(d.proposals, positions, broker, at),
              orphans := StillOrphaned(d.orphans, d.proposals, positions, broker)) else d
    case BrokerMoveCut(broker, positions, looked, at) =>
      if BrokerMoves(broker, d.positions, positions) then
        var proposals := Satisfied(d.proposals, positions, looked, broker, at);
        d.(positions := positions, proposals := proposals,
           orphans := d.orphans + set id | id in proposals && LeftBehind(proposals, positions, id))
      else d
    case Adopt(profile) =>
      if Adoptable(d.positions, profile)
      then d.(positions := WithAdopted(d.positions, profile), profiles := d.profiles[profile.positionId := profile]) else d
    case AdoptCut(profile) =>
      if Adoptable(d.positions, profile)
      then d.(positions := WithAdopted(d.positions, profile), unprofiled := d.unprofiled + {profile.positionId}) else d
    case RuleAdded(id, positionId, spec, at) =>
      if id !in d.rules && Manageable(d.positions, d.profiles, positionId) && ValidSpec(spec.ruleType, spec.parameters)
      then d.(rules := d.rules[id := NewRule(id, positionId, spec, at)]) else d
    case RuleCancelled(id, at) =>
      if id in d.rules && Manageable(d.positions, d.profiles, d.rules[id].positionId)
         && d.rules[id].status != RuleStatus.RuleCancelled
      then d.(rules := d.rules[id := d.rules[id].(status := RuleStatus.RuleCancelled, updatedAt := at)]) else d
    case Ticked(t) => if CanEvaluate(d, t) then AfterTick(d, t, |t.order|, |t.order|) else d
    case TickCut(t, saved, consumed) =>
      if CanEvaluate(d, t) && TickFits(t, saved, consumed) then AfterTick(d, t, saved, consumed) else d
    case ExitProposed(positionId, order, newId, at) =>
      if Admissible(d.positions, positionId, order) && order.ruleId.None? && FreshIfNeeded(d.proposals, positionId, newId)
      then d.(proposals := Proposed(d.proposals, positionId, order, newId, at).0) else d
    case SupersedeCut(positionId, some, at) =>
      if OpenManaged(d.positions, positionId) && FullOf(d.proposals, positionId).None?
      then d.(proposals := SomeSuperseded(d.proposals, positionId, some, at)) else d
    case Converted(profile) =>
      if OpenManaged(d.positions, profile.positionId) && profile.positionId in d.profiles
      then d.(profiles := d.profiles[profile.positionId := profile]) else d
    case AgentApproved(id, at) =>
      if Reviewable(d.proposals, d.positions, id)
      then d.(proposals := d.proposals[id := d.proposals[id].(status := ExitApproved, updatedAt := at)]) else d
    case UserResolved(id, choice, at) =>
      if id in d.proposals
      then d.(proposals := d.proposals[id := Resolved(d.proposals[id], choice, at)]) else d
  }

  predicate Adoptable(positions: map<Id, Position>, profile: ManagementProfile) {
    var id := profile.positionId;
    id in positions && !positions[id].IsManaged() && positions[id].IsOpen() && profile.Valid()
  }

  function WithAdopted(positions: map<Id, Position>, profile: ManagementProfile): map<Id, Position>
    requires profile.positionId in positions
  {
    positions[profile.positionId := Adopted(positions[profile.positionId], profile.activatedAt)]
  }

  /** A full exit died after superseding only `some` of the partial ones, before it was stored. */
  function SomeSuperseded(proposals: map<Id, ExitProposal>, positionId: Id, some: set<Id>, at: Time): map<Id, ExitProposal> {
    map id | id in proposals ::
      if id in some && ActiveOn(proposals, positionId, id) then Superseded(proposals[id], at) else proposals[id]
  }

  ghost function Run(d: Desk, steps: seq<Step>): Desk
    decreases |steps|
  {
    if steps == [] then d else Run(Next(d, steps[0]), steps[1..])
  }

  const EMPTY_DESK := Desk(map[], map[], map[], map[], [], {}, {}, {})

  // ------------------------------------------------------------------ invariant

  predicate ManagedHere(positions: map<Id, Position>, id: Id) { id in positions && positions[id].IsManaged() }

  /** A position has a profile exactly when it is MANAGED and its adoption was not cut short. */
  predicate ProfilesExact(positions: map<Id, Position>, profiles: map<Id, ManagementProfile>, unprofiled: set<Id>) {
    && (forall id | id in profiles :: ManagedHere(positions, id) && id !in unprofiled)
    && (forall id | id in positions && positions[id].IsManaged() :: id in profiles || id in unprofiled)
    && (forall id | id in unprofiled :: ManagedHere(positions, id))
  }

  predicate RulesBounded(rules: map<Id, ManagementRule>, profiles: map<Id, ManagementProfile>) {
    forall id | id in rules :: rules[id].positionId in profiles
  }

  predicate ExitsBounded(proposals: map<Id, ExitProposal>, positions: map<Id, Position>) {
    forall id | id in proposals :: ManagedHere(positions, proposals[id].positionId)
  }

  predicate Covered(proposals: map<Id, ExitProposal>, ruleId: Id) {
    exists p :: p in proposals && ruleId in proposals[p].triggerRuleIds
  }

  predicate Once(ids: seq<Id>) { forall i, j | 0 <= i < j < |ids| :: ids[i] != ids[j] }

  /** Every trigger is remembered once, its rule is done for good, and a proposal names it unless a
      crash lost it; proposals name nothing else. */
  ghost predicate TriggersKept(triggered: seq<Id>, lost: set<Id>, rules: map<Id, ManagementRule>,
                               proposals: map<Id, ExitProposal>)
  {
    && Once(triggered)
    && (forall id | id in triggered :: id in rules && rules[id].Done())
    && (forall id: Id :: Covered(proposals, id) <==> id in triggered && id !in lost)
    && (forall id | id in rules && rules[id].status == RuleTriggered :: id in triggered)
    && (forall id | id in lost :: id in triggered)
  }

  /** Every active proposal's position is open, unless a crash left the proposal behind. */
  predicate ActiveSound(proposals: map<Id, ExitProposal>, positions: map<Id, Position>, orphans: set<Id>) {
    forall id | id in proposals && proposals[id].Active() && id !in orphans ::
      OpenManaged(positions, proposals[id].positionId)
  }

  predicate Keyed(proposals: map<Id, ExitProposal>) {
    forall id | id in proposals :: proposals[id].proposalId == id
  }

  /** What holds in every run. */
  ghost predicate Inv(d: Desk) {
    && Coherent(d.positions)
    && RulesOk(d.rules)
    && ProfilesExact(d.positions, d.profiles, d.unprofiled)
    && RulesBounded(d.rules, d.profiles)
    && Keyed(d.proposals) && ExitsBounded(d.proposals, d.positions)
    && TriggersKept(d.triggered, d.lost, d.rules, d.proposals)
  }

  /** What holds besides while every User resolution is safe. */
  predicate PathsOk(d: Desk) { OnePath(d.proposals) && ActiveSound(d.proposals, d.positions, d.orphans) }

  predicate PositionsEvolve(before: map<Id, Position>, after: map<Id, Position>) {
    forall id | id in before :: id in after && (before[id].IsManaged() ==> after[id].IsManaged())
  }

  predicate RulesEvolve(before: map<Id, ManagementRule>, after: map<Id, ManagementRule>) {
    forall id | id in before :: id in after && after[id].positionId == before[id].positionId
                                && (before[id].Done() ==> after[id].Done())
  }

  predicate ExitsEvolve(before: map<Id, ExitProposal>, after: map<Id, ExitProposal>) {
    forall id | id in before ::
      && id in after && after[id].positionId == before[id].positionId
      && before[id].triggerRuleIds <= after[id].triggerRuleIds && before[id].reasons <= after[id].reasons
  }

  /** What any step keeps, of any desk: managed positions stay managed, rules that are done stay
      done, and no proposal, trigger or reason is ever dropped. */
  predicate Evolves(d: Desk, d': Desk) {
    && PositionsEvolve(d.positions, d'.positions)
    && d.profiles.Keys <= d'.profiles.Keys
    && RulesEvolve(d.rules, d'.rules)
    && ExitsEvolve(d.proposals, d'.proposals)
    && d.triggered <= d'.triggered
    && d.lost <= d'.lost && d.unprofiled <= d'.unprofiled
  }

  lemma EvolvesTransitive(a: Desk, b: Desk, c: Desk)
    requires Evolves(a, b) && Evolves(b, c)
    ensures Evolves(a, c)
  {
  }

  // ------------------------------------------------- what proposals and batches name

  /** The new proposals name only rules that were named before. */
  ghost predicate NamesNoMore(before: map<Id, ExitProposal>, after: map<Id, ExitProposal>) {
    forall id: Id | Covered(after, id) :: Covered(before, id)
  }

  lemma SameNames(before: map<Id, ExitProposal>, after: map<Id, ExitProposal>)
    requires forall i | i in after :: i in before && after[i].triggerRuleIds == before[i].triggerRuleIds
    ensures NamesNoMore(before, after)
  {
    forall id: Id | Covered(after, id) ensures Covered(before, id) {
      var p :| p in after && id in after[p].triggerRuleIds;
      assert id in before[p].triggerRuleIds;
    }
  }

  lemma StillCovered(before: map<Id, ExitProposal>, after: map<Id, ExitProposal>, ruleId: Id)
    requires Covered(before, ruleId) && ExitsEvolve(before, after)
    ensures Covered(after, ruleId)
  {
    var p :| p in before && ruleId in before[p].triggerRuleIds;
    assert ruleId in after[p].triggerRuleIds;
  }

  /** While rules stay as they are and proposals only grow and name no new rule, triggers stay kept. */
  lemma StillTriggersKept(triggered: seq<Id>, lost: set<Id>, rules: map<Id, ManagementRule>,
                          before: map<Id, ExitProposal>, after: map<Id, ExitProposal>)
    requires TriggersKept(triggered, lost, rules, before) && ExitsEvolve(before, after) && NamesNoMore(before, after)
    ensures TriggersKept(triggered, lost, rules, after)
  {
    forall id: Id ensures Covered(after, id) <==> id in triggered && id !in lost {
      if Covered(before, id) { StillCovered(before, after, id); }
    }
  }

  /** A proposal names what was named before and the one rule it was made for, if any. */
  lemma ProposalNames(proposals: map<Id, ExitProposal>, positionId: Id, order: ExitOrder, newId: Id, at: Time)
    requires FreshIfNeeded(proposals, positionId, newId)
    ensures forall id: Id | Covered(Proposed(proposals, positionId, order, newId, at).0, id) ::
              Covered(proposals, id) || order.ruleId == Some(id)
  {
    var after := Proposed(proposals, positionId, order, newId, at).0;
    forall id: Id | Covered(after, id) ensures Covered(proposals, id) || order.ruleId == Some(id) {
      var p :| p in after && id in after[p].triggerRuleIds;
      if p in proposals && id in proposals[p].triggerRuleIds { assert Covered(proposals, id); }
    }
  }

  /** A batch changes only its own position's proposals, and there it only adds. */
  predicate BatchGrows(before: map<Id, ExitProposal>, after: map<Id, ExitProposal>, positionId: Id) {
    && ExitsEvolve(before, after)
    && (forall i | i in before && after[i].Active() :: before[i].Active())
    && (forall i | i in after && i !in before :: after[i].positionId == positionId)
    && (forall i | i in before && before[i].positionId != positionId :: after[i] == before[i])
    && (Keyed(before) ==> Keyed(after))
  }

  lemma ProposalGrows(proposals: map<Id, ExitProposal>, positionId: Id, order: ExitOrder, newId: Id, at: Time)
    requires FreshIfNeeded(proposals, positionId, newId)
    ensures BatchGrows(proposals, Proposed(proposals, positionId, order, newId, at).0, positionId)
  {
    forall i | i in proposals
      ensures var after := Proposed(proposals, positionId, order, newId, at).0;
        && i in after && after[i].positionId == proposals[i].positionId
        && proposals[i].triggerRuleIds <= after[i].triggerRuleIds && proposals[i].reasons <= after[i].reasons
        && (after[i].Active() ==> proposals[i].Active())
    {
      ProposedNeverDemotes(proposals, positionId, order, newId, at, i);
    }
  }

  lemma BatchGrowsTransitive(a: map<Id, ExitProposal>, b: map<Id, ExitProposal>, c: map<Id, ExitProposal>, positionId: Id)
    requires BatchGrows(a, b, positionId) && BatchGrows(b, c, positionId)
    ensures BatchGrows(a, c, positionId)
  {
  }

  lemma GrowsOneMore(a: map<Id, ExitProposal>, b: map<Id, ExitProposal>, positionId: Id, e: Evaluation, newId: Id, at: Time)
    requires BatchGrows(a, b, positionId) && FreshIfNeeded(b, positionId, newId)
    ensures BatchGrows(a, Proposed(b, positionId, OrderFor(e), newId, at).0, positionId)
  {
    ProposalGrows(b, positionId, OrderFor(e), newId, at);
    BatchGrowsTransitive(a, b, Proposed(b, positionId, OrderFor(e), newId, at).0, positionId);
  }

  lemma {:induction false} ConsumedGrows(proposals: map<Id, ExitProposal>, positionId: Id, es: seq<Evaluation>, newId: Id,
                                         at: Time, n: nat)
    requires n <= |es| && FreshIfNeeded(proposals, positionId, newId)
    ensures BatchGrows(proposals, Consumed(proposals, positionId, es, newId, at, n), positionId)
  {
    if n > 0 {
      ConsumedGrows(proposals, positionId, es, newId, at, n - 1);
      GrowsOneMore(proposals, Consumed(proposals, positionId, es, newId, at, n - 1), positionId, es[n - 1], newId, at);
    }
  }

  /** The proposal of a trigger names its rule. */
  lemma TriggerIsNamed(proposals: map<Id, ExitProposal>, positionId: Id, e: Evaluation, newId: Id, at: Time)
    requires FreshIfNeeded(proposals, positionId, newId)
    ensures Covered(Proposed(proposals, positionId, OrderFor(e), newId, at).0, e.ruleId)
  {
    var (after, id) := Proposed(proposals, positionId, OrderFor(e), newId, at);
    assert e.ruleId in after[id].triggerRuleIds;
  }

  /** After the first n evaluations proposals name exactly what they named before and the n's triggers. */
  lemma {:induction false} BatchNames(proposals: map<Id, ExitProposal>, positionId: Id, es: seq<Evaluation>, newId: Id,
                                      at: Time, n: nat, id: Id)
    requires n <= |es| && FreshIfNeeded(proposals, positionId, newId)
    ensures Covered(Consumed(proposals, positionId, es, newId, at, n), id) <==>
      Covered(proposals, id) || id in TriggeredIds(es[..n])
  {
    if n == 0 {
    } else {
      BatchNames(proposals, positionId, es, newId, at, n - 1, id);
      assert es[..n][..n - 1] == es[..n - 1];
      var before := Consumed(proposals, positionId, es, newId, at, n - 1);
      if es[n - 1].triggered {
        ProposalNames(before, positionId, OrderFor(es[n - 1]), newId, at);
        ProposalGrows(before, positionId, OrderFor(es[n - 1]), newId, at);
        TriggerIsNamed(before, positionId, es[n - 1], newId, at);
        if Covered(before, id) { StillCovered(before, Proposed(before, positionId, OrderFor(es[n - 1]), newId, at).0, id); }
      }
    }
  }

  lemma {:induction false} TriggeredIdsAre(es: seq<Evaluation>, id: Id)
    ensures id in TriggeredIds(es) <==> exists i :: 0 <= i < |es| && es[i].triggered && es[i].ruleId == id
  {
    if es == [] {
    } else {
      var n := |es| - 1;
      TriggeredIdsAre(es[..n], id);
      if i :| 0 <= i < n && es[i].triggered && es[i].ruleId == id { assert es[..n][i] == es[i]; }
    }
  }

  lemma {:induction false} TriggeredIdsOnce(es: seq<Evaluation>)
    requires forall i, j | 0 <= i < j < |es| :: es[i].ruleId != es[j].ruleId
    ensures Once(TriggeredIds(es))
  {
    if es == [] {
    } else {
      var n := |es| - 1;
      TriggeredIdsOnce(es[..n]);
      TriggeredIdsAre(es[..n], es[n].ruleId);
    }
  }

  lemma OnceAppended(a: seq<Id>, b: seq<Id>)
    requires Once(a) && Once(b) && (forall id | id in a :: id !in b)
    ensures Once(a + b)
  {
    forall i, j | 0 <= i < j < |a + b| ensures (a + b)[i] != (a + b)[j] {
      if i < |a| <= j { assert (a + b)[i] in a && (a + b)[j] in b; }
    }
  }

  // ------------------------------------------------------------- the evaluation

  lemma TickKeepsRuleIds(d: Desk, t: Tick, saved: nat, consumed: nat)
    requires CanEvaluate(d, t) && TickFits(t, saved, consumed)
    ensures AfterTick(d, t, saved, consumed).rules.Keys == d.rules.Keys
  {
    assert forall i | i in t.order :: i in d.rules;
    forall i ensures i in AfterTick(d, t, saved, consumed).rules <==> i in d.rules {
      RulesAfterAt(d.rules, t.order, d.positions[t.positionId], d.profiles[t.positionId], t.snapshot, saved, i);
    }
  }

  /** A rule after the first `saved` saves: evaluated if it was among them, untouched otherwise. */
  lemma RuleAfterTick(d: Desk, t: Tick, saved: nat, consumed: nat, id: Id)
    requires CanEvaluate(d, t) && TickFits(t, saved, consumed) && id in d.rules
    ensures id in AfterTick(d, t, saved, consumed).rules
    ensures var e := EvaluateRule(d.positions[t.positionId], d.profiles[t.positionId], d.rules[id], t.snapshot);
      var rule := AfterTick(d, t, saved, consumed).rules[id];
      && rule == (if id in t.order[..saved] then e.1 else d.rules[id])
      && rule.ruleId == id && rule.positionId == d.rules[id].positionId && ValidSpec(rule.ruleType, rule.parameters)
      && (d.rules[id].Done() ==> rule == d.rules[id])
      && (id in t.order[..saved] ==> !d.rules[id].Done() && (rule.status == RuleTriggered <==> e.0.triggered))
      && e.0.ruleId == id
  {
    var p, profile := d.positions[t.positionId], d.profiles[t.positionId];
    assert forall i | i in t.order :: i in d.rules;
    RulesAfterAt(d.rules, t.order, p, profile, t.snapshot, saved, id);
    EvaluationTriggersOnce(p, profile, d.rules[id], t.snapshot);
    assert id in t.order[..saved] ==> id in t.order;
  }

  /** The ids logged for the first n evaluations are the rules among the first n that trigger. */
  lemma LoggedIds(d: Desk, t: Tick, es: seq<Evaluation>, n: nat, id: Id)
    requires CanEvaluate(d, t) && (forall i | i in t.order :: i in d.rules) && n <= |t.order|
    requires es == EvaluationsIn(d, t)
    ensures id in TriggeredIds(es[..n]) <==>
      id in t.order[..n]
      && EvaluateRule(d.positions[t.positionId], d.profiles[t.positionId], d.rules[id], t.snapshot).0.triggered
  {
    TriggeredIdsAre(es[..n], id);
    forall i | 0 <= i < n ensures es[..n][i].ruleId == t.order[i] {
      EvaluationTriggersOnce(d.positions[t.positionId], d.profiles[t.positionId], d.rules[t.order[i]], t.snapshot);
    }
    if id in t.order[..n] {
      var i :| 0 <= i < n && t.order[..n][i] == id;
      assert es[..n][i] == EvaluateRule(d.positions[t.positionId], d.profiles[t.positionId], d.rules[id], t.snapshot).0;
    }
    if i :| 0 <= i < n && es[..n][i].triggered && es[..n][i].ruleId == id {
      assert t.order[..n][i] == id;
    }
  }

  lemma LoggedOnce(d: Desk, t: Tick, es: seq<Evaluation>, n: nat)
    requires CanEvaluate(d, t) && (forall i | i in t.order :: i in d.rules) && n <= |t.order|
    requires es == EvaluationsIn(d, t)
    ensures Once(TriggeredIds(es[..n]))
  {
    forall i, j | 0 <= i < j < n ensures es[..n][i].ruleId != es[..n][j].ruleId {
      EvaluationTriggersOnce(d.positions[t.positionId], d.profiles[t.positionId], d.rules[t.order[i]], t.snapshot);
      EvaluationTriggersOnce(d.positions[t.positionId], d.profiles[t.positionId], d.rules[t.order[j]], t.snapshot);
    }
    TriggeredIdsOnce(es[..n]);
  }

  lemma TickEvolves(d: Desk, t: Tick, saved: nat, consumed: nat)
    requires CanEvaluate(d, t) && TickFits(t, saved, consumed)
    ensures Evolves(d, AfterTick(d, t, saved, consumed))
    ensures BatchGrows(d.proposals, AfterTick(d, t, saved, consumed).proposals, t.positionId)
  {
    assert forall id | id in t.order :: id in d.rules;
    ConsumedGrows(d.proposals, t.positionId, EvaluationsIn(d, t), t.newId, t.snapshot.observedAt, consumed);
    forall id | id in d.rules
      ensures id in AfterTick(d, t, saved, consumed).rules
      ensures AfterTick(d, t, saved, consumed).rules[id].positionId == d.rules[id].positionId
      ensures d.rules[id].Done() ==> AfterTick(d, t, saved, consumed).rules[id].Done()
    {
      RuleAfterTick(d, t, saved, consumed, id);
    }
  }

  lemma TickKeepsTriggers(d: Desk, t: Tick, saved: nat, consumed: nat)
    requires CanEvaluate(d, t) && TickFits(t, saved, consumed)
    requires TriggersKept(d.triggered, d.lost, d.rules, d.proposals)
    ensures var d' := AfterTick(d, t, saved, consumed); TriggersKept(d'.triggered, d'.lost, d'.rules, d'.proposals)
  {
    assert forall id | id in t.order :: id in d.rules;
    var es, d' := EvaluationsIn(d, t), AfterTick(d, t, saved, consumed);
    var done, proposed := TriggeredIds(es[..saved]), TriggeredIds(es[..consumed]);
    forall id: Id
      ensures id in d.rules ==> id in d'.rules && (d.rules[id].Done() ==> d'.rules[id].Done())
      ensures id in done ==> id in d.rules && !d.rules[id].Done() && d'.rules[id].status == RuleTriggered
      ensures id in d'.rules && d'.rules[id].status == RuleTriggered ==> id in done || id in d.triggered
      ensures Covered(d'.proposals, id) <==> Covered(d.proposals, id) || id in proposed
      ensures id in proposed ==> id in done
    {
      TickTriggers(d, t, saved, consumed, es, id);
    }
    LoggedOnce(d, t, es, saved);
    OnceAppended(d.triggered, done);
  }

  lemma TickTriggers(d: Desk, t: Tick, saved: nat, consumed: nat, es: seq<Evaluation>, id: Id)
    requires CanEvaluate(d, t) && TickFits(t, saved, consumed) && (forall i | i in t.order :: i in d.rules)
    requires es == EvaluationsIn(d, t)
    requires id in d.rules && d.rules[id].status == RuleTriggered ==> id in d.triggered
    ensures var d', done, proposed := AfterTick(d, t, saved, consumed), TriggeredIds(es[..saved]), TriggeredIds(es[..consumed]);
      && (id in d.rules ==> id in d'.rules && (d.rules[id].Done() ==> d'.rules[id].Done()))
      && (id in done ==> id in d.rules && !d.rules[id].Done() && d'.rules[id].status == RuleTriggered)
      && (id in d'.rules && d'.rules[id].status == RuleTriggered ==> id in done || id in d.triggered)
      && (Covered(d'.proposals, id) <==> Covered(d.proposals, id) || id in proposed)
      && (id in proposed ==> id in done)
  {
    LoggedIds(d, t, es, saved, id);
    LoggedIds(d, t, es, consumed, id);
    BatchNames(d.proposals, t.positionId, es, t.newId, t.snapshot.observedAt, consumed, id);
    TickKeepsRuleIds(d, t, saved, consumed);
    if id in d.rules { RuleAfterTick(d, t, saved, consumed, id); }
    assert id in t.order[..saved] ==> id in t.order;
    assert id in t.order[..consumed] ==> id in t.order[..saved];
  }

  // --------------------------------------------------------------- single steps

  /** The parts of the invariant that look at proposals, for a step that changes nothing else. */
  lemma ProposalsChangeKeeps(d: Desk, after: map<Id, ExitProposal>)
    requires Inv(d) && Keyed(after) && ExitsEvolve(d.proposals, after) && NamesNoMore(d.proposals, after)
    requires forall id | id in after && id !in d.proposals :: OpenManaged(d.positions, after[id].positionId)
    ensures Inv(d.(proposals := after)) && Evolves(d, d.(proposals := after))
  {
    StillTriggersKept(d.triggered, d.lost, d.rules, d.proposals, after);
  }

  lemma MovedPositions(d: Desk, broker: BrokerName, positions: map<Id, Position>)
    requires Inv(d) && BrokerMoves(broker, d.positions, positions)
    ensures ProfilesExact(positions, d.profiles, d.unprofiled) && ExitsBounded(d.proposals, positions)
    ensures PositionsEvolve(d.positions, positions)
  {
    forall id | id in d.proposals ensures ManagedHere(positions, d.proposals[id].positionId) {
      assert ManagedHere(d.positions, d.proposals[id].positionId);
    }
  }

  /** Whole or cut short, whatever exits were looked at. */
  lemma BrokerMoveKeeps(d: Desk, broker: BrokerName, positions: map<Id, Position>, looked: set<Id>, orphans: set<Id>, at: Time)
    requires Inv(d) && BrokerMoves(broker, d.positions, positions)
    ensures var d' := d.(positions := positions, proposals := Satisfied(d.proposals, positions, looked, broker, at),
                         orphans := orphans);
      Inv(d') && Evolves(d, d')
  {
    var proposals := Satisfied(d.proposals, positions, looked, broker, at);
    MovedPositions(d, broker, positions);
    SatisfiedEvolves(d.proposals, positions, looked, broker, at);
    assert TriggersKept(d.triggered, d.lost, d.rules, proposals) by {
      SameNames(d.proposals, proposals);
      StillTriggersKept(d.triggered, d.lost, d.rules, d.proposals, proposals);
    }
  }

  lemma SatisfiedEvolves(proposals: map<Id, ExitProposal>, positions: map<Id, Position>, looked: set<Id>,
                         broker: BrokerName, at: Time)
    requires Keyed(proposals) && ExitsBounded(proposals, positions)
    ensures var after := Satisfied(proposals, positions, looked, broker, at);
      Keyed(after) && ExitsBounded(after, positions) && ExitsEvolve(proposals, after)
  {
  }

  lemma AdoptedPositions(positions: map<Id, Position>, profile: ManagementProfile, proposals: map<Id, ExitProposal>)
    requires Coherent(positions) && Adoptable(positions, profile) && ExitsBounded(proposals, positions)
    ensures var after := WithAdopted(positions, profile);
      Coherent(after) && PositionsEvolve(positions, after) && ExitsBounded(proposals, after)
  {
  }

  lemma AdoptedProfiles(positions: map<Id, Position>, profiles: map<Id, ManagementProfile>, unprofiled: set<Id>,
                        profile: ManagementProfile)
    requires ProfilesExact(positions, profiles, unprofiled) && Adoptable(positions, profile)
    ensures var after, id := WithAdopted(positions, profile), profile.positionId;
      && ProfilesExact(after, profiles[id := profile], unprofiled)
      && ProfilesExact(after, profiles, unprofiled + {id})
  {
  }

  lemma AdoptionKeeps(d: Desk, profile: ManagementProfile)
    requires Inv(d) && Adoptable(d.positions, profile)
    ensures var d' := Next(d, Adopt(profile)); Inv(d') && Evolves(d, d')
  {
    AdoptedPositions(d.positions, profile, d.proposals);
    AdoptedProfiles(d.positions, d.profiles, d.unprofiled, profile);
  }

  lemma AdoptCutKeeps(d: Desk, profile: ManagementProfile)
    requires Inv(d) && Adoptable(d.positions, profile)
    ensures var d' := Next(d, AdoptCut(profile)); Inv(d') && Evolves(d, d')
  {
    AdoptedPositions(d.positions, profile, d.proposals);
    AdoptedProfiles(d.positions, d.profiles, d.unprofiled, profile);
  }

  lemma RuleWriteKeeps(d: Desk, rule: ManagementRule)
    requires Inv(d) && ValidSpec(rule.ruleType, rule.parameters) && rule.positionId in d.profiles
    requires if rule.ruleId in d.rules
             then rule.positionId == d.rules[rule.ruleId].positionId && rule.status == RuleStatus.RuleCancelled
             else rule.status == RuleActive
    ensures var d' := d.(rules := d.rules[rule.ruleId := rule]); Inv(d') && Evolves(d, d')
  {
  }

  lemma RuleStepsKeep(d: Desk, step: Step)
    requires Inv(d) && (step.RuleAdded? || step.RuleCancelled?)
    ensures Inv(Next(d, step)) && Evolves(d, Next(d, step))
  {
    match step
    case RuleAdded(id, positionId, spec, at) =>
      if Next(d, step) != d { RuleWriteKeeps(d, NewRule(id, positionId, spec, at)); }
    case RuleCancelled(id, at) =>
      if Next(d, step) != d { RuleWriteKeeps(d, d.rules[id].(status := RuleStatus.RuleCancelled, updatedAt := at)); }
  }

  lemma TickKeepsRules(d: Desk, t: Tick, saved: nat, consumed: nat)
    requires RulesBounded(d.rules, d.profiles) && CanEvaluate(d, t) && TickFits(t, saved, consumed)
    ensures var after := AfterTick(d, t, saved, consumed).rules; RulesOk(after) && RulesBounded(after, d.profiles)
  {
    var after := AfterTick(d, t, saved, consumed).rules;
    TickKeepsRuleIds(d, t, saved, consumed);
    forall id | id in after
      ensures after[id].ruleId == id && after[id].positionId in d.profiles
      ensures ValidSpec(after[id].ruleType, after[id].parameters)
    {
      RuleAfterTick(d, t, saved, consumed, id);
    }
  }

  lemma TickKeeps(d: Desk, t: Tick, saved: nat, consumed: nat)
    requires Inv(d) && CanEvaluate(d, t) && TickFits(t, saved, consumed)
    ensures Inv(AfterTick(d, t, saved, consumed)) && Evolves(d, AfterTick(d, t, saved, consumed))
  {
    TickEvolves(d, t, saved, consumed);
    TickKeepsTriggers(d, t, saved, consumed);
    TickKeepsRules(d, t, saved, consumed);
  }

  lemma ProposedKeeps(d: Desk, step: Step)
    requires Inv(d) && step.ExitProposed? && Next(d, step) != d
    ensures Inv(Next(d, step)) && Evolves(d, Next(d, step))
  {
    ProposalGrows(d.proposals, step.positionId, step.request, step.newId, step.at);
    ProposalNames(d.proposals, step.positionId, step.request, step.newId, step.at);
    ProposalsChangeKeeps(d, Next(d, step).proposals);
  }

  /** Steps that rewrite the status of proposals and nothing that names them. */
  lemma StatusStepsKeep(d: Desk, step: Step)
    requires Inv(d) && (step.SupersedeCut? || step.AgentApproved? || step.UserResolved?)
    ensures Inv(Next(d, step)) && Evolves(d, Next(d, step))
  {
    StatusOnly(d, step);
    SameNames(d.proposals, Next(d, step).proposals);
    ProposalsChangeKeeps(d, Next(d, step).proposals);
  }

  lemma StatusOnly(d: Desk, step: Step)
    requires step.SupersedeCut? || step.AgentApproved? || step.UserResolved?
    ensures Next(d, step) == d.(proposals := Next(d, step).proposals)
    ensures Next(d, step).proposals.Keys == d.proposals.Keys
    ensures forall i | i in d.proposals ::
      var p, p' := d.proposals[i], Next(d, step).proposals[i];
      p' == p.(status := p'.status, updatedAt := p'.updatedAt)
  {
  }

  lemma ConvertedProfiles(d: Desk, profile: ManagementProfile)
    requires ProfilesExact(d.positions, d.profiles, d.unprofiled) && RulesBounded(d.rules, d.profiles)
    requires profile.positionId in d.profiles
    ensures var after := d.profiles[profile.positionId := profile];
      ProfilesExact(d.positions, after, d.unprofiled) && RulesBounded(d.rules, after)
  {
  }

  lemma ConvertedKeeps(d: Desk, profile: ManagementProfile)
    requires Inv(d)
    ensures Inv(Next(d, Converted(profile))) && Evolves(d, Next(d, Converted(profile)))
  {
    if Next(d, Converted(profile)) != d { ConvertedProfiles(d, profile); }
  }

  // ----------------------------------------------------------------- whole runs

  lemma StepKeeps(d: Desk, step: Step)
    requires Inv(d)
    ensures Inv(Next(d, step)) && Evolves(d, Next(d, step))
  {
    match step
    case BrokerMoved(broker, positions, at) =>
      if BrokerMoves(broker, d.positions, positions) {
        BrokerMoveKeeps(d, broker, positions, d.proposals.Keys, Next(d, step).orphans, at);
      }
    case BrokerMoveCut(broker, positions, looked, at) =>
      if BrokerMoves(broker, d.positions, positions) {
        BrokerMoveKeeps(d, broker, positions, looked, Next(d, step).orphans, at);
      }
    case Adopt(profile) => if Adoptable(d.positions, profile) { AdoptionKeeps(d, profile); }
    case AdoptCut(profile) => if Adoptable(d.positions, profile) { AdoptCutKeeps(d, profile); }
    case Ticked(t) => if CanEvaluate(d, t) { TickKeeps(d, t, |t.order|, |t.order|); }
    case TickCut(t, saved, consumed) =>
      if CanEvaluate(d, t) && TickFits(t, saved, consumed) { TickKeeps(d, t, saved, consumed); }
    case ExitProposed(_, _, _, _) => if Next(d, step) != d { ProposedKeeps(d, step); }
    case Converted(profile) => ConvertedKeeps(d, profile);
    case RuleAdded(_, _, _, _) => RuleStepsKeep(d, step);
    case RuleCancelled(_, _) => RuleStepsKeep(d, step);
    case _ => StatusStepsKeep(d, step);
  }

  lemma {:induction false} RunKeeps(d: Desk, steps: seq<Step>)
    requires Inv(d)
    ensures Inv(Run(d, steps)) && Evolves(d, Run(d, steps))
    decreases |steps|
  {
    if steps == [] {
    } else {
      StepKeeps(d, steps[0]);
      RunKeeps(Next(d, steps[0]), steps[1..]);
      EvolvesTransitive(d, Next(d, steps[0]), Run(d, steps));
    }
  }

  // ------------------------------------------------------------- one exit path

  /** Every User resolution on the way was safe when it was made. */
  ghost predicate SafeRun(d: Desk, steps: seq<Step>)
    decreases |steps|
  {
    steps == [] || (SafeStep(d, steps[0]) && SafeRun(Next(d, steps[0]), steps[1..]))
  }

  predicate SafeStep(d: Desk, step: Step) {
    step.UserResolved? && step.proposalId in d.proposals ==>
      SafeToResolve(d.proposals, d.positions, step.proposalId, step.choice)
  }

  /** A whole reconcile leaves no exit of its broker on a closed position. */
  lemma MovedActiveSound(d: Desk, broker: BrokerName, positions: map<Id, Position>, at: Time)
    requires ExitsBounded(d.proposals, positions) && ActiveSound(d.proposals, d.positions, d.orphans)
    requires BrokerMoves(broker, d.positions, positions)
    ensures ActiveSound(ClosedSatisfied(d.proposals, positions, broker, at), positions,
                        StillOrphaned(d.orphans, d.proposals, positions, broker))
  {
    var satisfied := ClosedSatisfied(d.proposals, positions, broker, at);
    forall id | id in satisfied && satisfied[id].Active() && id !in StillOrphaned(d.orphans, d.proposals, positions, broker)
      ensures OpenManaged(positions, satisfied[id].positionId)
    {
      assert ManagedHere(positions, d.proposals[id].positionId);
      if positions[d.proposals[id].positionId].broker != broker {
        assert OpenManaged(d.positions, d.proposals[id].positionId);
      }
    }
  }

  lemma SatisfiedKeepsOnePath(proposals: map<Id, ExitProposal>, positions: map<Id, Position>, looked: set<Id>,
                              broker: BrokerName, at: Time)
    requires OnePath(proposals)
    ensures OnePath(Satisfied(proposals, positions, looked, broker, at))
  {
    DeactivatedKeepsOnePath(proposals, Satisfied(proposals, positions, looked, broker, at));
  }

  lemma MoveKeepsPaths(d: Desk, broker: BrokerName, positions: map<Id, Position>, at: Time)
    requires Inv(d) && PathsOk(d)
    ensures PathsOk(Next(d, BrokerMoved(broker, positions, at)))
  {
    if BrokerMoves(broker, d.positions, positions) {
      SatisfiedKeepsOnePath(d.proposals, positions, d.proposals.Keys, broker, at);
      assert ExitsBounded(d.proposals, positions) by { MovedPositions(d, broker, positions); }
      MovedActiveSound(d, broker, positions, at);
    }
  }

  lemma MoveCutKeepsPaths(d: Desk, broker: BrokerName, positions: map<Id, Position>, looked: set<Id>, at: Time)
    requires PathsOk(d)
    ensures PathsOk(Next(d, BrokerMoveCut(broker, positions, looked, at)))
  {
    SatisfiedKeepsOnePath(d.proposals, positions, looked, broker, at);
  }

  /** Fewer active proposals, and new ones only on an open position. */
  lemma FewerActiveSound(before: map<Id, ExitProposal>, after: map<Id, ExitProposal>, positions: map<Id, Position>,
                         orphans: set<Id>, positionId: Id)
    requires ActiveSound(before, positions, orphans) && BatchGrows(before, after, positionId)
    requires OpenManaged(positions, positionId)
    ensures ActiveSound(after, positions, orphans)
  {
  }

  lemma TickKeepsPaths(d: Desk, t: Tick, saved: nat, consumed: nat)
    requires PathsOk(d) && CanEvaluate(d, t) && TickFits(t, saved, consumed)
    ensures PathsOk(AfterTick(d, t, saved, consumed))
  {
    TickEvolves(d, t, saved, consumed);
    FewerActiveSound(d.proposals, AfterTick(d, t, saved, consumed).proposals, d.positions, d.orphans, t.positionId);
  }

  lemma ProposalKeepsPaths(d: Desk, step: Step)
    requires PathsOk(d) && step.ExitProposed?
    ensures PathsOk(Next(d, step))
  {
    if Next(d, step) != d {
      ProposedKeepsOnePath(d.proposals, step.positionId, step.request, step.newId, step.at);
      ProposalGrows(d.proposals, step.positionId, step.request, step.newId, step.at);
      FewerActiveSound(d.proposals, Next(d, step).proposals, d.positions, d.orphans, step.positionId);
    }
  }

  lemma StatusStepsKeepPaths(d: Desk, step: Step)
    requires PathsOk(d) && SafeStep(d, step) && (step.SupersedeCut? || step.AgentApproved? || step.UserResolved?)
    ensures PathsOk(Next(d, step))
  {
    match step
    case SupersedeCut(positionId, some, at) =>
      DeactivatedKeepsOnePath(d.proposals, SomeSuperseded(d.proposals, positionId, some, at));
    case AgentApproved(id, at) =>
      if Reviewable(d.proposals, d.positions, id) {
        ReplacedKeepsOnePath(d.proposals, id, d.proposals[id].(status := ExitApproved, updatedAt := at));
      }
    case UserResolved(id, choice, at) =>
      if id in d.proposals { SafeResolutionKeepsOnePath(d.proposals, d.positions, id, choice, at); }
  }

  lemma AdoptionKeepsPaths(d: Desk, step: Step)
    requires PathsOk(d) && (step.Adopt? || step.AdoptCut?)
    ensures PathsOk(Next(d, step))
  {
    if Adoptable(d.positions, step.profile) {
      AdoptionKeepsActive(d.positions, step.profile, d.proposals, d.orphans);
    }
  }

  lemma AdoptionKeepsActive(positions: map<Id, Position>, profile: ManagementProfile, proposals: map<Id, ExitProposal>,
                            orphans: set<Id>)
    requires Adoptable(positions, profile) && ActiveSound(proposals, positions, orphans)
    ensures ActiveSound(proposals, WithAdopted(positions, profile), orphans)
  {
  }

  lemma SafeStepKeepsPaths(d: Desk, step: Step)
    requires Inv(d) && PathsOk(d) && SafeStep(d, step)
    ensures PathsOk(Next(d, step))
  {
    match step
    case BrokerMoved(broker, positions, at) => MoveKeepsPaths(d, broker, positions, at);
    case BrokerMoveCut(broker, positions, looked, at) => MoveCutKeepsPaths(d, broker, positions, looked, at);
    case Adopt(_) => AdoptionKeepsPaths(d, step);
    case AdoptCut(_) => AdoptionKeepsPaths(d, step);
    case Ticked(t) => if CanEvaluate(d, t) { TickKeepsPaths(d, t, |t.order|, |t.order|); }
    case TickCut(t, saved, consumed) =>
      if CanEvaluate(d, t) && TickFits(t, saved, consumed) { TickKeepsPaths(d, t, saved, consumed); }
    case ExitProposed(_, _, _, _) => ProposalKeepsPaths(d, step);
    case SupersedeCut(_, _, _) => StatusStepsKeepPaths(d, step);
    case AgentApproved(_, _) => StatusStepsKeepPaths(d, step);
    case UserResolved(_, _, _) => StatusStepsKeepPaths(d, step);
    case _ =>
  }

  lemma {:induction false} SafeRunKeepsPaths(d: Desk, steps: seq<Step>)
    requires Inv(d) && PathsOk(d) && SafeRun(d, steps)
    ensures PathsOk(Run(d, steps))
    decreases |steps|
  {
    if steps == [] {
    } else {
      StepKeeps(d, steps[0]);
      SafeStepKeepsPaths(d, steps[0]);
      SafeRunKeepsPaths(Next(d, steps[0]), steps[1..]);
    }
  }

  predicate NoReconcileCut(steps: seq<Step>) { forall i | 0 <= i < |steps| :: !steps[i].BrokerMoveCut? }

  lemma {:induction false} NobodyLeftBehind(d: Desk, steps: seq<Step>)
    requires NoReconcileCut(steps)
    ensures Run(d, steps).orphans <= d.orphans
    decreases |steps|
  {
    if steps != [] { NobodyLeftBehind(Next(d, steps[0]), steps[1..]); }
  }

  /** In every reachable state whose User resolutions were safe, whatever was cut short, the active
      proposals of a position are one full exit and nothing else, or only partial exits; and the
      position of an active proposal is MANAGED, and open unless a reconcile cut short left the
      proposal behind and no whole one of its broker followed. */
  lemma OneExitPathPerPosition(steps: seq<Step>)
    requires SafeRun(EMPTY_DESK, steps)
    ensures var d := Run(EMPTY_DESK, steps);
      && (forall i, j | i in d.proposals && j in d.proposals && d.proposals[i].Active() && d.proposals[j].Active()
            && d.proposals[i].positionId == d.proposals[j].positionId && d.proposals[i].action == ExitAll :: i == j)
      && (forall i | i in d.proposals && d.proposals[i].Active() ::
            && ManagedHere(d.positions, d.proposals[i].positionId)
            && (i in d.orphans || OpenManaged(d.positions, d.proposals[i].positionId)))
      && (NoReconcileCut(steps) ==> d.orphans == {})
  {
    RunKeeps(EMPTY_DESK, steps);
    SafeRunKeepsPaths(EMPTY_DESK, steps);
    if NoReconcileCut(steps) { NobodyLeftBehind(EMPTY_DESK, steps); }
    var d := Run(EMPTY_DESK, steps);
    forall i, j | i in d.proposals && j in d.proposals && d.proposals[i].Active() && d.proposals[j].Active()
        && d.proposals[i].positionId == d.proposals[j].positionId && d.proposals[i].action == ExitAll
      ensures i == j
    {
      assert FullOn(d.proposals, d.proposals[i].positionId, i) && ActiveOn(d.proposals, d.proposals[i].positionId, j);
    }
  }

  predicate NoTickCut(steps: seq<Step>) { forall i | 0 <= i < |steps| :: !steps[i].TickCut? }

  lemma WholeTickLosesNothing(d: Desk, t: Tick)
    requires CanEvaluate(d, t)
    ensures AfterTick(d, t, |t.order|, |t.order|).lost == d.lost
  {
  }

  lemma {:induction false} NothingLost(d: Desk, steps: seq<Step>)
    requires NoTickCut(steps)
    ensures Run(d, steps).lost == d.lost
    decreases |steps|
  {
    if steps == [] {
    } else {
      if steps[0].Ticked? && CanEvaluate(d, steps[0].tick) { WholeTickLosesNothing(d, steps[0].tick); }
      NothingLost(Next(d, steps[0]), steps[1..]);
    }
  }

  /** In every run the rules ever triggered are exactly those some stored proposal names and those a
      crash inside an evaluation lost, and without one nothing is lost; each triggers once, and once
      triggered or cancelled a rule never comes back, in this state or any later one. */
  lemma NoTriggerIsLost(past: seq<Step>, future: seq<Step>)
    ensures var d := Run(EMPTY_DESK, past);
      var d' := Run(d, future);
      && Once(d'.triggered) && d.triggered <= d'.triggered
      && (forall id: Id :: Covered(d'.proposals, id) <==> id in d'.triggered && id !in d'.lost)
      && (forall id | id in d'.rules && d'.rules[id].status == RuleTriggered :: id in d'.triggered)
      && (forall id | id in d.rules && d.rules[id].Done() :: id in d'.rules && d'.rules[id].Done())
      && (NoTickCut(past) ==> d.lost == {})
  {
    RunKeeps(EMPTY_DESK, past);
    RunKeeps(Run(EMPTY_DESK, past), future);
    if NoTickCut(past) { NothingLost(EMPTY_DESK, past); }
  }

  lemma OnlyAdoptionManages(d: Desk, step: Step, id: Id)
    requires ManagedHere(Next(d, step).positions, id)
    ensures ManagedHere(d.positions, id) || ((step.Adopt? || step.AdoptCut?) && step.profile.positionId == id)
  {
    match step
    case BrokerMoved(_, _, _) =>
    case BrokerMoveCut(_, _, _, _) =>
    case Adopt(_) =>
    case AdoptCut(_) =>
    case _ => assert Next(d, step).positions == d.positions;
  }

  /** Management boundary: whatever the run, a MANAGED position stays MANAGED, one step changes the
      mark only by adopting; it has a profile exactly when its adoption was not cut short, rules
      exist only for such positions, and proposals only for MANAGED ones. */
  lemma ManagementBoundary(past: seq<Step>, step: Step, id: Id)
    ensures var d := Run(EMPTY_DESK, past);
      var d' := Next(d, step);
      && ProfilesExact(d'.positions, d'.profiles, d'.unprofiled)
      && (forall i | i in d'.rules ::
            ManagedHere(d'.positions, d'.rules[i].positionId) && d'.rules[i].positionId in d'.profiles)
      && (forall i | i in d'.proposals :: ManagedHere(d'.positions, d'.proposals[i].positionId))
      && (ManagedHere(d.positions, id) ==> ManagedHere(d'.positions, id))
      && (ManagedHere(d'.positions, id) && !ManagedHere(d.positions, id) ==>
            (step.Adopt? || step.AdoptCut?) && step.profile.positionId == id)
  {
    RunKeeps(EMPTY_DESK, past);
    var d := Run(EMPTY_DESK, past);
    StepKeeps(d, step);
    if ManagedHere(Next(d, step).positions, id) { OnlyAdoptionManages(d, step, id); }
  }

  /** A position whose adoption was cut short stays MANAGED without a profile for good: no rule can
      ever be put on it, and it can never be adopted again. */
  lemma CutAdoptionIsForGood(past: seq<Step>, future: seq<Step>, id: Id)
    requires id in Run(EMPTY_DESK, past).unprofiled
    ensures var d' := Run(Run(EMPTY_DESK, past), future);
      && ManagedHere(d'.positions, id) && id !in d'.profiles && !Manageable(d'.positions, d'.profiles, id)
      && (forall profile: ManagementProfile | profile.positionId == id :: !Adoptable(d'.positions, profile))
  {
    RunKeeps(EMPTY_DESK, past);
    RunKeeps(Run(EMPTY_DESK, past), future);
  }

  // --------------------------------------------------- a crash inside the evaluation

  /** Of any desk: a rule that is done stays done, and proposals name it later only if they do now. */
  lemma DoneRuleStays(d: Desk, step: Step, id: Id)
    requires id in d.rules && d.rules[id].Done()
    ensures var d' := Next(d, step);
      id in d'.rules && d'.rules[id].Done() && (Covered(d'.proposals, id) <==> Covered(d.proposals, id))
  {
    var d' := Next(d, step);
    match step
    case Ticked(t) => if CanEvaluate(d, t) { DoneRuleTicks(d, t, |t.order|, |t.order|, id); }
    case TickCut(t, saved, consumed) =>
      if CanEvaluate(d, t) && TickFits(t, saved, consumed) { DoneRuleTicks(d, t, saved, consumed, id); }
    case ExitProposed(positionId, order, newId, at) =>
      if d' != d {
        ProposalNames(d.proposals, positionId, order, newId, at);
        ProposalGrows(d.proposals, positionId, order, newId, at);
        if Covered(d.proposals, id) { StillCovered(d.proposals, d'.proposals, id); }
      }
    case _ => OtherStepNames(d, step, id);
  }

  lemma OtherStepNames(d: Desk, step: Step, id: Id)
    requires !step.Ticked? && !step.TickCut? && !step.ExitProposed? && id in d.rules && d.rules[id].Done()
    ensures var d' := Next(d, step);
      id in d'.rules && d'.rules[id].Done() && (Covered(d'.proposals, id) <==> Covered(d.proposals, id))
  {
    SameTriggers(d, step);
    DoneStays(d, step, id);
    SameNames(d.proposals, Next(d, step).proposals);
    SameNames(Next(d, step).proposals, d.proposals);
  }

  lemma SameTriggers(d: Desk, step: Step)
    requires !step.Ticked? && !step.TickCut? && !step.ExitProposed?
    ensures Next(d, step).proposals.Keys == d.proposals.Keys
    ensures forall i | i in d.proposals :: Next(d, step).proposals[i].triggerRuleIds == d.proposals[i].triggerRuleIds
  {
  }

  lemma DoneStays(d: Desk, step: Step, id: Id)
    requires !step.Ticked? && !step.TickCut? && id in d.rules && d.rules[id].Done()
    ensures id in Next(d, step).rules && Next(d, step).rules[id].Done()
  {
  }

  lemma DoneRuleTicks(d: Desk, t: Tick, saved: nat, consumed: nat, id: Id)
    requires CanEvaluate(d, t) && TickFits(t, saved, consumed) && id in d.rules && d.rules[id].Done()
    ensures var d' := AfterTick(d, t, saved, consumed);
      id in d'.rules && d'.rules[id].Done() && (Covered(d'.proposals, id) <==> Covered(d.proposals, id))
  {
    assert forall i | i in t.order :: i in d.rules;
    var es := EvaluationsIn(d, t);
    RuleAfterTick(d, t, saved, consumed, id);
    BatchNames(d.proposals, t.positionId, es, t.newId, t.snapshot.observedAt, consumed, id);
    LoggedIds(d, t, es, consumed, id);
    assert id in t.order[..consumed] ==> id in t.order;
  }

  lemma {:induction false} DoneRuleFate(d: Desk, steps: seq<Step>, id: Id)
    requires id in d.rules && d.rules[id].Done()
    ensures var d' := Run(d, steps);
      id in d'.rules && d'.rules[id].Done() && (Covered(d'.proposals, id) <==> Covered(d.proposals, id))
    decreases |steps|
  {
    if steps == [] {
    } else {
      DoneRuleStays(d, steps[0], id);
      DoneRuleFate(Next(d, steps[0]), steps[1..], id);
    }
  }

  /** The process dies within an evaluation, after `saved` rules were saved and the evaluations of
      `consumed` were turned into proposals, on any desk.  The i-th listed rule, if it triggers: not
      yet saved, it is as it was and stays live; saved, it is done, and whatever happens later some
      proposal names it if and only if its evaluation was among those consumed, or one named it before. */
  lemma TriggerSurvivesIff(d: Desk, t: Tick, saved: nat, consumed: nat, i: nat, future: seq<Step>)
    requires CanEvaluate(d, t) && TickFits(t, saved, consumed) && i < |t.order| && t.order[i] in d.rules
    requires EvaluateRule(d.positions[t.positionId], d.profiles[t.positionId], d.rules[t.order[i]], t.snapshot).0.triggered
    ensures var crashed, id := AfterTick(d, t, saved, consumed), t.order[i];
      && id in crashed.rules
      && (i >= saved ==> crashed.rules[id] == d.rules[id] && !d.rules[id].Done())
      && (i < saved ==>
            && crashed.rules[id].Done()
            && (Covered(Run(crashed, future).proposals, id) <==> i < consumed || Covered(d.proposals, id)))
  {
    assert forall j | j in t.order :: j in d.rules;
    var crashed, id, es := AfterTick(d, t, saved, consumed), t.order[i], EvaluationsIn(d, t);
    RuleAfterTick(d, t, saved, consumed, id);
    assert id in t.order;
    IndexInPrefix(t.order, i, saved);
    IndexInPrefix(t.order, i, consumed);
    if i < saved {
      LoggedIds(d, t, es, consumed, id);
      BatchNames(d.proposals, t.positionId, es, t.newId, t.snapshot.observedAt, consumed, id);
      DoneRuleFate(crashed, future, id);
    }
  }

  lemma IndexInPrefix(ids: seq<Id>, i: nat, n: nat)
    requires i < |ids| && n <= |ids| && (forall j, k | 0 <= j < k < |ids| :: ids[j] != ids[k])
    ensures ids[i] in ids[..n] <==> i < n
  {
    if i < n { assert ids[..n][i] == ids[i]; }
  }

  // ------------------------------------------------- a crash inside the reconcile

  /** Exits stay on open positions through a reconcile cut short if and only if every active exit of
      a position it closed had been looked at, and so satisfied, before the crash. */
  lemma CutKeepsExitsOpenIff(d: Desk, broker: BrokerName, positions: map<Id, Position>, looked: set<Id>, at: Time)
    requires ActiveAreOpen(d.proposals, d.positions) && BrokerMoves(broker, d.positions, positions)
    ensures var d' := Next(d, BrokerMoveCut(broker, positions, looked, at));
      ActiveAreOpen(d'.proposals, d'.positions) <==>
        forall id | id in d.proposals && d.proposals[id].Active() && !positions[d.proposals[id].positionId].IsOpen() ::
          id in looked
  {
    var proposals := Satisfied(d.proposals, positions, looked, broker, at);
    forall id | id in d.proposals && d.proposals[id].Active()
      ensures d.proposals[id].positionId in positions && positions[d.proposals[id].positionId].IsManaged()
      ensures !positions[d.proposals[id].positionId].IsOpen() ==> positions[d.proposals[id].positionId].broker == broker
    {
      assert OpenManaged(d.positions, d.proposals[id].positionId);
    }
    if id :| id in d.proposals && d.proposals[id].Active() && !positions[d.proposals[id].positionId].IsOpen()
             && id !in looked
    {
      assert proposals[id].Active();
    }
  }

  /** The snapshot shows exposure under the key. */
  predicate ShownOpen(s: AccountSnapshot, key: PositionKey) {
    var last := LastRow(s.rows, |s.rows|, key);
    last.Some? && last.value < |s.rows| && s.rows[last.value].facts.quantity != 0
  }

  lemma ReconciledPosition(before: map<Id, Position>, after: map<Id, Position>, s: AccountSnapshot, ids: seq<Id>, id: Id)
    requires ReconcileResult(before, after, s, ids) && id in before && before[id].broker == s.broker
    ensures id in after && after[id].broker == s.broker && after[id].key == before[id].key
    ensures after[id].IsOpen() <==> ShownOpen(s, before[id].key)
  {
    var book, key := ByKey(before, s.broker), before[id].key;
    ByKeyIndexes(before, s.broker);
    ByKeyIndexes(after, s.broker);
    MergeIsSimple(book, s, ids, key);
    MergePreserves(book, s, ids, key);
    assert key in book && book[key] == before[id];
    assert after[Merge(book, s, ids)[key].positionId] == Merge(book, s, ids)[key];
  }

  /** The next whole reconcile settles what a cut one left behind: of all active exits on its broker's
      positions those stay active, and untouched, whose position the snapshot shows open, the same
      exposure or another; and no active exit of its broker is on a closed position. */
  lemma NextReconcileSettles(d: Desk, positions: map<Id, Position>, s: AccountSnapshot, ids: seq<Id>, id: Id)
    requires ReconcileResult(d.positions, positions, s, ids) && id in d.proposals && d.proposals[id].Active()
    requires d.proposals[id].positionId in d.positions && d.positions[d.proposals[id].positionId].broker == s.broker
    ensures var d' := Next(d, BrokerMoved(s.broker, positions, s.observedAt));
      && id in d'.proposals && id !in d'.orphans
      && (d'.proposals[id].Active() <==> ShownOpen(s, d.positions[d.proposals[id].positionId].key))
      && (d'.proposals[id].Active() ==> d'.proposals[id] == d.proposals[id]
                                        && d'.positions[d.proposals[id].positionId].IsOpen())
  {
    ReconcileIsBrokerMove(d.positions, positions, s, ids);
    ReconciledPosition(d.positions, positions, s, ids, d.proposals[id].positionId);
  }

  /** Until then nothing else frees a proposal left behind: no step but a reconcile of its broker, or
      the User's own decision on it, changes it while its position is not open. */
  lemma LeftBehindStays(d: Desk, step: Step, id: Id)
    requires Inv(d) && LeftBehind(d.proposals, d.positions, id)
    requires !step.BrokerMoved? && !step.BrokerMoveCut? && !(step.UserResolved? && step.proposalId == id)
    ensures var d' := Next(d, step);
      id in d'.proposals && d'.proposals[id] == d.proposals[id] && LeftBehind(d'.proposals, d'.positions, id)
  {
    assert ManagedHere(d.positions, d.proposals[id].positionId);
    match step
    case Ticked(t) => if CanEvaluate(d, t) { TickLeavesBehind(d, t, |t.order|, |t.order|, id); }
    case TickCut(t, saved, consumed) =>
      if CanEvaluate(d, t) && TickFits(t, saved, consumed) { TickLeavesBehind(d, t, saved, consumed, id); }
    case ExitProposed(p, order, newId, at) =>
      if Next(d, step) != d { ProposalGrows(d.proposals, p, order, newId, at); }
    case _ => OthersLeaveBehind(d, step, id);
  }

  lemma TickLeavesBehind(d: Desk, t: Tick, saved: nat, consumed: nat, id: Id)
    requires CanEvaluate(d, t) && TickFits(t, saved, consumed) && LeftBehind(d.proposals, d.positions, id)
    ensures var d' := AfterTick(d, t, saved, consumed);
      id in d'.proposals && d'.proposals[id] == d.proposals[id] && LeftBehind(d'.proposals, d'.positions, id)
  {
    TickEvolves(d, t, saved, consumed);
  }

  lemma OthersLeaveBehind(d: Desk, step: Step, id: Id)
    requires id in d.proposals && d.proposals[id].Active() && ManagedHere(d.positions, d.proposals[id].positionId)
    requires !d.positions[d.proposals[id].positionId].IsOpen()
    requires !step.BrokerMoved? && !step.BrokerMoveCut? && !step.Ticked? && !step.TickCut? && !step.ExitProposed?
    requires !(step.UserResolved? && step.proposalId == id)
    ensures var d' := Next(d, step);
      id in d'.proposals && d'.proposals[id] == d.proposals[id] && LeftBehind(d'.proposals, d'.positions, id)
  {
  }

  // ----------------------------------------------- the reconcile is a broker move

  /** The store between two saves of a reconcile, or after the last. */
  predicate CutResult(before: map<Id, Position>, after: map<Id, Position>, s: AccountSnapshot, ids: seq<Id>, cut: Cut) {
    && Coherent(before) && Coherent(after)
    && |s.rows| <= |ids| && CutFits(s, cut)
    && ByKey(after, s.broker) == CutBook(ByKey(before, s.broker), s, ids, cut)
    && OthersKept(s.broker, before, after)
  }

  predicate ReconcileResult(before: map<Id, Position>, after: map<Id, Position>, s: AccountSnapshot, ids: seq<Id>) {
    && Coherent(before) && Coherent(after)
    && |s.rows| <= |ids| && Fresh(ids, before)
    && ByKey(after, s.broker) == Merge(ByKey(before, s.broker), s, ids)
    && OthersKept(s.broker, before, after)
  }

  lemma KnownPositionMoves(before: map<Id, Position>, after: map<Id, Position>, s: AccountSnapshot, ids: seq<Id>, cut: Cut,
                           id: Id)
    requires CutResult(before, after, s, ids, cut) && id in before && before[id].broker == s.broker
    ensures id in after && after[id].management == before[id].management && after[id].broker == s.broker
  {
    var key := before[id].key;
    ByKeyIndexes(before, s.broker);
    ByKeyIndexes(after, s.broker);
    var book := ByKey(before, s.broker);
    assert key in book && book[key] == before[id];
    CutBookAt(book, s, ids, cut, key);
    CutPreserves(book, s, ids, cut, key);
    assert after[CutBook(book, s, ids, cut)[key].positionId] == CutBook(book, s, ids, cut)[key];
  }

  lemma NewPositionUnmanaged(before: map<Id, Position>, after: map<Id, Position>, s: AccountSnapshot, ids: seq<Id>,
                             cut: Cut, id: Id)
    requires CutResult(before, after, s, ids, cut) && id in after && id !in before
    ensures after[id].management == Unmanaged
  {
    var key := after[id].key;
    ByKeyIndexes(before, s.broker);
    ByKeyIndexes(after, s.broker);
    var book := ByKey(before, s.broker);
    assert after[id].broker == s.broker;
    assert key in CutBook(book, s, ids, cut) && CutBook(book, s, ids, cut)[key] == after[id];
    CutPreserves(book, s, ids, cut, key);
  }

  /** However much of its saves happened, a reconcile does what the broker steps above allow. */
  lemma CutIsBrokerMove(before: map<Id, Position>, after: map<Id, Position>, s: AccountSnapshot, ids: seq<Id>, cut: Cut)
    requires CutResult(before, after, s, ids, cut)
    ensures BrokerMoves(s.broker, before, after)
  {
    forall id | id in before
      ensures id in after && after[id].management == before[id].management && after[id].broker == before[id].broker
    {
      if before[id].broker == s.broker { KnownPositionMoves(before, after, s, ids, cut, id); }
    }
    forall id | id in after && id !in before ensures after[id].management == Unmanaged {
      NewPositionUnmanaged(before, after, s, ids, cut, id);
    }
  }

  /** What the position manager promises about a reconcile is the step used above. */
  lemma ReconcileIsBrokerMove(before: map<Id, Position>, after: map<Id, Position>, s: AccountSnapshot, ids: seq<Id>)
    requires ReconcileResult(before, after, s, ids)
    ensures BrokerMoves(s.broker, before, after)
  {
    var book := ByKey(before, s.broker);
    WholeCutIsMerge(book, s, ids, book.Keys);
    CutIsBrokerMove(before, after, s, ids, Cut(|s.rows|, book.Keys));
  }
}
