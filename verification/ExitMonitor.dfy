/** Exit proposals: coalescing, suppression, supersession and promotion. */
module ExitMonitor {
  import opened Domain
  import opened Store
  import Rules

  // ---------------------------------------------------------------- vocabulary

  function Priority(c: ExitClass): nat {
    match c case Strategic => 1 case Deterministic => 2 case Protective => 3
  }

  function ClassOf(t: RuleType): ExitClass {
    if t == HardSl || t == UnderlyingInvalidation then Protective
    else if t == Horizon then Strategic
    else Deterministic
  }

  /** What `propose_exit` is asked for. */
  datatype ExitOrder = ExitOrder(
    class_: ExitClass,
    action: ExitAction,
    quantity: Option<int>,
    percent: Option<real>,
    createdBy: string,
    reason: Reason,
    ruleId: Option<Id>)

  predicate OpenManaged(positions: map<Id, Position>, id: Id) {
    id in positions && positions[id].IsManaged() && positions[id].IsOpen()
  }

  /** `_validate_action` */
  predicate ValidAction(quantity: int, o: ExitOrder) {
    match o.action
    case ExitAll => o.quantity.None? && o.percent.None?
    case ExitQty => o.quantity.Some? && 0 < o.quantity.value <= Abs(quantity) && o.percent.None?
    case ExitPercent => o.percent.Some? && 0.0 < o.percent.value <= 100.0 && o.quantity.None?
  }

  predicate Admissible(positions: map<Id, Position>, positionId: Id, o: ExitOrder) {
    && OpenManaged(positions, positionId)
    && !Blank(o.createdBy) && (o.reason.Text? ==> !Blank(o.reason.text))
    && ValidAction(positions[positionId].facts.quantity, o)
  }

  predicate ActiveOn(proposals: map<Id, ExitProposal>, positionId: Id, id: Id) {
    id in proposals && proposals[id].positionId == positionId && proposals[id].Active()
  }

  predicate FullOn(proposals: map<Id, ExitProposal>, positionId: Id, id: Id) {
    ActiveOn(proposals, positionId, id) && proposals[id].action == ExitAll
  }

  /** One exit path: an active full exit of a position is its only active proposal. */
  predicate OnePath(proposals: map<Id, ExitProposal>) {
    && (forall id | id in proposals :: proposals[id].proposalId == id)
    && (forall i, j | i in proposals && j in proposals && FullOn(proposals, proposals[i].positionId, i)
                      && ActiveOn(proposals, proposals[i].positionId, j) :: i == j)
  }

  function FullExits(proposals: map<Id, ExitProposal>, positionId: Id): set<Id> {
    set id | id in proposals && FullOn(proposals, positionId, id)
  }

  predicate CreatedBefore(p: ExitProposal, i: Id, q: ExitProposal, j: Id) {
    p.createdAt < q.createdAt || (p.createdAt == q.createdAt && i <= j)
  }

  /** The first active full exit in the order proposals are listed. */
  predicate FirstFull(proposals: map<Id, ExitProposal>, positionId: Id, id: Id) {
    && FullOn(proposals, positionId, id)
    && (forall other | other in proposals && FullOn(proposals, positionId, other) ::
          CreatedBefore(proposals[id], id, proposals[other], other))
  }

  lemma FirstFullUnique(proposals: map<Id, ExitProposal>, positionId: Id, i: Id, j: Id)
    requires FirstFull(proposals, positionId, i) && FirstFull(proposals, positionId, j)
    ensures i == j
  {
    assert CreatedBefore(proposals[i], i, proposals[j], j) && CreatedBefore(proposals[j], j, proposals[i], i);
  }

  lemma {:induction false} EarliestOf(proposals: map<Id, ExitProposal>, ids: set<Id>) returns (first: Id)
    requires ids != {} && forall id | id in ids :: id in proposals
    ensures first in ids && forall id | id in ids :: CreatedBefore(proposals[first], first, proposals[id], id)
    decreases |ids|
  {
    first :| first in ids;
    if ids != {first} {
      var rest := EarliestOf(proposals, ids - {first});
      if !CreatedBefore(proposals[first], first, proposals[rest], rest) { first := rest; }
    }
  }

  /** The full exit `propose_exit` finds, if there is one; under one path it is the only one. */
  function FullOf(proposals: map<Id, ExitProposal>, positionId: Id): (full: Option<Id>)
    ensures full.Some? ==> FirstFull(proposals, positionId, full.value)
    ensures full.None? ==> forall id: Id :: !FullOn(proposals, positionId, id)
    ensures OnePath(proposals) ==> forall id: Id | FullOn(proposals, positionId, id) :: full == Some(id)
  {
    var firsts := set id | id in proposals && FirstFull(proposals, positionId, id);
    SomeFullIsFirst(proposals, positionId, firsts);
    if firsts == {} then None
    else
      assert forall i, j | i in firsts && j in firsts :: i == j by {
        forall i, j | i in firsts && j in firsts ensures i == j { FirstFullUnique(proposals, positionId, i, j); }
      }
      var id :| id in firsts;
      Some(id)
  }

  lemma SomeFullIsFirst(proposals: map<Id, ExitProposal>, positionId: Id, firsts: set<Id>)
    requires firsts == set id | id in proposals && FirstFull(proposals, positionId, id)
    ensures firsts == {} ==> forall id: Id :: !FullOn(proposals, positionId, id)
  {
    if id: Id :| FullOn(proposals, positionId, id) {
      assert id in FullExits(proposals, positionId);
      var first := EarliestOf(proposals, FullExits(proposals, positionId));
      assert FirstFull(proposals, positionId, first);
      assert first in firsts;
    }
  }

  // ------------------------------------------------------------ what a proposal does

  function Coalesced(p: ExitProposal, o: ExitOrder, at: Time): ExitProposal {
    var class_ := if Priority(o.class_) > Priority(p.class_) then o.class_ else p.class_;
    p.(class_ := class_,
       status := if class_ != Strategic then ExitApproved else p.status,
       reasons := if o.reason in p.reasons then p.reasons else p.reasons + [o.reason],
       triggerRuleIds := if o.ruleId.Some? && o.ruleId.value !in p.triggerRuleIds
                         then p.triggerRuleIds + [o.ruleId.value] else p.triggerRuleIds,
       updatedAt := at)
  }

  function Created(id: Id, positionId: Id, o: ExitOrder, at: Time): ExitProposal {
    ExitProposal(id, positionId, o.class_, o.action, o.quantity, o.percent,
                 if o.class_ == Strategic then ExitPending else ExitApproved,
                 [o.reason], if o.ruleId.Some? then [o.ruleId.value] else [], at, at, o.createdBy)
  }

  function Superseded(p: ExitProposal, at: Time): ExitProposal { p.(status := ExitSuperseded, updatedAt := at) }

  /** Every active proposal of the position superseded; all others untouched. */
  function AllSuperseded(proposals: map<Id, ExitProposal>, positionId: Id, at: Time): map<Id, ExitProposal> {
    map id | id in proposals ::
      if ActiveOn(proposals, positionId, id) then Superseded(proposals[id], at) else proposals[id]
  }

  /** An admissible proposal: suppressed or coalesced by a full exit, or created, in which case
      a full exit supersedes the partial ones.  Also names the proposal that answers the caller. */
  function Proposed(proposals: map<Id, ExitProposal>, positionId: Id, o: ExitOrder, newId: Id, at: Time)
    : (map<Id, ExitProposal>, Id)
  {
    match FullOf(proposals, positionId)
    case Some(full) =>
      if o.action != ExitAll then (proposals, full)
      else (proposals[full := Coalesced(proposals[full], o, at)], full)
    case None =>
      var kept := if o.action == ExitAll then AllSuperseded(proposals, positionId, at) else proposals;
      (kept[newId := Created(newId, positionId, o, at)], newId)
  }

  predicate FreshIfNeeded(proposals: map<Id, ExitProposal>, positionId: Id, newId: Id) {
    FullOf(proposals, positionId).None? ==> newId !in proposals
  }

  /** Replacing a proposal by one at least as inactive, for the same position and action, keeps one path. */
  lemma ReplacedKeepsOnePath(proposals: map<Id, ExitProposal>, id: Id, p: ExitProposal)
    requires OnePath(proposals) && id in proposals && p.proposalId == id
    requires p.positionId == proposals[id].positionId && p.action == proposals[id].action
    requires p.Active() ==> proposals[id].Active()
    ensures OnePath(proposals[id := p])
  {
    var after := proposals[id := p];
    forall i, j | i in after && j in after && FullOn(after, after[i].positionId, i) && ActiveOn(after, after[i].positionId, j)
      ensures i == j
    {
      assert FullOn(proposals, proposals[i].positionId, i) && ActiveOn(proposals, proposals[i].positionId, j);
    }
  }

  lemma AddedKeepsOnePath(proposals: map<Id, ExitProposal>, id: Id, p: ExitProposal)
    requires OnePath(proposals) && id !in proposals && p.proposalId == id && p.Active()
    requires forall i | i in proposals && ActiveOn(proposals, p.positionId, i) ::
               p.action != ExitAll && proposals[i].action != ExitAll
    ensures OnePath(proposals[id := p])
  {
    var after := proposals[id := p];
    forall i, j | i in after && j in after && FullOn(after, after[i].positionId, i) && ActiveOn(after, after[i].positionId, j)
      ensures i == j
    {
      if i != id && j != id {
        assert FullOn(proposals, proposals[i].positionId, i) && ActiveOn(proposals, proposals[i].positionId, j);
      }
    }
  }

  /** Proposals that only became inactive keep one path. */
  lemma DeactivatedKeepsOnePath(before: map<Id, ExitProposal>, after: map<Id, ExitProposal>)
    requires OnePath(before) && after.Keys == before.Keys
    requires forall i | i in after ::
      && after[i].proposalId == before[i].proposalId && after[i].positionId == before[i].positionId
      && after[i].action == before[i].action && (after[i].Active() ==> before[i].Active())
    ensures OnePath(after)
  {
    forall i, j | i in after && j in after && FullOn(after, after[i].positionId, i) && ActiveOn(after, after[i].positionId, j)
      ensures i == j
    {
      assert FullOn(before, before[i].positionId, i) && ActiveOn(before, before[i].positionId, j);
    }
  }

  lemma SupersededKeepsOnePath(proposals: map<Id, ExitProposal>, positionId: Id, at: Time)
    requires OnePath(proposals)
    ensures OnePath(AllSuperseded(proposals, positionId, at))
    ensures forall i :: !ActiveOn(AllSuperseded(proposals, positionId, at), positionId, i)
  {
    DeactivatedKeepsOnePath(proposals, AllSuperseded(proposals, positionId, at));
  }

  /** One exit path survives every proposal. */
  lemma ProposedKeepsOnePath(proposals: map<Id, ExitProposal>, positionId: Id, o: ExitOrder, newId: Id, at: Time)
    requires OnePath(proposals) && FreshIfNeeded(proposals, positionId, newId)
    ensures var (after, id) := Proposed(proposals, positionId, o, newId, at);
      && OnePath(after)
      && ActiveOn(after, positionId, id)
      && (forall i | i in proposals :: i in after)
      && (forall i | i in proposals && proposals[i].positionId != positionId :: after[i] == proposals[i])
      && (forall i | i in after && i !in proposals :: i == id && after[i].positionId == positionId)
  {
    match FullOf(proposals, positionId)
    case Some(full) =>
      ReplacedKeepsOnePath(proposals, full, Coalesced(proposals[full], o, at));
    case None =>
      SupersededKeepsOnePath(proposals, positionId, at);
      var kept := if o.action == ExitAll then AllSuperseded(proposals, positionId, at) else proposals;
      forall i | i in kept && ActiveOn(kept, positionId, i)
        ensures o.action != ExitAll && kept[i].action != ExitAll
      {
        assert o.action != ExitAll;
        assert !FullOn(proposals, positionId, i);
      }
      AddedKeepsOnePath(kept, newId, Created(newId, positionId, o, at));
  }

  /** No later proposal demotes a proposal's class, withdraws its approval, drops a reason or a
      trigger; the only way out of the active set is a full exit superseding a partial one. */
  lemma ProposedNeverDemotes(proposals: map<Id, ExitProposal>, positionId: Id, o: ExitOrder, newId: Id, at: Time, i: Id)
    requires FreshIfNeeded(proposals, positionId, newId) && i in proposals
    ensures i in Proposed(proposals, positionId, o, newId, at).0
    ensures var (after, id) := Proposed(proposals, positionId, o, newId, at);
      var p, p' := proposals[i], after[i];
      && p'.positionId == p.positionId && p'.action == p.action
      && Priority(p.class_) <= Priority(p'.class_)
      && p.reasons <= p'.reasons && p.triggerRuleIds <= p'.triggerRuleIds
      && (p.status == ExitApproved && p'.Active() ==> p'.status == ExitApproved)
      && (p.Active() && !p'.Active() ==> p'.status == ExitSuperseded && p.action != ExitAll && o.action == ExitAll)
      && (!p.Active() ==> p' == p)
  {
    match FullOf(proposals, positionId)
    case Some(full) =>
      CoalescedNeverDemotes(proposals[full], o, at);
    case None =>
      assert i != newId;
      assert ActiveOn(proposals, positionId, i) ==> !FullOn(proposals, positionId, i);
  }

  lemma CoalescedNeverDemotes(p: ExitProposal, o: ExitOrder, at: Time)
    requires p.Active()
    ensures var p' := Coalesced(p, o, at);
      && p'.positionId == p.positionId && p'.action == p.action && p'.Active()
      && Priority(p.class_) <= Priority(p'.class_)
      && p.reasons <= p'.reasons && p.triggerRuleIds <= p'.triggerRuleIds
      && (p.status == ExitApproved ==> p'.status == ExitApproved)
  {
  }

  // ----------------------------------------------------------- a batch of triggers

  /** The order `consume_rule_evaluations` proposes for one triggered rule. */
  function OrderFor(e: Evaluation): ExitOrder {
    ExitOrder(ClassOf(e.ruleType), ExitAll, None, None, "POSITION_RULE", e.reason, Some(e.ruleId))
  }

  function Consumed(proposals: map<Id, ExitProposal>, positionId: Id, es: seq<Evaluation>, newId: Id, at: Time, n: nat)
    : (after: map<Id, ExitProposal>)
    requires n <= |es| && FreshIfNeeded(proposals, positionId, newId)
    ensures FreshIfNeeded(after, positionId, newId) && (OnePath(proposals) ==> OnePath(after))
  {
    if n == 0 then proposals
    else
      var before := Consumed(proposals, positionId, es, newId, at, n - 1);
      FullStaysFresh(before, positionId, OrderFor(es[n - 1]), newId, at);
      if es[n - 1].triggered then Proposed(before, positionId, OrderFor(es[n - 1]), newId, at).0 else before
  }

  lemma FullStaysFresh(proposals: map<Id, ExitProposal>, positionId: Id, o: ExitOrder, newId: Id, at: Time)
    requires FreshIfNeeded(proposals, positionId, newId) && o.action == ExitAll
    ensures var (after, id) := Proposed(proposals, positionId, o, newId, at);
      && FullOn(after, positionId, id) && FreshIfNeeded(after, positionId, newId)
      && (OnePath(proposals) ==> OnePath(after))
  {
    var (after, id) := Proposed(proposals, positionId, o, newId, at);
    assert FullOn(after, positionId, id);
    if OnePath(proposals) { ProposedKeepsOnePath(proposals, positionId, o, newId, at); }
  }

  lemma ProposedFull(proposals: map<Id, ExitProposal>, positionId: Id, o: ExitOrder, newId: Id, at: Time)
    requires OnePath(proposals) && FreshIfNeeded(proposals, positionId, newId)
    ensures var (after, id) := Proposed(proposals, positionId, o, newId, at);
      OnePath(after) && (o.action == ExitAll ==> FullOf(after, positionId) == Some(id))
  {
    ProposedKeepsOnePath(proposals, positionId, o, newId, at);
  }

  function TriggeredIn(es: seq<Evaluation>, n: nat): set<Evaluation>
    requires n <= |es|
  {
    set e | e in es[..n] && e.triggered
  }

  /** The full exit's facts as sets: class, approval, reasons and triggering rules after a batch
      are determined by what was there before and by which rules triggered, not in what order. */
  ghost predicate Gathers(before: Option<ExitProposal>, batch: set<Evaluation>, after: ExitProposal) {
    && (forall e | e in batch :: Priority(ClassOf(e.ruleType)) <= Priority(after.class_))
    && (before.Some? ==> Priority(before.value.class_) <= Priority(after.class_))
    && (|| (before.Some? && after.class_ == before.value.class_)
        || (exists e :: e in batch && after.class_ == ClassOf(e.ruleType)))
    && (after.status == ExitApproved <==>
          after.class_ != Strategic || (before.Some? && before.value.status == ExitApproved))
    && (forall reason :: reason in after.reasons <==>
          (before.Some? && reason in before.value.reasons) || exists e :: e in batch && e.reason == reason)
    && (forall rule :: rule in after.triggerRuleIds <==>
          (before.Some? && rule in before.value.triggerRuleIds) || exists e :: e in batch && e.ruleId == rule)
  }

  function Get(proposals: map<Id, ExitProposal>, id: Option<Id>): Option<ExitProposal> {
    if id.Some? && id.value in proposals then Some(proposals[id.value]) else None
  }

  /** One more trigger joins the full exit. */
  lemma GathersOneMore(before: Option<ExitProposal>, batch: set<Evaluation>, p: ExitProposal, e: Evaluation, at: Time)
    requires p.Active() && Gathers(before, batch, p)
    ensures Gathers(before, batch + {e}, Coalesced(p, OrderFor(e), at))
  {
    var p' := Coalesced(p, OrderFor(e), at);
    if p'.class_ != p.class_ { assert e in batch + {e} && p'.class_ == ClassOf(e.ruleType); }
    forall reason
      ensures reason in p'.reasons <==> reason in p.reasons || reason == e.reason
    {
    }
    forall rule
      ensures rule in p'.triggerRuleIds <==> rule in p.triggerRuleIds || rule == e.ruleId
    {
    }
    assert e in batch + {e};
    assert forall f :: f in batch + {e} <==> f in batch || f == e;
  }

  lemma GathersFirst(before: Option<ExitProposal>, e: Evaluation, id: Id, positionId: Id, at: Time)
    requires before.Some? ==> before.value.Active()
    ensures Gathers(before, {e}, if before.Some? then Coalesced(before.value, OrderFor(e), at)
                                 else Created(id, positionId, OrderFor(e), at))
  {
    assert e in {e};
  }

  /** Trigger-batch confluence: a batch with at least one trigger leaves exactly one active
      proposal, a full exit that gathers the old one and all triggers; every other proposal of
      the position is inactive, and other positions are untouched. */
  lemma {:induction false} BatchGathers(proposals: map<Id, ExitProposal>, positionId: Id, es: seq<Evaluation>, newId: Id,
                                        at: Time, n: nat)
    requires n <= |es| && OnePath(proposals) && FreshIfNeeded(proposals, positionId, newId)
    ensures var after := Consumed(proposals, positionId, es, newId, at, n);
      var full := FullOf(proposals, positionId);
      if TriggeredIn(es, n) == {} then after == proposals
      else
        && FullOf(after, positionId) == Some(if full.Some? then full.value else newId)
        && Gathers(Get(proposals, full), TriggeredIn(es, n), after[FullOf(after, positionId).value])
        && (forall i | i in proposals && proposals[i].positionId != positionId :: i in after && after[i] == proposals[i])
  {
    if n == 0 {
    } else {
      BatchGathers(proposals, positionId, es, newId, at, n - 1);
      var before, e := Consumed(proposals, positionId, es, newId, at, n - 1), es[n - 1];
      assert es[..n] == es[..n - 1] + [e];
      if e.triggered {
        assert TriggeredIn(es, n) == TriggeredIn(es, n - 1) + {e};
        ProposedKeepsOnePath(before, positionId, OrderFor(e), newId, at);
        ProposedFull(before, positionId, OrderFor(e), newId, at);
        if TriggeredIn(es, n - 1) == {} {
          assert TriggeredIn(es, n) == {e};
          GathersFirst(Get(proposals, FullOf(proposals, positionId)), e, newId, positionId, at);
        } else {
          GathersOneMore(Get(proposals, FullOf(proposals, positionId)), TriggeredIn(es, n - 1),
                         before[FullOf(before, positionId).value], e, at);
        }
      } else {
        assert TriggeredIn(es, n) == TriggeredIn(es, n - 1);
      }
    }
  }

  /** What a set of triggers gathers is unique up to the order of reasons and rule ids. */
  lemma GathersUnique(before: Option<ExitProposal>, batch: set<Evaluation>, p: ExitProposal, q: ExitProposal)
    requires p.Active() && q.Active() && Gathers(before, batch, p) && Gathers(before, batch, q)
    ensures p.class_ == q.class_ && p.status == q.status
    ensures forall reason :: reason in p.reasons <==> reason in q.reasons
    ensures forall rule :: rule in p.triggerRuleIds <==> rule in q.triggerRuleIds
  {
    assert Priority(p.class_) == Priority(q.class_);
  }

  /** Two orders of the same triggered evaluations leave the same class, approval, reasons and triggers. */
  lemma BatchOrderIrrelevant(proposals: map<Id, ExitProposal>, positionId: Id, es: seq<Evaluation>,
                             es': seq<Evaluation>, newId: Id, at: Time)
    requires OnePath(proposals) && FreshIfNeeded(proposals, positionId, newId)
    requires TriggeredIn(es, |es|) == TriggeredIn(es', |es'|) != {}
    ensures var after, after' := Consumed(proposals, positionId, es, newId, at, |es|),
                                 Consumed(proposals, positionId, es', newId, at, |es'|);
      var full, full' := FullOf(after, positionId), FullOf(after', positionId);
      && full.Some? && full == full'
      && after[full.value].class_ == after'[full.value].class_
      && after[full.value].status == after'[full.value].status
      && (forall reason :: reason in after[full.value].reasons <==> reason in after'[full.value].reasons)
      && (forall rule :: rule in after[full.value].triggerRuleIds <==> rule in after'[full.value].triggerRuleIds)
  {
    BatchGathers(proposals, positionId, es, newId, at, |es|);
    BatchGathers(proposals, positionId, es', newId, at, |es'|);
    var id := if FullOf(proposals, positionId).Some? then FullOf(proposals, positionId).value else newId;
    GathersUnique(Get(proposals, FullOf(proposals, positionId)), TriggeredIn(es, |es|),
                  Consumed(proposals, positionId, es, newId, at, |es|)[id],
                  Consumed(proposals, positionId, es', newId, at, |es'|)[id]);
  }

  // --------------------------------------------------------------- the exit monitor

  function SatisfiedOn(proposals: map<Id, ExitProposal>, positionId: Id, at: Time): map<Id, ExitProposal> {
    map id | id in proposals ::
      if ActiveOn(proposals, positionId, id) then proposals[id].(status := SatisfiedByBroker, updatedAt := at)
      else proposals[id]
  }

  /** The first n listed proposals rewritten to `status`: what both closing loops do. */
  function Rewritten(proposals: map<Id, ExitProposal>, order: seq<Id>, status: ExitStatus, at: Time, n: nat)
    : map<Id, ExitProposal>
    requires n <= |order| && (forall id | id in order :: id in proposals)
  {
    if n == 0 then proposals
    else Rewritten(proposals, order, status, at, n - 1)
         [order[n - 1] := proposals[order[n - 1]].(status := status, updatedAt := at)]
  }

  lemma {:induction false} RewrittenAt(proposals: map<Id, ExitProposal>, order: seq<Id>, status: ExitStatus, at: Time,
                                       n: nat, id: Id)
    requires n <= |order| && (forall i | i in order :: i in proposals)
    ensures id in Rewritten(proposals, order, status, at, n) <==> id in proposals
    ensures id in proposals ==>
      Rewritten(proposals, order, status, at, n)[id] ==
      if id in order[..n] then proposals[id].(status := status, updatedAt := at) else proposals[id]
  {
    if n > 0 {
      assert order[..n] == order[..n - 1] + [order[n - 1]];
      assert order[n - 1] in order;
      RewrittenAt(proposals, order, status, at, n - 1, id);
    }
  }

  lemma AllRewritten(proposals: map<Id, ExitProposal>, order: seq<Id>, status: ExitStatus, at: Time,
                     target: map<Id, ExitProposal>)
    requires forall i | i in order :: i in proposals
    requires target == map id | id in proposals ::
               if id in order then proposals[id].(status := status, updatedAt := at) else proposals[id]
    ensures Rewritten(proposals, order, status, at, |order|) == target
  {
    assert order[..|order|] == order;
    forall id
      ensures id in Rewritten(proposals, order, status, at, |order|) <==> id in target
      ensures id in target ==> Rewritten(proposals, order, status, at, |order|)[id] == target[id]
    {
      RewrittenAt(proposals, order, status, at, |order|, id);
    }
  }

  function ActiveProposals(proposals: map<Id, ExitProposal>, positionId: Id): set<Id> {
    set id | id in proposals && ActiveOn(proposals, positionId, id)
  }

  class ExitMonitor {
    const repository: Repository

    constructor (repository: Repository)
      ensures this.repository == repository
    {
      this.repository := repository;
    }

    /** Proposes one exit; `newId` is the identifier a created proposal gets. */
    method ProposeExit(positionId: Id, o: ExitOrder, newId: Id, at: Time) returns (r: Outcome<ExitProposal>)
      requires FreshIfNeeded(repository.exitProposals, positionId, newId)
      modifies repository`exitProposals
      ensures r.Returned? <==> Admissible(repository.positions, positionId, o)
      ensures r.Raised? ==> repository.exitProposals == old(repository.exitProposals)
      ensures r.Returned? ==>
        var (after, id) := Proposed(old(repository.exitProposals), positionId, o, newId, at);
        repository.exitProposals == after && r.value == after[id]
    {
      if !OpenManaged(repository.positions, positionId) { return Raised; }
      if Blank(o.createdBy) || (o.reason.Text? && Blank(o.reason.text)) { return Raised; }
      if !ValidAction(repository.positions[positionId].facts.quantity, o) { return Raised; }
      ghost var before := repository.exitProposals;
      var active := Rules.ManagementRuleEngine.ListIds(ActiveProposals(repository.exitProposals, positionId));
      var full := FindFull(active);
      FullFound(before, positionId, active, full);
      if full.Some? && o.action != ExitAll {
        return Returned(repository.exitProposals[full.value]);
      }
      if full.Some? {
        var updated := Coalesced(repository.exitProposals[full.value], o, at);
        repository.exitProposals := repository.exitProposals[full.value := updated];
        return Returned(updated);
      }
      if o.action == ExitAll {
        Rewrite(active, ExitSuperseded, at);
        AllRewritten(before, active, ExitSuperseded, at, AllSuperseded(before, positionId, at));
      }
      var created := Created(newId, positionId, o, at);
      repository.exitProposals := repository.exitProposals[newId := created];
      return Returned(created);
    }

    /** The full exit that comes first in the repository's listing, by creation time, then id. */
    method FindFull(active: seq<Id>) returns (full: Option<Id>)
      requires forall id | id in active :: id in repository.exitProposals
      ensures match full
        case Some(id) =>
          && id in active && repository.exitProposals[id].action == ExitAll
          && (forall other | other in active && repository.exitProposals[other].action == ExitAll ::
                CreatedBefore(repository.exitProposals[id], id, repository.exitProposals[other], other))
        case None => forall id | id in active :: repository.exitProposals[id].action != ExitAll
    {
      full := None;
      for i := 0 to |active|
        invariant full.Some? ==> full.value in active && repository.exitProposals[full.value].action == ExitAll
        invariant forall j | 0 <= j < i && repository.exitProposals[active[j]].action == ExitAll ::
                    full.Some? && CreatedBefore(repository.exitProposals[full.value], full.value,
                                                repository.exitProposals[active[j]], active[j])
      {
        var id := active[i];
        if repository.exitProposals[id].action == ExitAll {
          if full.None? || CreatedBefore(repository.exitProposals[id], id, repository.exitProposals[full.value], full.value) {
            full := Some(id);
          }
        }
      }
    }

    /** Gives every listed proposal a new status, one save at a time. */
    method Rewrite(order: seq<Id>, status: ExitStatus, at: Time)
      requires forall id | id in order :: id in repository.exitProposals
      modifies repository`exitProposals
      ensures repository.exitProposals == Rewritten(old(repository.exitProposals), order, status, at, |order|)
    {
      ghost var before := repository.exitProposals;
      var listed := repository.exitProposals;
      for i := 0 to |order|
        invariant repository.exitProposals == Rewritten(before, order, status, at, i)
      {
        var updated := listed[order[i]].(status := status, updatedAt := at);
        repository.exitProposals := repository.exitProposals[order[i] := updated];
      }
    }

    /** Turns every triggered evaluation into a full-exit proposal, in order. */
    method ConsumeRuleEvaluations(positionId: Id, es: seq<Evaluation>, newId: Id, at: Time) returns (r: Outcome<()>)
      requires FreshIfNeeded(repository.exitProposals, positionId, newId)
      requires forall e | e in es && e.triggered :: !e.reason.Text?
      modifies repository`exitProposals
      ensures r.Returned? <==> OpenManaged(repository.positions, positionId) || (forall e | e in es :: !e.triggered)
      ensures r.Raised? ==> repository.exitProposals == old(repository.exitProposals)
      ensures r.Returned? ==>
        repository.exitProposals == Consumed(old(repository.exitProposals), positionId, es, newId, at, |es|)
    {
      ghost var before := repository.exitProposals;
      for i := 0 to |es|
        invariant repository.exitProposals == Consumed(before, positionId, es, newId, at, i)
        invariant OpenManaged(repository.positions, positionId) || (forall j | 0 <= j < i :: !es[j].triggered)
      {
        if es[i].triggered {
          assert es[i] in es;
          NotTriggered(before, positionId, es, newId, at, i);
          RuleOrderAdmissible(repository.positions, positionId, es[i]);
          var proposed := ProposeExit(positionId, OrderFor(es[i]), newId, at);
          if proposed.Raised? { return Raised; }
        }
      }
      return Returned(());
    }

    /** A DAY position at or past its cut-off gets a deterministic full exit. */
    method DayEndReview(positionId: Id, newId: Id, at: Time, cutoffAt: Time) returns (r: Outcome<Option<ExitProposal>>)
      requires FreshIfNeeded(repository.exitProposals, positionId, newId)
      modifies repository`exitProposals
      ensures r.Returned? <==>
        OpenManaged(repository.positions, positionId) && positionId in repository.managementProfiles
      ensures var due := r.Returned? && repository.managementProfiles[positionId].tradeType == Day && at >= cutoffAt;
        repository.exitProposals ==
          if due then Proposed(old(repository.exitProposals), positionId, DayEndOrder(cutoffAt), newId, at).0
          else old(repository.exitProposals)
    {
      if !OpenManaged(repository.positions, positionId) { return Raised; }
      if positionId !in repository.managementProfiles { return Raised; }
      if repository.managementProfiles[positionId].tradeType != Day || at < cutoffAt { return Returned(None); }
      DayEndAdmissible(repository.positions, positionId, cutoffAt);
      var proposed := ProposeExit(positionId, DayEndOrder(cutoffAt), newId, at);
      if proposed.Raised? { return Raised; }
      return Returned(Some(proposed.value));
    }

    /** Changes holding intent only: trade type, horizon and who asked. */
    method ConvertPosition(positionId: Id, tradeType: TradeType, horizonAt: Time, at: Time, who: string, reason: string)
      returns (r: Outcome<ManagementProfile>)
      modifies repository`managementProfiles
      ensures r.Returned? <==>
        && OpenManaged(repository.positions, positionId) && positionId in old(repository.managementProfiles)
        && !Blank(who) && !Blank(reason) && at <= horizonAt
        && (old(repository.managementProfiles)[positionId].instrumentType == Cash <==>
              old(repository.managementProfiles)[positionId].expiryDate.None?)
      ensures r.Returned? ==>
        && r.value == old(repository.managementProfiles)[positionId].(tradeType := tradeType, horizonAt := horizonAt,
             activatedAt := at, activatedBy := who, reason := reason)
        && repository.managementProfiles == old(repository.managementProfiles)[positionId := r.value]
      ensures r.Raised? ==> repository.managementProfiles == old(repository.managementProfiles)
    {
      if !OpenManaged(repository.positions, positionId) { return Raised; }
      if positionId !in repository.managementProfiles { return Raised; }
      var updated := repository.managementProfiles[positionId].(tradeType := tradeType, horizonAt := horizonAt,
        activatedAt := at, activatedBy := who, reason := reason);
      if !updated.Valid() { return Raised; }
      repository.managementProfiles := repository.managementProfiles[positionId := updated];
      return Returned(updated);
    }

    /** Broker truth says the exposure is gone: every active proposal is satisfied. */
    method ReconcileWithBroker(positionId: Id, at: Time)
      modifies repository`exitProposals
      ensures repository.exitProposals ==
        if positionId in repository.positions && !repository.positions[positionId].IsOpen()
        then SatisfiedOn(old(repository.exitProposals), positionId, at) else old(repository.exitProposals)
    {
      if positionId !in repository.positions || repository.positions[positionId].IsOpen() { return; }
      ghost var before := repository.exitProposals;
      var active := Rules.ManagementRuleEngine.ListIds(ActiveProposals(repository.exitProposals, positionId));
      Rewrite(active, SatisfiedByBroker, at);
      AllRewritten(before, active, SatisfiedByBroker, at, SatisfiedOn(before, positionId, at));
    }
  }

  /** The monitor's own orders are never refused for an open managed position. */
  lemma RuleOrderAdmissible(positions: map<Id, Position>, positionId: Id, e: Evaluation)
    requires !e.reason.Text?
    ensures Admissible(positions, positionId, OrderFor(e)) <==> OpenManaged(positions, positionId)
  {
    assert OrderFor(e).createdBy[0] == 'P';
  }

  lemma DayEndAdmissible(positions: map<Id, Position>, positionId: Id, cutoffAt: Time)
    ensures Admissible(positions, positionId, DayEndOrder(cutoffAt)) <==> OpenManaged(positions, positionId)
  {
    assert DayEndOrder(cutoffAt).createdBy[0] == 'D';
  }

  function DayEndOrder(cutoffAt: Time): ExitOrder {
    ExitOrder(Deterministic, ExitAll, None, None, "DAY_EOD_POLICY", TimeReached(cutoffAt), None)
  }

  lemma FullFound(proposals: map<Id, ExitProposal>, positionId: Id, active: seq<Id>, full: Option<Id>)
    requires Rules.EnumeratesIds(active, ActiveProposals(proposals, positionId))
    requires match full
      case Some(id) =>
        && id in active && proposals[id].action == ExitAll
        && (forall other | other in active && proposals[other].action == ExitAll ::
              CreatedBefore(proposals[id], id, proposals[other], other))
      case None => forall id | id in active :: proposals[id].action != ExitAll
    ensures full == FullOf(proposals, positionId)
  {
    assert forall id: Id :: FullOn(proposals, positionId, id) ==> id in active;
    if full.Some? {
      assert FirstFull(proposals, positionId, full.value);
      FirstFullUnique(proposals, positionId, full.value, FullOf(proposals, positionId).value);
    }
  }

  /** Before the first trigger nothing has changed. */
  lemma {:induction false} NotTriggered(proposals: map<Id, ExitProposal>, positionId: Id, es: seq<Evaluation>, newId: Id,
                                        at: Time, n: nat)
    requires n <= |es| && FreshIfNeeded(proposals, positionId, newId)
    ensures (forall j | 0 <= j < n :: !es[j].triggered) ==> Consumed(proposals, positionId, es, newId, at, n) == proposals
  {
    if n > 0 { NotTriggered(proposals, positionId, es, newId, at, n - 1); }
  }
}
