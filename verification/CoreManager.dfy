/** The coordinating core.  Its calls hold one lock, own the broker and market contexts and
    gate every handoff to Module M; they are proved to be steps of the run models. */
module CoreManager {
  import opened Domain
  import opened Store
  import opened BrokerSimulator
  import opened Engine
  import opened Approval
  import opened BrokerTruth
  import opened CoreRuns
  import P = Positions
  import R = Rules
  import M = ExitMonitor
  import K = Risk
  import Q = Requests
  import D = ExitRuns
  import X = ExecutionRuns

  // --------------------------------------------- proposals after a reconcile

  /** The store after snapshot `s` was accepted: its rows merged, exits it closed satisfied. */
  predicate AcceptedSnapshot(before: map<Id, Position>, after: map<Id, Position>, proposals: map<Id, ExitProposal>,
                             proposals': map<Id, ExitProposal>, s: AccountSnapshot, firstId: Id)
  {
    && D.ReconcileResult(before, after, s, IdRange(firstId, |s.rows|))
    && proposals' == D.ClosedSatisfied(proposals, after, s.broker, s.observedAt)
  }

  /** The loop of the reconcile: the first n listed positions are looked at. */
  function SatisfiedUpTo(proposals: map<Id, ExitProposal>, positions: map<Id, Position>, order: seq<Id>, at: Time, n: nat)
    : map<Id, ExitProposal>
    requires n <= |order|
  {
    if n == 0 then proposals
    else
      var before := SatisfiedUpTo(proposals, positions, order, at, n - 1);
      if order[n - 1] in positions && !positions[order[n - 1]].IsOpen()
      then M.SatisfiedOn(before, order[n - 1], at) else before
  }

  lemma {:induction false} SatisfiedUpToAt(proposals: map<Id, ExitProposal>, positions: map<Id, Position>, order: seq<Id>,
                                           at: Time, n: nat, id: Id)
    requires n <= |order|
    ensures id in SatisfiedUpTo(proposals, positions, order, at, n) <==> id in proposals
    ensures id in proposals ==>
      SatisfiedUpTo(proposals, positions, order, at, n)[id] ==
        var p := proposals[id];
        if p.Active() && p.positionId in order[..n] && p.positionId in positions && !positions[p.positionId].IsOpen()
        then p.(status := SatisfiedByBroker, updatedAt := at) else p
  {
    if n > 0 {
      SatisfiedUpToAt(proposals, positions, order, at, n - 1, id);
      assert order[..n] == order[..n - 1] + [order[n - 1]];
    }
  }

  lemma AllSatisfied(proposals: map<Id, ExitProposal>, positions: map<Id, Position>, broker: BrokerName, order: seq<Id>,
                     at: Time)
    requires forall id :: id in order <==> id in positions && positions[id].broker == broker
    ensures SatisfiedUpTo(proposals, positions, order, at, |order|) == D.ClosedSatisfied(proposals, positions, broker, at)
  {
    assert order[..|order|] == order;
    forall id
      ensures id in SatisfiedUpTo(proposals, positions, order, at, |order|) <==> id in proposals
      ensures id in proposals ==>
        SatisfiedUpTo(proposals, positions, order, at, |order|)[id] == D.ClosedSatisfied(proposals, positions, broker, at)[id]
    {
      SatisfiedUpToAt(proposals, positions, order, at, |order|, id);
    }
  }

  /** The exits the loop is about to satisfy at the n-th listed position, in some order. */
  ghost predicate ListsClosing(proposals: map<Id, ExitProposal>, positions: map<Id, Position>, order: seq<Id>, n: nat,
                         active: seq<Id>)
  {
    if n < |order| && order[n] in positions && !positions[order[n]].IsOpen()
    then R.EnumeratesIds(active, M.ActiveProposals(proposals, order[n])) else active == []
  }

  /** What the loop has looked at when it dies at position n with k of its exits saved. */
  function LookedAt(proposals: map<Id, ExitProposal>, order: seq<Id>, n: nat, active: seq<Id>, k: nat): set<Id>
    requires n <= |order| && k <= |active|
  {
    set id | id in proposals && (proposals[id].positionId in order[..n] || id in active[..k])
  }

  lemma StillActive(proposals: map<Id, ExitProposal>, positions: map<Id, Position>, order: seq<Id>, at: Time, n: nat,
                    active: seq<Id>, id: Id)
    requires n <= |order| && id in active
    requires ListsClosing(SatisfiedUpTo(proposals, positions, order, at, n), positions, order, n, active)
    ensures n < |order| && id in SatisfiedUpTo(proposals, positions, order, at, n)
    ensures id in proposals && M.ActiveOn(proposals, order[n], id) && order[n] in positions && !positions[order[n]].IsOpen()
    ensures SatisfiedUpTo(proposals, positions, order, at, n)[id] == proposals[id]
  {
    assert id in M.ActiveProposals(SatisfiedUpTo(proposals, positions, order, at, n), order[n]);
    SatisfiedUpToAt(proposals, positions, order, at, n, id);
  }

  /** Wherever the loop dies, at the n-th position with k of its exits saved, the store is that of
      the cut step for the exits looked at by then. */
  lemma LoopCutIsSatisfied(proposals: map<Id, ExitProposal>, positions: map<Id, Position>, broker: BrokerName,
                           order: seq<Id>, at: Time, n: nat, active: seq<Id>, k: nat)
    requires n <= |order| && (forall id | id in order :: id in positions && positions[id].broker == broker)
    requires k <= |active|
    requires ListsClosing(SatisfiedUpTo(proposals, positions, order, at, n), positions, order, n, active)
    ensures forall id | id in active :: id in SatisfiedUpTo(proposals, positions, order, at, n)
    ensures M.Rewritten(SatisfiedUpTo(proposals, positions, order, at, n), active, SatisfiedByBroker, at, k)
         == D.Satisfied(proposals, positions, LookedAt(proposals, order, n, active, k), broker, at)
  {
    var before, looked := SatisfiedUpTo(proposals, positions, order, at, n), LookedAt(proposals, order, n, active, k);
    forall id | id in active ensures id in before { StillActive(proposals, positions, order, at, n, active, id); }
    forall id
      ensures id in M.Rewritten(before, active, SatisfiedByBroker, at, k) <==> id in proposals
      ensures id in proposals ==>
        M.Rewritten(before, active, SatisfiedByBroker, at, k)[id] == D.Satisfied(proposals, positions, looked, broker, at)[id]
    {
      M.RewrittenAt(before, active, SatisfiedByBroker, at, k, id);
      SatisfiedUpToAt(proposals, positions, order, at, n, id);
      if id in active[..k] { StillActive(proposals, positions, order, at, n, active, id); }
      if id in proposals && proposals[id].positionId in order[..n] { assert proposals[id].positionId in order; }
    }
  }

  // -------------------------------------------------------------- open positions

  ghost predicate ListsOpen(listing: seq<Position>, positions: map<Id, Position>) {
    && (forall i | 0 <= i < |listing| ::
          listing[i].IsOpen() && listing[i].positionId in positions && positions[listing[i].positionId] == listing[i])
    && (forall i, j | 0 <= i < j < |listing| :: listing[i].positionId != listing[j].positionId)
    && (forall id | id in positions && positions[id].IsOpen() :: positions[id] in listing)
  }

  /** With one broker, the stored open positions are the open book. */
  lemma ListingIsOpenBook(listing: seq<Position>, positions: map<Id, Position>, broker: BrokerName)
    requires P.Coherent(positions) && ListsOpen(listing, positions)
    requires forall id | id in positions :: positions[id].broker == broker
    ensures OpenListing(listing, P.ByKey(positions, broker))
  {
    var book := P.ByKey(positions, broker);
    P.ByKeyIndexes(positions, broker);
    forall i | 0 <= i < |listing|
      ensures listing[i].IsOpen() && listing[i].key in book && book[listing[i].key] == listing[i]
    {
      assert positions[listing[i].positionId].broker == broker;
    }
    forall key | key in book && book[key].IsOpen() ensures book[key] in listing && book[key].key == key {
      assert positions[book[key].positionId] == book[key];
    }
  }

  // ------------------------------------------------------------------ Core calls

  function DeliveryOf(reading: Outcome<AccountSnapshot>, firstId: Id): Delivery {
    match reading case Raised => Outage case Returned(s) => Delivery.Snapshot(s, firstId)
  }

  /** The steps of a deploy that the gates let through. */
  function DeploySteps(w: World, id: Id, at: Time, now: Time): seq<Step> {
    if Addressed(w, id) && w.requests[id].status != RequestStatus.Ready
    then [Execution(X.StartReconcile(id)), Execution(X.FinishRead(at))]
    else [DeployStarted(id, at), Execution(X.CallBroker(now)), Execution(X.FinishDeploy(now))]
  }

  lemma RunOfTwo(c: Core, first: Step, second: Step)
    ensures Run(c, [first, second]) == Next(Next(c, first), second)
  {
    assert [first, second][1..] == [second] && [second][1..] == [];
    assert Run(Next(c, first), [second]) == Run(Next(Next(c, first), second), []);
  }

  lemma RunOfThree(c: Core, first: Step, second: Step, third: Step)
    ensures Run(c, [first, second, third]) == Next(Next(Next(c, first), second), third)
  {
    assert [first, second, third][1..] == [second, third];
    RunOfTwo(Next(c, first), second, third);
  }

  lemma ExecutionStep(c: Core, s: X.Step)
    requires !s.Create? && !s.StartDeploy? && !s.Crashed?
    requires s.StartReconcile? || s.StartCancel? ==> c.exec.pending.Idle?
    ensures Next(c, Execution(s)) == c.(exec := X.Next(c.exec, s))
  {
  }

  lemma DeployStep(c: Core, id: Id, at: Time)
    requires c.exec.pending.Idle? && id in c.exec.requests
    requires c.exec.requests[id].purpose == Purpose.Entry && Addressed(c.exec, id) ==>
      EntryGate(c.account.ctx, c.market, c.decisions, c.profiles, c.exec.requests[id])
    ensures Next(c, DeployStarted(id, at)) == c.(exec := DurableWrite(c.exec, id, at))
  {
  }

  /** A deploy the entry gate lets through is a run of Core steps. */
  lemma DeployIsACoreRun(c: Core, id: Id, at: Time, now: Time)
    requires c.exec.pending.Idle? && id in c.exec.requests
    requires c.exec.requests[id].status == RequestStatus.Ready && c.exec.requests[id].purpose == Purpose.Entry ==>
      EntryGate(c.account.ctx, c.market, c.decisions, c.profiles, c.exec.requests[id])
    ensures Run(c, DeploySteps(c.exec, id, at, now)) == c.(exec := Deployed(c.exec, id, at, now))
  {
    if Addressed(c.exec, id) && c.exec.requests[id].status != RequestStatus.Ready {
      RunOfTwo(c, Execution(X.StartReconcile(id)), Execution(X.FinishRead(at)));
      ExecutionStep(c, X.StartReconcile(id));
      ExecutionStep(c.(exec := Fetch(c.exec, id)), X.FinishRead(at));
    } else {
      DeployStep(c, id, at);
      SubmissionSteps(c.(exec := DurableWrite(c.exec, id, at)), now);
      RunOfThree(c, DeployStarted(id, at), Execution(X.CallBroker(now)), Execution(X.FinishDeploy(now)));
    }
  }

  lemma SubmissionSteps(c: Core, now: Time)
    ensures Next(Next(c, Execution(X.CallBroker(now))), Execution(X.FinishDeploy(now)))
         == c.(exec := FinalWrite(BrokerCall(c.exec, now), now))
  {
    ExecutionStep(c, X.CallBroker(now));
    ExecutionStep(c.(exec := BrokerCall(c.exec, now)), X.FinishDeploy(now));
  }

  lemma DeliveryStep(c: Core, d: Delivery)
    requires c.exec.pending.Idle? && (d.Snapshot? ==> P.DistinctRows(d.s.rows))
    ensures Next(c, BrokerDelivered(d))
         == c.(account := Deliver(c.account, c.exec.sim.name, d),
               last := if Accepts(c.account.ctx, c.exec.sim.name, d) then Some(d.s) else c.last,
               touches := TouchesAfter(c.touches, c.account.ctx, c.exec.sim.name, d))
  {
  }

  lemma AcceptedAccount(a: Account, name: BrokerName, s: AccountSnapshot, firstId: Id)
    requires Accepts(a.ctx, name, Delivery.Snapshot(s, firstId))
    ensures Deliver(a, name, Delivery.Snapshot(s, firstId))
         == Account(P.Merge(a.book, s, IdRange(firstId, |s.rows|)), AcceptedContext(s))
  {
  }

  /** An accepted snapshot, as the position manager merges it, is one step of the entry-side runs. */
  lemma AcceptIsACoreStep(c: Core, before: map<Id, Position>, after: map<Id, Position>, s: AccountSnapshot, firstId: Id)
    requires D.ReconcileResult(before, after, s, IdRange(firstId, |s.rows|))
    requires c.exec.pending.Idle? && c.account.book == P.ByKey(before, c.exec.sim.name)
    requires P.DistinctRows(s.rows) && Accepts(c.account.ctx, c.exec.sim.name, Delivery.Snapshot(s, firstId))
    ensures Next(c, BrokerDelivered(Delivery.Snapshot(s, firstId)))
         == c.(account := Account(P.ByKey(after, c.exec.sim.name), AcceptedContext(s)), last := Some(s), touches := map[])
  {
    var d := Delivery.Snapshot(s, firstId);
    assert Next(c, BrokerDelivered(d)) == c.(account := Deliver(c.account, c.exec.sim.name, d), last := Some(s), touches := map[]) by {
      DeliveryStep(c, d);
    }
    AcceptedAccount(c.account, c.exec.sim.name, s, firstId);
    assert s.broker == c.exec.sim.name;
  }

  /** And one step of the position-side runs. */
  lemma AcceptIsADeskStep(d: D.Desk, after: map<Id, Position>, s: AccountSnapshot, ids: seq<Id>)
    requires D.ReconcileResult(d.positions, after, s, ids)
    ensures D.Next(d, D.BrokerMoved(s.broker, after, s.observedAt))
         == d.(positions := after, proposals := D.ClosedSatisfied(d.proposals, after, s.broker, s.observedAt),
               orphans := D.StillOrphaned(d.orphans, d.proposals, after, s.broker))
  {
    D.ReconcileIsBrokerMove(d.positions, after, s, ids);
  }

  /** Between any two saves of the merge, the store is what a cut delivery leaves of the book. */
  lemma CutIsACoreStep(c: Core, before: map<Id, Position>, after: map<Id, Position>, s: AccountSnapshot, firstId: Id,
                       cut: P.Cut)
    requires D.CutResult(before, after, s, IdRange(firstId, |s.rows|), cut)
    requires c.exec.pending.Idle? && c.account.book == P.ByKey(before, c.exec.sim.name)
    requires Timely(c.account.ctx, c.exec.sim.name, s)
    ensures Next(c, BrokerDelivered(Interrupted(s, firstId, cut)))
         == c.(account := Account(P.ByKey(after, c.exec.sim.name), Restarted(c.account.ctx)),
               touches := c.touches + Touched(s, cut))
  {
    CutStep(c, s, firstId, cut);
    assert s.broker == c.exec.sim.name;
  }

  lemma CutStep(c: Core, s: AccountSnapshot, firstId: Id, cut: P.Cut)
    requires P.CutFits(s, cut) && c.exec.pending.Idle? && Timely(c.account.ctx, c.exec.sim.name, s)
    ensures Next(c, BrokerDelivered(Interrupted(s, firstId, cut)))
         == c.(account := Account(P.CutBook(c.account.book, s, IdRange(firstId, |s.rows|), cut), Restarted(c.account.ctx)),
               touches := c.touches + Touched(s, cut))
  {
    DeliveryStep(c, Interrupted(s, firstId, cut));
  }

  /** A Risk evaluation over all open positions is one step of the entry-side runs. */
  lemma RiskIsACoreStep(c: Core, listing: seq<Position>, id: Id, proposal: RiskProposal, decisionId: Id, at: Time)
    requires c.exec.pending.Idle? && OpenListing(listing, c.account.book)
    requires id in c.intents && c.intents[id].intentId == id && c.intents[id].state == ReadyForRisk
    requires proposal.intentId == id && proposal.Valid() && decisionId !in c.decisions
    ensures var profiles := K.WithBootstrap(c.profiles);
      var d := K.Decide(decisionId, K.ActiveProfile(profiles), proposal, listing, c.account.ctx, at);
      Next(c, RiskEvaluated(id, proposal, decisionId, listing, at, 2))
        == c.(profiles := profiles, decisions := c.decisions[decisionId := d], saw := c.saw[decisionId := SightOf(c)],
              intents := c.intents[id := c.intents[id].(state := K.StateAfterRisk(d), updatedAt := at)])
  {
    assert Next(c, RiskEvaluated(id, proposal, decisionId, listing, at, 2))
        == RiskStep(c, id, proposal, decisionId, listing, at, 2);
    var profiles := K.WithBootstrap(c.profiles);
    var d := K.Decide(decisionId, K.ActiveProfile(profiles), proposal, listing, c.account.ctx, at);
  }

  lemma KeyUnused(w: World, key: IdempotencyKey)
    ensures Q.WithKey(w.requests, key) == {} <==> key !in X.Keys(w)
  {
    if key in X.Keys(w) {
      var id :| id in w.requests && w.requests[id].key == key;
      assert id in Q.WithKey(w.requests, key);
    }
    if Q.WithKey(w.requests, key) != {} {
      var id :| id in Q.WithKey(w.requests, key);
      assert w.requests[id].key == key;
    }
  }

  /** A handoff the builder makes behind the gates is one step of the entry-side runs. */
  lemma EntryHandoffIsACoreStep(c: Core, intentId: Id, decisionId: Id, requestId: Id, route: Q.OrderRoute,
                                after: map<Id, ExecutionRequest>, r: ExecutionRequest)
    requires c.exec.pending.Idle? && requestId !in c.exec.requests
    requires Q.EntryAuthorised(c.intents, c.decisions, c.profiles, intentId, decisionId)
    requires c.intents[intentId].intentId == intentId && c.decisions[decisionId].decisionId == decisionId
    requires PrepareGate(c.account.ctx, c.market, route.broker, c.decisions[decisionId])
    requires var made := Q.EntryRequest(requestId, c.intents[intentId], c.decisions[decisionId], route);
      made.Valid() && Q.StoredOnce(c.exec.requests, after, made, r)
    ensures Next(c, EntryPrepared(intentId, decisionId, requestId, route)) == c.(exec := c.exec.(requests := after))
  {
    KeyUnused(c.exec, EntryKey(intentId, decisionId));
  }

  lemma ExitHandoffIsACoreStep(c: Core, made: ExecutionRequest, after: map<Id, ExecutionRequest>, r: ExecutionRequest)
    requires c.exec.pending.Idle? && made.requestId !in c.exec.requests
    requires made.purpose == Purpose.Exit && made.key.ExitKey? && made.status == RequestStatus.Ready
    requires made.filledQuantity == 0 && made.brokerOrderId.None? && made.lastBrokerObservedAt.None?
    requires Q.WithKey(c.exec.requests, made.key) == {} ==> made.Valid()
    requires Q.StoredOnce(c.exec.requests, after, made, r)
    ensures Next(c, ExitPrepared(made)) == c.(exec := c.exec.(requests := after))
  {
    KeyUnused(c.exec, made.key);
  }

  class CoreTMManager {
    const repository: Repository
    const mode: ExecutionMode
    const armed: bool
    const positions: P.PositionManager
    const rules: R.ManagementRuleEngine
    const exits: M.ExitMonitor
    const risk: K.RiskEngine
    const requests: Q.ExecutionRequestBuilder
    const execution: ExecutionEngine
    const approval: SemiAutoApprovalCoordinator
    var context: BrokerContext
    var market: MarketStatus
    ghost var last: Option<AccountSnapshot>
    ghost var touches: map<PositionKey, Option<Facts>>
    ghost var triggered: seq<Id>
    ghost var lost: set<Id>
    ghost var orphans: set<Id>
    ghost var unprofiled: set<Id>

    /** Every component works on the one repository. */
    ghost predicate Wired() {
      && positions.repository == repository && rules.repository == repository && exits.repository == repository
      && risk.repository == repository && requests.repository == repository && execution.repository == repository
      && approval.repository == repository
    }

    constructor (repository: Repository, mode: ExecutionMode, armed: bool, ttl: int)
      requires ttl > 0
      ensures Wired() && this.repository == repository && this.mode == mode && this.armed == armed
      ensures approval.ttl == ttl
      ensures context == EMPTY_CONTEXT && market == MarketFresh && last == None && touches == map[]
      ensures triggered == [] && lost == {} && orphans == {} && unprofiled == {}
    {
      this.repository, this.mode, this.armed := repository, mode, armed;
      positions := new P.PositionManager(repository);
      rules := new R.ManagementRuleEngine(repository);
      exits := new M.ExitMonitor(repository);
      risk := new K.RiskEngine(repository);
      requests := new Q.ExecutionRequestBuilder(repository);
      execution := new ExecutionEngine(repository);
      approval := new SemiAutoApprovalCoordinator(repository, ttl);
      context, market := EMPTY_CONTEXT, MarketFresh;
      last, touches := None, map[];
      triggered, lost, orphans, unprofiled := [], {}, {}, {};
    }

    /** Core as a state of the position-side run model. */
    ghost function DeskView(): D.Desk
      reads this, repository
    {
      D.Desk(repository.positions, repository.managementProfiles, repository.managementRules,
             repository.exitProposals, triggered, lost, orphans, unprofiled)
    }

    // ------------------------------------------------------------- broker truth

    /** A failed or foreign reading suspends broker-dependent actions; a replay only confirms; an
        older snapshot is ignored; anything newer replaces the book and satisfies exits it closed. */
    method ReconcileBrokerTruth(name: BrokerName, reading: Outcome<AccountSnapshot>, firstId: Id) returns (r: Outcome<()>)
      requires Wired() && P.Coherent(repository.positions)
      requires reading.Returned? ==> P.Fresh(IdRange(firstId, |reading.value.rows|), repository.positions)
      modifies this`context, this`last, this`touches, repository`positions, repository`exitProposals
      ensures r.Returned? <==> reading.Returned? && reading.value.broker == name
      ensures context == ContextAfter(old(context), name, DeliveryOf(reading, firstId))
      ensures if Accepts(old(context), name, DeliveryOf(reading, firstId))
              then last == Some(reading.value) && touches == map[]
                   && AcceptedSnapshot(old(repository.positions), repository.positions, old(repository.exitProposals),
                                       repository.exitProposals, reading.value, firstId)
              else repository.positions == old(repository.positions) && last == old(last) && touches == old(touches)
                   && repository.exitProposals == old(repository.exitProposals)
      ensures P.Coherent(repository.positions)
    {
      if reading.Raised? || reading.value.broker != name {
        context := context.(status := BrokerUnavailable, runtimeReconciled := false);
        return Raised;
      }
      var snapshot := reading.value;
      var relation := CompareTime(snapshot.observedAt, LastObserved(context, snapshot.broker));
      if relation == Replay {
        context := context.(runtimeReconciled := true);
        return Returned(());
      }
      if relation == Older { return Returned(()); }
      AcceptSnapshot(snapshot, firstId);
      return Returned(());
    }

    method AcceptSnapshot(snapshot: AccountSnapshot, firstId: Id)
      requires Wired() && P.Coherent(repository.positions)
      requires P.Fresh(IdRange(firstId, |snapshot.rows|), repository.positions)
      modifies this`context, this`last, this`touches, repository`positions, repository`exitProposals
      ensures context == AcceptedContext(snapshot) && last == Some(snapshot) && touches == map[]
      ensures AcceptedSnapshot(old(repository.positions), repository.positions, old(repository.exitProposals),
                               repository.exitProposals, snapshot, firstId)
    {
      MergePositions(snapshot, firstId);
      PatchContext(snapshot);
      SatisfyClosed(snapshot.broker, snapshot.observedAt);
    }

    method PatchContext(snapshot: AccountSnapshot)
      modifies this`context, this`last, this`touches
      ensures context == AcceptedContext(snapshot) && last == Some(snapshot) && touches == map[]
    {
      context := BrokerContext(BrokerReconciled, Some(snapshot.broker), Some(snapshot.observedAt),
                               Some(TokenOf(snapshot)), true);
      last, touches := Some(snapshot), map[];
    }

    method MergePositions(snapshot: AccountSnapshot, firstId: Id)
      requires Wired() && P.Coherent(repository.positions)
      requires P.Fresh(IdRange(firstId, |snapshot.rows|), repository.positions)
      modifies repository`positions
      ensures D.ReconcileResult(old(repository.positions), repository.positions, snapshot, IdRange(firstId, |snapshot.rows|))
    {
      var events, order := positions.Reconcile(snapshot, IdRange(firstId, |snapshot.rows|));
    }

    method SatisfyClosed(broker: BrokerName, at: Time)
      requires Wired()
      modifies repository`exitProposals
      ensures repository.exitProposals == D.ClosedSatisfied(old(repository.exitProposals), repository.positions, broker, at)
    {
      ghost var before := repository.exitProposals;
      var listed := R.ManagementRuleEngine.ListIds(
        set id | id in repository.positions && repository.positions[id].broker == broker);
      for i := 0 to |listed|
        invariant repository.exitProposals == SatisfiedUpTo(before, repository.positions, listed, at, i)
      {
        if listed[i] in repository.positions && !repository.positions[listed[i]].IsOpen() {
          exits.ReconcileWithBroker(listed[i], at);
        }
      }
      AllSatisfied(before, repository.positions, broker, listed, at);
    }

    // ------------------------------------------------------ position management

    /** One tick: the position's live rules, then one proposal per trigger. */
    method EvaluatePositionManagement(positionId: Id, snapshot: ManagementSnapshot, newId: Id)
      returns (r: Outcome<seq<Evaluation>>, ghost order: seq<Id>)
      requires Wired() && P.Coherent(repository.positions) && R.RulesOk(repository.managementRules)
      requires M.FreshIfNeeded(repository.exitProposals, positionId, newId)
      modifies this`triggered, repository`managementRules, repository`exitProposals
      ensures DeskView() == D.Next(old(DeskView()), D.Ticked(D.Tick(positionId, snapshot, order, newId)))
      ensures r.Returned? <==> R.Manageable(repository.positions, repository.managementProfiles, positionId)
    {
      ghost var before := DeskView();
      r, order := rules.Evaluate(positionId, snapshot);
      ghost var t := D.Tick(positionId, snapshot, order, newId);
      if r.Raised? {
        assert !D.CanEvaluate(before, t);
        return;
      }
      ghost var es := D.EvaluationsIn(before, t);
      assert r.value == es && es[..|es|] == es;
      R.AllRulesAfter(before.rules, order, before.positions[positionId], before.profiles[positionId], snapshot);
      D.WholeTickLosesNothing(before, t);
      forall e | e in r.value ensures e.triggered ==> !e.reason.Text? {
        var i :| 0 <= i < |r.value| && r.value[i] == e;
        R.EvaluationTriggersOnce(before.positions[positionId], before.profiles[positionId], before.rules[order[i]], snapshot);
      }
      var consumed := exits.ConsumeRuleEvaluations(positionId, r.value, newId, snapshot.observedAt);
      triggered := triggered + D.TriggeredIds(r.value);
    }

    // --------------------------------------------------------------- entry risk

    /** `list_positions(open_only=True)`, in some order. */
    method ListOpen() returns (listing: seq<Position>)
      requires P.Coherent(repository.positions)
      ensures ListsOpen(listing, repository.positions)
    {
      var ids := R.ManagementRuleEngine.ListIds(
        set id | id in repository.positions && repository.positions[id].IsOpen());
      listing := [];
      for i := 0 to |ids|
        invariant |listing| == i
        invariant forall j | 0 <= j < i :: ids[j] in repository.positions && listing[j] == repository.positions[ids[j]]
      {
        assert ids[i] in ids;
        listing := listing + [repository.positions[ids[i]]];
      }
      forall id | id in repository.positions && repository.positions[id].IsOpen()
        ensures repository.positions[id] in listing
      {
        assert id in ids;
        var i :| 0 <= i < |ids| && ids[i] == id;
        assert listing[i] == repository.positions[id];
      }
      forall i | 0 <= i < |listing| ensures listing[i].IsOpen() && listing[i].positionId == ids[i] {
        assert ids[i] in ids;
      }
    }

    /** The Risk gate on the open positions and the broker context of this moment. */
    method EvaluateEntryRisk(id: Id, proposal: RiskProposal, decisionId: Id, at: Time)
      returns (r: Outcome<RiskDecision>, ghost listing: seq<Position>)
      requires Wired() && P.Coherent(repository.positions)
      requires forall i | i in repository.entryIntents :: repository.entryIntents[i].intentId == i
      requires decisionId !in repository.riskDecisions
      modifies repository`riskProfiles, repository`riskDecisions, repository`entryIntents
      ensures r.Returned? <==>
        id in old(repository.entryIntents) && old(repository.entryIntents)[id].state == ReadyForRisk && proposal.intentId == id
      ensures r.Returned? ==>
        && ListsOpen(listing, repository.positions)
        && repository.riskProfiles == K.WithBootstrap(old(repository.riskProfiles))
        && r.value == K.Decide(decisionId, K.ActiveProfile(repository.riskProfiles), proposal, listing, context, at)
        && repository.riskDecisions == old(repository.riskDecisions)[decisionId := r.value]
        && repository.entryIntents == old(repository.entryIntents)
             [id := old(repository.entryIntents)[id].(state := K.StateAfterRisk(r.value), updatedAt := at)]
      ensures r.Raised? ==>
        && repository.riskProfiles == old(repository.riskProfiles)
        && repository.riskDecisions == old(repository.riskDecisions)
        && repository.entryIntents == old(repository.entryIntents)
    {
      listing := [];
      if id !in repository.entryIntents { return Raised, []; }
      var open := ListOpen();
      listing := open;
      r := risk.EvaluateEntry(repository.entryIntents[id], proposal, open, context, decisionId, at);
    }

    // ------------------------------------------------------------ execution handoff

    /** An entry request is built only while market, broker truth and Risk permission are current. */
    method PrepareEntryExecutionRequest(intentId: Id, decisionId: Id, route: Q.OrderRoute, requestId: Id)
      returns (r: Outcome<ExecutionRequest>)
      requires Wired() && requestId !in repository.executionRequests
      requires forall i | i in repository.entryIntents :: repository.entryIntents[i].intentId == i
      requires forall i | i in repository.riskDecisions ::
                 repository.riskDecisions[i].decisionId == i && repository.riskDecisions[i].proposal.Valid()
      modifies repository`executionRequests
      ensures r.Returned? <==>
        && Q.EntryAuthorised(repository.entryIntents, repository.riskDecisions, repository.riskProfiles, intentId, decisionId)
        && PrepareGate(context, market, route.broker, repository.riskDecisions[decisionId])
      ensures r.Returned? ==>
        var made := Q.EntryRequest(requestId, repository.entryIntents[intentId], repository.riskDecisions[decisionId], route);
        made.Valid() && Q.StoredOnce(old(repository.executionRequests), repository.executionRequests, made, r.value)
      ensures r.Raised? ==> repository.executionRequests == old(repository.executionRequests)
    {
      if market != MarketFresh { return Raised; }
      if !context.runtimeReconciled || context.status != BrokerReconciled { return Raised; }
      if context.broker != Some(route.broker) { return Raised; }
      if decisionId !in repository.riskDecisions { return Raised; }
      var decision := repository.riskDecisions[decisionId];
      if decision.brokerToken.Some? {
        if decision.brokerToken != context.token { return Raised; }
      } else if decision.brokerObservedAt != context.observedAt {
        return Raised;
      }
      r := requests.FromEntry(intentId, decisionId, route, requestId);
    }

    method PrepareExitExecutionRequest(proposalId: Id, broker: BrokerName, orderType: OrderType, limit: Option<real>,
                                       requestId: Id, at: Time) returns (r: Outcome<ExecutionRequest>)
      requires Wired() && requestId !in repository.executionRequests
      modifies repository`executionRequests
      ensures r.Returned? <==>
        && context.runtimeReconciled && context.status == BrokerReconciled && context.broker == Some(broker)
        && Q.ExitAuthorised(repository.exitProposals, repository.positions, proposalId, broker)
        && (orderType == Market || limit.Some?
            || Q.WithKey(old(repository.executionRequests), ExitKey(repository.exitProposals[proposalId].proposalId)) != {})
      ensures r.Returned? ==>
        && Q.ExitAuthorised(repository.exitProposals, repository.positions, proposalId, broker)
        && var p := repository.exitProposals[proposalId];
           var made := Q.ExitRequest(requestId, p, repository.positions[p.positionId], orderType, limit, at);
           && (Q.WithKey(old(repository.executionRequests), made.key) == {} ==> made.Valid())
           && Q.StoredOnce(old(repository.executionRequests), repository.executionRequests, made, r.value)
      ensures r.Raised? ==> repository.executionRequests == old(repository.executionRequests)
    {
      if !context.runtimeReconciled || context.status != BrokerReconciled { return Raised; }
      if context.broker != Some(broker) { return Raised; }
      r := requests.FromExit(proposalId, broker, orderType, limit, requestId, at);
    }

    /** Everything that must hold immediately before Module M is called. */
    ghost predicate Permitted(id: Id, simulation: bool, autoReady: bool, at: Time)
      reads this, repository
    {
      && id in repository.executionRequests
      && var request := repository.executionRequests[id];
      && (exists grant: Id ::
            WriteAllowed(mode, armed, simulation, autoReady, approval.ttl, repository.executionApprovals, request, grant, at))
      && (request.status == RequestStatus.Ready ==>
            if request.purpose == Purpose.Entry
            then EntryGate(context, market, repository.riskDecisions, repository.riskProfiles, request)
            else Q.ExitGate(context, repository.exitProposals, repository.positions, request))
    }

    /** Module M runs exactly when everything is permitted; a refusal touches neither the store
        nor the broker. */
    method DeployExecutionRequest(id: Id, broker: SimulatedExecutionBroker, simulation: bool, autoReady: bool, at: Time,
                                  now: Time) returns (r: Outcome<ExecutionRequest>)
      requires Wired() && broker.Valid()
      modifies repository`executionRequests, broker
      ensures broker.Valid()
      ensures r.Returned? ==> old(Permitted(id, simulation, autoReady, at))
      ensures execution.View(broker) ==
        if old(Permitted(id, simulation, autoReady, at)) then Deployed(old(execution.View(broker)), id, at, now)
        else old(execution.View(broker))
    {
      if id !in repository.executionRequests { return Raised; }
      var request := repository.executionRequests[id];
      var writable := WriteEnabled(request, simulation, autoReady, at);
      if !writable { return Raised; }
      if request.status == RequestStatus.Ready {
        if request.purpose == Purpose.Entry {
          if !EntryGate(context, market, repository.riskDecisions, repository.riskProfiles, request) { return Raised; }
        } else {
          if !Q.ExitGate(context, repository.exitProposals, repository.positions, request) { return Raised; }
        }
      }
      r := execution.Deploy(id, broker, at, now);
    }

    /** The mode's write gate, and in SEMI_AUTO the User's current approval. */
    method WriteEnabled(request: ExecutionRequest, simulation: bool, autoReady: bool, at: Time) returns (enabled: bool)
      requires Wired()
      ensures enabled <==> exists grant: Id ::
        WriteAllowed(mode, armed, simulation, autoReady, approval.ttl, repository.executionApprovals, request, grant, at)
    {
      ghost var grantId: Id := 0;
      if simulation {
        enabled := true;
      } else if mode == SemiAuto {
        if !armed { return false; }
        var grant := approval.AssertCurrentApproval(request, at);
        enabled := grant.Returned?;
        if enabled {
          grantId :| Grants(repository.executionApprovals, request.requestId, request.key, grantId, approval.ttl, at);
        }
      } else {
        enabled := mode == Auto && armed && autoReady;
      }
      assert enabled ==>
        WriteAllowed(mode, armed, simulation, autoReady, approval.ttl, repository.executionApprovals, request, grantId, at);
    }
  }
}
