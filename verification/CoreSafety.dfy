/** What every run of Core keeps: how many orders one episode can ever cause, and under
    which authority each of them is sent. */
module CoreSafety {
  import opened Domain
  import opened BrokerSimulator
  import opened Engine
  import opened Entry
  import opened Risk
  import opened Requests
  import opened BrokerTruth
  import opened CoreRuns
  import P = Positions
  import X = ExecutionRuns

  // ------------------------------------------------------------------ invariant

  predicate IntentsOk(intents: map<Id, EntryIntent>) {
    && (forall id | id in intents :: intents[id].intentId == id)
    && (forall i, j | i in intents && j in intents && intents[i].Active() && intents[j].Active()
          && intents[i].episodeId == intents[j].episodeId :: i == j)
  }

  /** What a PASS was based on: a snapshot with distinct rows, its token, and fewer open positions
      than the profile it was judged by allows. */
  ghost predicate PassSound(d: RiskDecision, sight: Sight, profiles: seq<RiskProfile>) {
    && sight.last.Some? && P.DistinctRows(sight.last.value.rows)
    && d.brokerToken == Some(TokenOf(sight.last.value))
    && BookIs(sight.book, sight.last.value, sight.touches)
    && d.openCount == |sight.book|
    && 1 <= d.profileVersion <= |profiles|
    && var limit := profiles[d.profileVersion - 1].maxOpenPositions; (limit.Some? ==> d.openCount < limit.value)
  }

  ghost predicate DecisionsOk(decisions: map<Id, RiskDecision>, saw: map<Id, Sight>, profiles: seq<RiskProfile>) {
    forall d | d in decisions ::
      && decisions[d].decisionId == d && decisions[d].proposal.Valid() && d in saw
      && (decisions[d].Pass() ==> PassSound(decisions[d], saw[d], profiles))
  }

  predicate EntryRequestOk(intents: map<Id, EntryIntent>, decisions: map<Id, RiskDecision>, r: ExecutionRequest) {
    && r.riskDecisionId.Some? && r.key == EntryKey(r.sourceId, r.riskDecisionId.value)
    && r.sourceId in intents && intents[r.sourceId].state == RiskApproved
    && IsLatestDecision(decisions, r.sourceId, r.riskDecisionId.value)
    && decisions[r.riskDecisionId.value].Pass()
    && r.quantity == decisions[r.riskDecisionId.value].proposal.plannedQty
  }

  predicate RequestsOk(intents: map<Id, EntryIntent>, decisions: map<Id, RiskDecision>, requests: map<Id, ExecutionRequest>) {
    forall id | id in requests ::
      if requests[id].purpose == Purpose.Entry then EntryRequestOk(intents, decisions, requests[id])
      else requests[id].key.ExitKey?
  }

  ghost predicate AccountOk(a: Account, name: BrokerName, last: Option<AccountSnapshot>,
                            touches: map<PositionKey, Option<Facts>>)
  {
    && BookOk(a.book)
    && (if last.Some? then
          && ContextDescribes(a.ctx, name, last.value) && BookIs(OpenBook(a.book), last.value, touches)
          && P.DistinctRows(last.value.rows)
        else a.ctx.broker != Some(name) && a.ctx.status != BrokerReconciled)
  }

  predicate PendingAuthorised(c: Core) {
    c.exec.pending.Sending? && c.exec.pending.id in c.exec.requests
      && c.exec.requests[c.exec.pending.id].purpose == Purpose.Entry
    ==> EntryGate(c.account.ctx, c.market, c.decisions, c.profiles, c.exec.requests[c.exec.pending.id])
  }

  ghost predicate Inv(c: Core) {
    && IntentsOk(c.intents)
    && ProfilesOk(c.profiles)
    && DecisionsOk(c.decisions, c.saw, c.profiles)
    && RequestsOk(c.intents, c.decisions, c.exec.requests)
    && AccountOk(c.account, c.exec.sim.name, c.last, c.touches)
    && X.Inv(c.exec)
    && PendingAuthorised(c)
  }

  // --------------------------------------------------------------- intent moves

  /** An approved intent never moves again, and a closed one never becomes active. */
  predicate MovesTo(i: EntryIntent, i': EntryIntent) {
    && i'.intentId == i.intentId && i'.episodeId == i.episodeId
    && (i'.Active() ==> i.Active())
    && (i.state == RiskApproved ==> i' == i)
  }

  lemma IntentMoveKeeps(intents: map<Id, EntryIntent>, decisions: map<Id, RiskDecision>,
                        requests: map<Id, ExecutionRequest>, id: Id, i': EntryIntent)
    requires IntentsOk(intents) && RequestsOk(intents, decisions, requests)
    requires id in intents && MovesTo(intents[id], i')
    ensures IntentsOk(intents[id := i']) && RequestsOk(intents[id := i'], decisions, requests)
  {
  }

  lemma IntentCreationKeeps(intents: map<Id, EntryIntent>, decisions: map<Id, RiskDecision>,
                            requests: map<Id, ExecutionRequest>, i: EntryIntent)
    requires IntentsOk(intents) && RequestsOk(intents, decisions, requests)
    requires i.intentId !in intents
    requires forall id | id in intents :: !ActiveFor(intents, i.episodeId, id)
    ensures IntentsOk(intents[i.intentId := i]) && RequestsOk(intents[i.intentId := i], decisions, requests)
  {
    assert forall id | id in intents && intents[id].episodeId == i.episodeId ::
        ActiveFor(intents, i.episodeId, id) || !intents[id].Active();
  }

  lemma EvaluationMoves(i: EntryIntent, s: EntrySnapshot, writes: nat)
    ensures MovesTo(i, AfterWrites(i, EntryPath(i, s), writes))
  {
    var path := EntryPath(i, s);
    if writes > 0 && path != [] {
      EvaluationStaysInMonitoring(i, s, if writes <= |path| then writes - 1 else |path| - 1);
    }
  }

  lemma ReviewMoves(i: EntryIntent, answer: AgentAnswer, reviewId: Id, at: Time, now: Time, writes: nat)
    requires i.state == ReadyForReview
    ensures MovesTo(i, AfterWrites(i, ReviewPath(i, answer, reviewId, at, now), writes))
  {
  }

  // -------------------------------------------------------------- Risk decisions

  lemma {:induction false} OpenCountOfOpen(listing: seq<Position>)
    requires forall i | 0 <= i < |listing| :: listing[i].IsOpen()
    ensures OpenCount(listing) == |listing|
  {
    if listing != [] { OpenCountOfOpen(listing[..|listing| - 1]); }
  }

  lemma {:induction false} KeysOfDistinct(listing: seq<Position>, keys: set<PositionKey>)
    requires forall i, j | 0 <= i < j < |listing| :: listing[i].key != listing[j].key
    requires forall i | 0 <= i < |listing| :: listing[i].key in keys
    requires forall k | k in keys :: exists i :: 0 <= i < |listing| && listing[i].key == k
    ensures |keys| == |listing|
  {
    if listing == [] {
      assert keys == {};
    } else {
      var n := |listing| - 1;
      var k := listing[n].key;
      forall k' | k' in keys - {k}
        ensures exists i :: 0 <= i < n && listing[..n][i].key == k'
      {
        var i :| 0 <= i < |listing| && listing[i].key == k';
        assert listing[..n][i].key == k';
      }
      KeysOfDistinct(listing[..n], keys - {k});
    }
  }

  /** Risk's count of open positions is the number of positions in the open book. */
  lemma ListingCounts(listing: seq<Position>, book: map<PositionKey, Position>)
    requires OpenListing(listing, book)
    ensures OpenCount(listing) == |OpenBook(book)|
  {
    OpenCountOfOpen(listing);
    var keys := OpenBook(book).Keys;
    forall k | k in keys ensures exists i :: 0 <= i < |listing| && listing[i].key == k {
      assert book[k] in listing;
      var i :| 0 <= i < |listing| && listing[i] == book[k];
    }
    KeysOfDistinct(listing, keys);
  }

  lemma WithinLimit(d: RiskDecision, id: Id, profile: RiskProfile, proposal: RiskProposal, listing: seq<Position>,
                    ctx: BrokerContext, at: Time)
    requires d == Decide(id, profile, proposal, listing, ctx, at) && d.Pass()
    ensures TruthCurrent(ctx)
    ensures profile.maxOpenPositions.Some? ==> d.openCount < profile.maxOpenPositions.value
  {
    PassIffWithinLimits(profile, proposal, OpenCount(listing), Exposure(listing), ctx);
  }

  lemma NewDecisionSound(a: Account, name: BrokerName, last: Option<AccountSnapshot>,
                         touches: map<PositionKey, Option<Facts>>, profiles: seq<RiskProfile>,
                         id: Id, proposal: RiskProposal, listing: seq<Position>, at: Time)
    requires AccountOk(a, name, last, touches) && ProfilesOk(profiles) && |profiles| > 0 && OpenListing(listing, a.book)
    ensures var d := Decide(id, ActiveProfile(profiles), proposal, listing, a.ctx, at);
      d.Pass() ==> PassSound(d, Sight(last, touches, OpenBook(a.book)), profiles)
  {
    var d := Decide(id, ActiveProfile(profiles), proposal, listing, a.ctx, at);
    if d.Pass() {
      WithinLimit(d, id, ActiveProfile(profiles), proposal, listing, a.ctx, at);
      ListingCounts(listing, a.book);
      assert profiles[|profiles| - 1].version == |profiles|;
    }
  }

  lemma BootstrapKeeps(decisions: map<Id, RiskDecision>, saw: map<Id, Sight>, profiles: seq<RiskProfile>)
    requires ProfilesOk(profiles) && DecisionsOk(decisions, saw, profiles)
    ensures ProfilesOk(WithBootstrap(profiles)) && DecisionsOk(decisions, saw, WithBootstrap(profiles))
  {
  }

  lemma NewProfileKeeps(decisions: map<Id, RiskDecision>, saw: map<Id, Sight>, profiles: seq<RiskProfile>,
                        limits: RiskProfile)
    requires ProfilesOk(profiles) && DecisionsOk(decisions, saw, profiles) && limits.(version := 1).Valid()
    ensures var profiles' := profiles + [limits.(version := |profiles| + 1)];
      ProfilesOk(profiles') && DecisionsOk(decisions, saw, profiles')
  {
    var profiles' := profiles + [limits.(version := |profiles| + 1)];
    forall d | d in decisions && decisions[d].Pass() ensures PassSound(decisions[d], saw[d], profiles') {
      assert PassSound(decisions[d], saw[d], profiles);
    }
  }

  lemma DecisionKeepsDecisions(decisions: map<Id, RiskDecision>, saw: map<Id, Sight>,
                               profiles: seq<RiskProfile>, id: Id, d: RiskDecision, sight: Sight)
    requires DecisionsOk(decisions, saw, profiles)
    requires d.decisionId == id && d.proposal.Valid() && (d.Pass() ==> PassSound(d, sight, profiles))
    ensures DecisionsOk(decisions[id := d], saw[id := sight], profiles)
  {
  }

  lemma DecisionKeepsRequests(intents: map<Id, EntryIntent>, decisions: map<Id, RiskDecision>,
                              requests: map<Id, ExecutionRequest>, id: Id, d: RiskDecision)
    requires RequestsOk(intents, decisions, requests) && id !in decisions
    requires d.intentId in intents && intents[d.intentId].state != RiskApproved
    ensures RequestsOk(intents, decisions[id := d], requests)
  {
  }

  lemma RiskStepKeeps(c: Core, id: Id, proposal: RiskProposal, decisionId: Id, listing: seq<Position>, at: Time, writes: nat)
    requires Inv(c) && c.exec.pending.Idle? && CanEvaluateRisk(c, id, proposal, decisionId, listing)
    ensures Inv(RiskStep(c, id, proposal, decisionId, listing, at, writes))
  {
    BootstrapKeeps(c.decisions, c.saw, c.profiles);
    var profiles := WithBootstrap(c.profiles);
    var d := Decide(decisionId, ActiveProfile(profiles), proposal, listing, c.account.ctx, at);
    assert DecisionsOk(c.decisions[decisionId := d], c.saw[decisionId := SightOf(c)], profiles) by {
      NewDecisionSound(c.account, c.exec.sim.name, c.last, c.touches, profiles, decisionId, proposal, listing, at);
      DecisionKeepsDecisions(c.decisions, c.saw, profiles, decisionId, d, SightOf(c));
    }
    DecisionKeepsRequests(c.intents, c.decisions, c.exec.requests, decisionId, d);
    IntentMoveKeeps(c.intents, c.decisions[decisionId := d], c.exec.requests, id,
                    c.intents[id].(state := StateAfterRisk(d), updatedAt := at));
  }

  // ------------------------------------------------------------------- requests

  lemma PreparedKeeps(c: Core, intentId: Id, decisionId: Id, requestId: Id, route: OrderRoute)
    requires Inv(c) && c.exec.pending.Idle? && CanPrepareEntry(c, intentId, decisionId, requestId, route)
    ensures Inv(Requested(c, EntryRequest(requestId, c.intents[intentId], c.decisions[decisionId], route)))
  {
    var r := EntryRequest(requestId, c.intents[intentId], c.decisions[decisionId], route);
    X.StepKeeps(c.exec, X.Create(r));
    assert EntryRequestOk(c.intents, c.decisions, r);
  }

  lemma ExitPreparedKeeps(c: Core, r: ExecutionRequest)
    requires Inv(c) && c.exec.pending.Idle? && r.purpose == Purpose.Exit && r.key.ExitKey?
    ensures Inv(Requested(c, r))
  {
    X.StepKeeps(c.exec, X.Create(r));
  }

  lemma EvolutionKeepsRequests(intents: map<Id, EntryIntent>, decisions: map<Id, RiskDecision>, w: World, w': World)
    requires RequestsOk(intents, decisions, w.requests)
    requires X.Evolves(w, w') && w'.requests.Keys == w.requests.Keys
    ensures RequestsOk(intents, decisions, w'.requests)
  {
    forall id | id in w'.requests
      ensures if w'.requests[id].purpose == Purpose.Entry then EntryRequestOk(intents, decisions, w'.requests[id])
              else w'.requests[id].key.ExitKey?
    {
      assert id in w.requests && X.RequestEvolves(w.requests[id], w'.requests[id]);
    }
  }

  lemma DeployKeeps(c: Core, id: Id, at: Time)
    requires Inv(c) && c.exec.pending.Idle?
    ensures Inv(Locked(c, DeployStarted(id, at)))
  {
    X.DurableWriteKeeps(c.exec, id, at);
    X.KeysStay(c.exec, X.StartDeploy(id, at));
    EvolutionKeepsRequests(c.intents, c.decisions, c.exec, DurableWrite(c.exec, id, at));
  }

  lemma ExecutionKeeps(c: Core, s: X.Step)
    requires Inv(c)
    ensures Inv(Locked(c, Execution(s)))
  {
    if !(s.Create? || s.StartDeploy? || s.Crashed?) {
      X.StepKeeps(c.exec, s);
      assert RequestsOk(c.intents, c.decisions, X.Next(c.exec, s).requests) by {
        X.KeysStay(c.exec, s);
        EvolutionKeepsRequests(c.intents, c.decisions, c.exec, X.Next(c.exec, s));
      }
      X.SubmissionUntouched(c.exec, s);
    }
  }

  // -------------------------------------------------------------- broker truth

  lemma DeliveryKeeps(a: Account, name: BrokerName, last: Option<AccountSnapshot>,
                      touches: map<PositionKey, Option<Facts>>, d: Delivery)
    requires AccountOk(a, name, last, touches)
    requires d.Snapshot? ==> P.DistinctRows(d.s.rows)
    ensures AccountOk(Deliver(a, name, d), name, if Accepts(a.ctx, name, d) then Some(d.s) else last,
                      TouchesAfter(touches, a.ctx, name, d))
  {
    DeliveryDescribes(a, name, last, touches, d);
  }

  lemma RestartKeeps(a: Account, name: BrokerName, last: Option<AccountSnapshot>,
                     touches: map<PositionKey, Option<Facts>>)
    requires AccountOk(a, name, last, touches)
    ensures AccountOk(Deliver(a, name, Restart), name, last, touches)
  {
  }

  lemma CrashKeeps(c: Core)
    requires Inv(c)
    ensures Inv(Locked(c, CoreRuns.Crashed))
  {
    X.CrashKeeps(c.exec);
    RestartKeeps(c.account, c.exec.sim.name, c.last, c.touches);
  }

  // ----------------------------------------------------------------- whole runs

  lemma EntryStepKeeps(c: Core, step: Step)
    requires Inv(c) && c.exec.pending.Idle?
    requires step.IntentCreated? || step.IntentEvaluated? || step.ReviewRequested?
    ensures Inv(Locked(c, step))
  {
    match step
    case IntentCreated(i) =>
      if Locked(c, step) != c { IntentCreationKeeps(c.intents, c.decisions, c.exec.requests, i); }
    case IntentEvaluated(id, s, writes) =>
      if id in c.intents {
        EvaluationMoves(c.intents[id], s, writes);
        IntentMoveKeeps(c.intents, c.decisions, c.exec.requests, id,
                        AfterWrites(c.intents[id], EntryPath(c.intents[id], s), writes));
      }
    case ReviewRequested(id, answer, reviewId, at, now, writes) =>
      if id in c.intents && c.intents[id].state == ReadyForReview {
        ReviewMoves(c.intents[id], answer, reviewId, at, now, writes);
        IntentMoveKeeps(c.intents, c.decisions, c.exec.requests, id,
                        AfterWrites(c.intents[id], ReviewPath(c.intents[id], answer, reviewId, at, now), writes));
      }
  }

  lemma ProfileStepKeeps(c: Core, limits: RiskProfile)
    requires Inv(c) && c.exec.pending.Idle?
    ensures Inv(Locked(c, ProfileConfirmed(limits)))
  {
    BootstrapKeeps(c.decisions, c.saw, c.profiles);
    if limits.(version := 1).Valid() { NewProfileKeeps(c.decisions, c.saw, WithBootstrap(c.profiles), limits); }
  }

  lemma LockedKeeps(c: Core, step: Step)
    requires Inv(c) && (NeedsLock(step) ==> c.exec.pending.Idle?)
    ensures Inv(Locked(c, step))
  {
    match step
    case RiskEvaluated(id, proposal, decisionId, listing, at, writes) =>
      if CanEvaluateRisk(c, id, proposal, decisionId, listing) {
        RiskStepKeeps(c, id, proposal, decisionId, listing, at, writes);
      }
    case ProfileConfirmed(limits) => ProfileStepKeeps(c, limits);
    case EntryPrepared(intentId, decisionId, requestId, route) =>
      if CanPrepareEntry(c, intentId, decisionId, requestId, route) {
        PreparedKeeps(c, intentId, decisionId, requestId, route);
      }
    case ExitPrepared(r) => if r.purpose == Purpose.Exit && r.key.ExitKey? { ExitPreparedKeeps(c, r); }
    case DeployStarted(id, at) => DeployKeeps(c, id, at);
    case BrokerDelivered(d) =>
      if d.Snapshot? ==> P.DistinctRows(d.s.rows) { DeliveryKeeps(c.account, c.exec.sim.name, c.last, c.touches, d); }
    case Execution(s) => ExecutionKeeps(c, s);
    case Crashed => CrashKeeps(c);
    case IntentCreated(_) => EntryStepKeeps(c, step);
    case IntentEvaluated(_, _, _) => EntryStepKeeps(c, step);
    case ReviewRequested(_, _, _, _, _, _) => EntryStepKeeps(c, step);
    case _ => SmallMoveKeeps(c, step);
  }

  /** The steps that move one intent or one status word. */
  lemma SmallMoveKeeps(c: Core, step: Step)
    requires Inv(c) && c.exec.pending.Idle?
    requires step.IntentRearmed? || step.UserDecided? || step.RiskRearmed? || step.BrokerMarkedStale? || step.MarketChanged?
    ensures Inv(Locked(c, step))
  {
    if (step.IntentRearmed? || step.UserDecided? || step.RiskRearmed?) && Locked(c, step) != c {
      IntentMoveKeeps(c.intents, c.decisions, c.exec.requests, step.id, Locked(c, step).intents[step.id]);
    }
  }

  lemma {:induction false} RunKeeps(c: Core, steps: seq<Step>)
    requires Inv(c)
    ensures Inv(Run(c, steps))
    decreases |steps|
  {
    if steps == [] {
    } else {
      if NeedsLock(steps[0]) ==> c.exec.pending.Idle? { LockedKeeps(c, steps[0]); }
      RunKeeps(Next(c, steps[0]), steps[1..]);
    }
  }

  // --------------------------------------------------------- one entry per episode

  lemma SameEpisodeSameRequest(c: Core, i: Id, j: Id)
    requires Inv(c) && i in c.exec.requests && j in c.exec.requests
    requires c.exec.requests[i].purpose == Purpose.Entry && c.exec.requests[j].purpose == Purpose.Entry
    requires c.exec.requests[i].sourceId in c.intents && c.exec.requests[j].sourceId in c.intents
    requires c.intents[c.exec.requests[i].sourceId].episodeId == c.intents[c.exec.requests[j].sourceId].episodeId
    ensures i == j
  {
    var r, r' := c.exec.requests[i], c.exec.requests[j];
    assert EntryRequestOk(c.intents, c.decisions, r) && EntryRequestOk(c.intents, c.decisions, r');
    assert r.sourceId == r'.sourceId;
    LatestDecisionUnique(c.decisions, r.sourceId, r.riskDecisionId.value, r'.riskDecisionId.value);
  }

  /** A key some stored ENTRY request carries, of a stored intent. */
  predicate EntryKeyOf(c: Core, k: IdempotencyKey) {
    k.EntryKey? && k.intentId in c.intents && k in X.Keys(c.exec)
  }

  /** The request is sized by the latest decision of its intent, a PASS, and so are all its fills. */
  predicate WithinPass(c: Core, r: ExecutionRequest) {
    && r.riskDecisionId.Some? && r.key == EntryKey(r.sourceId, r.riskDecisionId.value)
    && var d := r.riskDecisionId.value;
    && IsLatestDecision(c.decisions, r.sourceId, d) && c.decisions[d].Pass()
    && var planned := c.decisions[d].proposal.plannedQty;
    && r.quantity == planned && r.filledQuantity <= planned
    && (c.exec.sim.Holds(r.key) ==> c.exec.sim.Truth(r.key).filledQuantity <= planned)
  }

  /** From an empty store, whatever happens and whatever is cut short: every ENTRY request belongs
      to a stored intent and stays within its latest decision, a PASS; every submission is of a
      stored request, an ENTRY one of a stored intent; and no two ENTRY requests, and no two
      ENTRY submissions, belong to intents of one episode. */
  lemma EpisodeEntersOnce(name: BrokerName, autoStatus: OrderStatus, steps: seq<Step>)
    ensures var c := Run(EmptyCore(name, autoStatus), steps);
      var requests, calls := c.exec.requests, c.exec.sim.calls;
      && (forall id | id in requests && requests[id].purpose == Purpose.Entry ::
            requests[id].sourceId in c.intents && WithinPass(c, requests[id]))
      && (forall i, j | i in requests && j in requests
            && requests[i].purpose == Purpose.Entry && requests[j].purpose == Purpose.Entry
            && c.intents[requests[i].sourceId].episodeId == c.intents[requests[j].sourceId].episodeId :: i == j)
      && (forall i | 0 <= i < |calls| :: calls[i].ExitKey? || EntryKeyOf(c, calls[i]))
      && (forall i, j | 0 <= i < |calls| && 0 <= j < |calls| && calls[i].EntryKey? && calls[j].EntryKey?
            && c.intents[calls[i].intentId].episodeId == c.intents[calls[j].intentId].episodeId :: i == j)
  {
    RunKeeps(EmptyCore(name, autoStatus), steps);
    var c := Run(EmptyCore(name, autoStatus), steps);
    var requests, calls := c.exec.requests, c.exec.sim.calls;
    forall id | id in requests && requests[id].purpose == Purpose.Entry
      ensures requests[id].sourceId in c.intents && WithinPass(c, requests[id])
    {
      EntryWithinPass(c, id);
    }
    forall i, j | i in requests && j in requests
        && requests[i].purpose == Purpose.Entry && requests[j].purpose == Purpose.Entry
        && c.intents[requests[i].sourceId].episodeId == c.intents[requests[j].sourceId].episodeId
      ensures i == j
    {
      SameEpisodeSameRequest(c, i, j);
    }
    forall i | 0 <= i < |calls| ensures calls[i].ExitKey? || EntryKeyOf(c, calls[i]) {
      var id := CallOfRequest(c, i);
    }
    forall i, j | 0 <= i < |calls| && 0 <= j < |calls| && calls[i].EntryKey? && calls[j].EntryKey?
        && c.intents[calls[i].intentId].episodeId == c.intents[calls[j].intentId].episodeId
      ensures i == j
    {
      var i' := CallOfRequest(c, i);
      var j' := CallOfRequest(c, j);
      SameEpisodeSameRequest(c, i', j');
    }
  }

  lemma EntryWithinPass(c: Core, id: Id)
    requires Inv(c) && id in c.exec.requests && c.exec.requests[id].purpose == Purpose.Entry
    ensures c.exec.requests[id].sourceId in c.intents && WithinPass(c, c.exec.requests[id])
  {
    var r, b := c.exec.requests[id], c.exec.sim;
    assert EntryRequestOk(c.intents, c.decisions, r) && X.RequestOk(c.exec, id);
    if b.Holds(r.key) { assert X.OrderOk(b, b.byClient[r.key]); }
  }

  /** The stored request a submission was made for. */
  lemma CallOfRequest(c: Core, i: nat) returns (id: Id)
    requires Inv(c) && i < |c.exec.sim.calls|
    ensures id in c.exec.requests && c.exec.requests[id].key == c.exec.sim.calls[i]
    ensures c.exec.sim.calls[i].EntryKey? ==>
      && c.exec.requests[id].purpose == Purpose.Entry && c.exec.requests[id].sourceId == c.exec.sim.calls[i].intentId
      && EntryKeyOf(c, c.exec.sim.calls[i])
  {
    assert c.exec.sim.calls[i] in X.Keys(c.exec);
    id :| id in c.exec.requests && c.exec.requests[id].key == c.exec.sim.calls[i];
    if c.exec.requests[id].purpose == Purpose.Entry { EntryWithinPass(c, id); }
  }

  // ------------------------------------------------- authority when an order is sent

  /** Quantity and average price by key. */
  function Holdings(book: map<PositionKey, Facts>): map<PositionKey, (int, real)> {
    map key | key in book :: (book[key].quantity, book[key].averagePrice)
  }

  lemma {:induction false} TokenRowsHas(rows: seq<BrokerRow>, row: TokenRow)
    ensures row in TokenRows(rows) <==> exists i :: 0 <= i < |rows| && RowOf(rows[i]) == row
  {
    if rows == [] {
    } else {
      var n := |rows| - 1;
      TokenRowsHas(rows[..n], row);
      assert forall i | 0 <= i < n :: rows[..n][i] == rows[i];
    }
  }

  /** Every holding of one snapshot is a holding of any other with the same Risk token. */
  lemma HoldingCarries(s: AccountSnapshot, s': AccountSnapshot, key: PositionKey)
    requires P.DistinctRows(s.rows) && P.DistinctRows(s'.rows) && TokenOf(s) == TokenOf(s')
    requires key in NonZeroRows(s)
    ensures key in NonZeroRows(s')
    ensures NonZeroRows(s')[key].quantity == NonZeroRows(s)[key].quantity
    ensures NonZeroRows(s')[key].averagePrice == NonZeroRows(s)[key].averagePrice
  {
    P.RowsFound(s.rows, |s.rows|, key);
    var row := s.rows[P.LastRow(s.rows, |s.rows|, key).value];
    TokenRowsHas(s.rows, RowOf(row));
    TokenRowsHas(s'.rows, RowOf(row));
    var j :| 0 <= j < |s'.rows| && RowOf(s'.rows[j]) == RowOf(row);
    P.RowsFound(s'.rows, |s'.rows|, key);
    assert P.LastRow(s'.rows, |s'.rows|, key) == Some(j);
    assert s'.rows[j].key in RowKeys(s');
  }

  lemma SameTokenSameHoldings(s: AccountSnapshot, s': AccountSnapshot)
    requires P.DistinctRows(s.rows) && P.DistinctRows(s'.rows) && TokenOf(s) == TokenOf(s')
    ensures Holdings(NonZeroRows(s)) == Holdings(NonZeroRows(s'))
    ensures |NonZeroRows(s)| == |NonZeroRows(s')|
  {
    forall key | key in NonZeroRows(s)
      ensures key in NonZeroRows(s') && Holdings(NonZeroRows(s))[key] == Holdings(NonZeroRows(s'))[key]
    {
      HoldingCarries(s, s', key);
    }
    forall key | key in NonZeroRows(s') ensures key in NonZeroRows(s) {
      HoldingCarries(s', s, key);
    }
    assert NonZeroRows(s).Keys == NonZeroRows(s').Keys;
  }

  function Holding(facts: Option<Facts>): Option<(int, real)> {
    if facts.Some? then Some((facts.value.quantity, facts.value.averagePrice)) else None
  }

  /** The permission under which an ENTRY order goes out, but for the holdings. */
  predicate Permitted(c: Core, r: ExecutionRequest) {
    && c.market == MarketFresh
    && c.account.ctx.runtimeReconciled && c.account.ctx.status == BrokerReconciled && c.account.ctx.broker == Some(r.broker)
    && r.riskDecisionId.Some? && var d := r.riskDecisionId.value;
    && IsLatestDecision(c.decisions, r.sourceId, d) && c.decisions[d].Pass()
    && |c.profiles| > 0 && c.decisions[d].profileVersion == ActiveProfile(c.profiles).version
    && d in c.saw && c.saw[d].last.Some? && c.last.Some?
  }

  /** And the holdings: they are those Risk judged, so the open-position limit still holds. */
  predicate Authorised(c: Core, r: ExecutionRequest) {
    && Permitted(c, r)
    && Holdings(OpenBook(c.account.book)) == Holdings(c.saw[r.riskDecisionId.value].book)
    && var limit := ActiveProfile(c.profiles).maxOpenPositions;
       (limit.Some? ==> |OpenBook(c.account.book)| < limit.value)
  }

  /** Whatever reconciles cut short have written, before the decision or since the last snapshot,
      amounts to the same holding then and now. */
  predicate CutsAgree(c: Core, d: Id)
    requires c.last.Some? && d in c.saw && c.saw[d].last.Some?
  {
    forall key | key in c.touches.Keys + c.saw[d].touches.Keys ::
      Holding(Overlay(c.last.value, c.touches, key)) == Holding(Overlay(c.saw[d].last.value, c.saw[d].touches, key))
  }

  lemma SameHoldingsIff(open: map<PositionKey, Facts>, open': map<PositionKey, Facts>)
    ensures Holdings(open) == Holdings(open') <==>
      forall key :: Holding(FactsAt(open, key)) == Holding(FactsAt(open', key))
    ensures Holdings(open) == Holdings(open') ==> |open| == |open'|
  {
    if forall key :: Holding(FactsAt(open, key)) == Holding(FactsAt(open', key)) {
      assert forall key :: key in open <==> Holding(FactsAt(open, key)).Some?;
      assert forall key :: key in open' <==> Holding(FactsAt(open', key)).Some?;
      forall key | key in open ensures Holdings(open)[key] == Holdings(open')[key] {
        assert Holding(FactsAt(open, key)) == Holding(FactsAt(open', key));
      }
    }
    if Holdings(open) == Holdings(open') {
      assert open.Keys == Holdings(open).Keys && open'.Keys == Holdings(open').Keys;
      forall key ensures Holding(FactsAt(open, key)) == Holding(FactsAt(open', key)) {
        assert key in open ==> Holdings(open)[key] == Holdings(open')[key];
      }
    }
  }

  /** Two books over snapshots with one Risk token hold the same, if and only if they do where cuts wrote. */
  lemma BooksAgreeIff(open: map<PositionKey, Facts>, s: AccountSnapshot, touches: map<PositionKey, Option<Facts>>,
                      open': map<PositionKey, Facts>, s': AccountSnapshot, touches': map<PositionKey, Option<Facts>>)
    requires BookIs(open, s, touches) && BookIs(open', s', touches')
    requires P.DistinctRows(s.rows) && P.DistinctRows(s'.rows) && TokenOf(s) == TokenOf(s')
    ensures Holdings(open) == Holdings(open') <==>
      forall key | key in touches.Keys + touches'.Keys :: Holding(Overlay(s, touches, key)) == Holding(Overlay(s', touches', key))
  {
    SameHoldingsIff(open, open');
    SameTokenSameHoldings(s, s');
    SameHoldingsIff(NonZeroRows(s), NonZeroRows(s'));
    forall key
      ensures Holding(FactsAt(open, key)) == Holding(Overlay(s, touches, key))
      ensures Holding(FactsAt(open', key)) == Holding(Overlay(s', touches', key))
      ensures key !in touches.Keys + touches'.Keys ==> Holding(FactsAt(open, key)) == Holding(FactsAt(open', key))
    {
      assert FactsAt(open, key) == Overlay(s, touches, key) && FactsAt(open', key) == Overlay(s', touches', key);
      assert Holding(RowAt(s, key)) == Holding(RowAt(s', key));
    }
  }

  /** Behind an open entry gate the order is authorised if and only if the cuts agree. */
  lemma GateAuthorisesIff(c: Core, r: ExecutionRequest)
    requires Inv(c) && EntryGate(c.account.ctx, c.market, c.decisions, c.profiles, r)
    ensures Permitted(c, r) && (Authorised(c, r) <==> CutsAgree(c, r.riskDecisionId.value))
  {
    var d := r.riskDecisionId.value;
    assert PassSound(c.decisions[d], c.saw[d], c.profiles);
    BooksAgreeIff(OpenBook(c.account.book), c.last.value, c.touches,
                  c.saw[d].book, c.saw[d].last.value, c.saw[d].touches);
    SameHoldingsIff(OpenBook(c.account.book), c.saw[d].book);
    assert c.profiles[c.decisions[d].profileVersion - 1] == ActiveProfile(c.profiles);
  }

  /** Core steps write the store, the context and history; only protocol steps reach the broker. */
  lemma OnlyExecutionReachesBroker(c: Core, step: Step)
    requires !step.Execution?
    ensures Next(c, step).exec.sim == c.exec.sim
  {
  }

  /** The step hands over the order of a stored request past its durable SUBMITTING write; an ENTRY
      order goes with the latest PASS under the active profile in a usable market, and on the
      holdings Risk judged if and only if the cuts agree. */
  predicate SentWithAuthority(c: Core, c': Core) {
    && c.exec.pending.Sending? && c.exec.pending.id in c.exec.requests
    && var r := c.exec.requests[c.exec.pending.id];
    && r.status == RequestStatus.Submitting
    && c'.exec.sim.calls == c.exec.sim.calls + [r.key]
    && (r.purpose == Purpose.Entry ==>
          Permitted(c, r) && (Authorised(c, r) <==> CutsAgree(c, r.riskDecisionId.value)))
  }

  lemma StepSendsWithAuthority(c: Core, s: X.Step)
    requires Inv(c) && X.Next(c.exec, s).sim.calls != c.exec.sim.calls
    ensures SentWithAuthority(c, c.(exec := X.Next(c.exec, s)))
  {
    if !(s.CallBroker? && c.exec.pending.Sending?) { X.OnlySendingCalls(c.exec, s); }
    X.CallAppends(c.exec, s.now);
    var r := c.exec.requests[c.exec.pending.id];
    if r.purpose == Purpose.Entry { GateAuthorisesIff(c, r); }
  }

  /** Whenever any step of any run makes the broker receive an order, it is sent with authority in
      that sense, whatever was cut short before. */
  lemma SubmissionIsAuthorised(name: BrokerName, autoStatus: OrderStatus, steps: seq<Step>, step: Step)
    ensures var c := Run(EmptyCore(name, autoStatus), steps);
      Next(c, step).exec.sim.calls != c.exec.sim.calls ==> SentWithAuthority(c, Next(c, step))
  {
    RunKeeps(EmptyCore(name, autoStatus), steps);
    var c := Run(EmptyCore(name, autoStatus), steps);
    if Next(c, step).exec.sim.calls != c.exec.sim.calls {
      if !step.Execution? { OnlyExecutionReachesBroker(c, step); }
      StepSendsWithAuthority(c, step.step);
    }
  }

  predicate WholeReconciles(steps: seq<Step>) {
    forall i | 0 <= i < |steps| && steps[i].BrokerDelivered? :: !steps[i].d.Interrupted?
  }

  predicate NothingCut(c: Core) { c.touches == map[] && forall d | d in c.saw :: c.saw[d].touches == map[] }

  lemma WholeStepCutsNothing(c: Core, step: Step)
    requires NothingCut(c) && (step.BrokerDelivered? ==> !step.d.Interrupted?)
    ensures NothingCut(Next(c, step))
  {
  }

  lemma {:induction false} WholeRunCutsNothing(c: Core, steps: seq<Step>)
    requires NothingCut(c) && WholeReconciles(steps)
    ensures NothingCut(Run(c, steps))
    decreases |steps|
  {
    if steps == [] {
    } else {
      WholeStepCutsNothing(c, steps[0]);
      WholeRunCutsNothing(Next(c, steps[0]), steps[1..]);
    }
  }

  /** While no reconcile is cut short, every ENTRY order is sent on the very holdings Risk judged. */
  lemma WholeReconcilesKeepAuthority(name: BrokerName, autoStatus: OrderStatus, steps: seq<Step>, step: Step)
    requires WholeReconciles(steps)
    ensures var c := Run(EmptyCore(name, autoStatus), steps);
      Next(c, step).exec.sim.calls != c.exec.sim.calls ==>
        && SentWithAuthority(c, Next(c, step))
        && var r := c.exec.requests[c.exec.pending.id]; (r.purpose == Purpose.Entry ==> Authorised(c, r))
  {
    SubmissionIsAuthorised(name, autoStatus, steps, step);
    WholeRunCutsNothing(EmptyCore(name, autoStatus), steps);
  }
}
