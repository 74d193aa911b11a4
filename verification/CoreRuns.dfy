/** Whole runs of the entry side of Core: intents, reviews, Risk, profiles, broker and market
    truth, requests and deployment.  Every call that writes more than once may be cut short. */
module CoreRuns {
  import opened Domain
  import opened BrokerSimulator
  import opened Engine
  import opened Entry
  import opened Risk
  import opened Requests
  import opened BrokerTruth
  import P = Positions
  import X = ExecutionRuns

  /** What Core held about the account at some moment: the snapshot last accepted, what reconciles
      cut short wrote since, and the open book that came of it. */
  datatype Sight = Sight(
    last: Option<AccountSnapshot>, touches: map<PositionKey, Option<Facts>>, book: map<PositionKey, Facts>)

  /** Core's entry state.  `last`, `touches` and `saw` (what each Risk decision was made on) are history. */
  datatype Core = Core(
    intents: map<Id, EntryIntent>,
    decisions: map<Id, RiskDecision>,
    profiles: seq<RiskProfile>,
    exec: World,
    account: Account,
    market: MarketStatus,
    last: Option<AccountSnapshot>,
    touches: map<PositionKey, Option<Facts>>,
    saw: map<Id, Sight>)

  function SightOf(c: Core): Sight { Sight(c.last, c.touches, OpenBook(c.account.book)) }

  /** `writes` is how many of a call's durable writes happen before it ends or the process dies. */
  datatype Step =
    | IntentCreated(intent: EntryIntent)
    | IntentEvaluated(id: Id, snapshot: EntrySnapshot, writes: nat)
    | IntentRearmed(id: Id, at: Time)
    | ReviewRequested(id: Id, answer: AgentAnswer, reviewId: Id, at: Time, now: Time, writes: nat)
    | UserDecided(id: Id, choice: Verdict, at: Time)
    | RiskEvaluated(id: Id, proposal: RiskProposal, decisionId: Id, listing: seq<Position>, at: Time, writes: nat)
    | RiskRearmed(id: Id, at: Time)
    | ProfileConfirmed(limits: RiskProfile)
    | EntryPrepared(intentId: Id, decisionId: Id, requestId: Id, route: OrderRoute)
    | ExitPrepared(request: ExecutionRequest)
    | DeployStarted(id: Id, at: Time)
    | BrokerDelivered(d: Delivery)
    | BrokerMarkedStale
    | MarketChanged(status: MarketStatus)
    | Execution(step: X.Step)
    | Crashed

  // ---------------------------------------------------------------------- gates

  /** The decision was made on the broker facts the context holds now. */
  predicate SameBrokerFacts(ctx: BrokerContext, d: RiskDecision) {
    if d.brokerToken.Some? then ctx.token == d.brokerToken else ctx.observedAt == d.brokerObservedAt
  }

  predicate PrepareGate(ctx: BrokerContext, market: MarketStatus, broker: BrokerName, d: RiskDecision) {
    && market == MarketFresh
    && ctx.runtimeReconciled && ctx.status == BrokerReconciled && ctx.broker == Some(broker)
    && SameBrokerFacts(ctx, d)
  }

  /** `_assert_entry_execution_authorization_current` */
  predicate EntryGate(ctx: BrokerContext, market: MarketStatus, decisions: map<Id, RiskDecision>,
                      profiles: seq<RiskProfile>, r: ExecutionRequest)
  {
    && market == MarketFresh
    && r.riskDecisionId.Some?
    && IsLatestDecision(decisions, r.sourceId, r.riskDecisionId.value)
    && decisions[r.riskDecisionId.value].Pass()
    && |profiles| > 0 && ActiveProfile(profiles).version == decisions[r.riskDecisionId.value].profileVersion
    && ctx.runtimeReconciled && ctx.status == BrokerReconciled && ctx.broker == Some(r.broker)
    && SameBrokerFacts(ctx, decisions[r.riskDecisionId.value])
  }

  // ---------------------------------------------------------------------- steps

  predicate OpenListing(listing: seq<Position>, book: map<PositionKey, Position>) {
    && (forall i | 0 <= i < |listing| ::
          listing[i].IsOpen() && listing[i].key in book && book[listing[i].key] == listing[i])
    && (forall i, j | 0 <= i < j < |listing| :: listing[i].key != listing[j].key)
    && (forall key | key in book && book[key].IsOpen() :: book[key] in listing && book[key].key == key)
  }

  function AfterWrites<T>(before: T, path: seq<T>, writes: nat): T {
    if writes == 0 || path == [] then before
    else path[if writes <= |path| then writes - 1 else |path| - 1]
  }

  function Put(c: Core, i: EntryIntent): Core { c.(intents := c.intents[i.intentId := i]) }

  function ReviewPath(i: EntryIntent, answer: AgentAnswer, reviewId: Id, at: Time, now: Time): seq<EntryIntent> {
    var pending := i.(state := AgentReviewPending, updatedAt := at);
    [pending, pending.(state := StateAfterAnswer(answer, reviewId), updatedAt := now)]
  }

  predicate CanEvaluateRisk(c: Core, id: Id, proposal: RiskProposal, decisionId: Id, listing: seq<Position>) {
    && id in c.intents && c.intents[id].state == ReadyForRisk
    && proposal.intentId == id && proposal.Valid()
    && decisionId !in c.decisions
    && OpenListing(listing, c.account.book)
  }

  function RiskStep(c: Core, id: Id, proposal: RiskProposal, decisionId: Id, listing: seq<Position>, at: Time, writes: nat): Core
    requires CanEvaluateRisk(c, id, proposal, decisionId, listing)
  {
    var profiles := WithBootstrap(c.profiles);
    var d := Decide(decisionId, ActiveProfile(profiles), proposal, listing, c.account.ctx, at);
    var decided := c.(profiles := profiles, decisions := c.decisions[decisionId := d], saw := c.saw[decisionId := SightOf(c)]);
    if writes == 0 then c.(profiles := profiles)
    else if writes == 1 then decided
    else Put(decided, c.intents[id].(state := StateAfterRisk(d), updatedAt := at))
  }

  predicate CanPrepareEntry(c: Core, intentId: Id, decisionId: Id, requestId: Id, route: OrderRoute) {
    && EntryAuthorised(c.intents, c.decisions, c.profiles, intentId, decisionId)
    && PrepareGate(c.account.ctx, c.market, route.broker, c.decisions[decisionId])
    && requestId !in c.exec.requests
    && EntryKey(intentId, decisionId) !in X.Keys(c.exec)
  }

  /** Environment moves and the rest of a call already under way; the others need the Core lock. */
  predicate NeedsLock(step: Step) {
    match step
    case Execution(s) => s.StartReconcile? || s.StartCancel?
    case Crashed => false
    case _ => true
  }

  function Next(c: Core, step: Step): Core {
    if NeedsLock(step) && !c.exec.pending.Idle? then c else Locked(c, step)
  }

  /** The step when nothing else holds the lock. */
  function Locked(c: Core, step: Step): Core {
    match step
    case IntentCreated(i) =>
      if i.intentId !in c.intents && i.state == Monitoring
         && (forall id | id in c.intents :: !ActiveFor(c.intents, i.episodeId, id))
      then Put(c, i) else c
    case IntentEvaluated(id, s, writes) =>
      if id in c.intents then Put(c, AfterWrites(c.intents[id], EntryPath(c.intents[id], s), writes)) else c
    case IntentRearmed(id, at) =>
      if id in c.intents && c.intents[id].state == WaitingRetreat
      then Put(c, c.intents[id].(state := Monitoring, updatedAt := at)) else c
    case ReviewRequested(id, answer, reviewId, at, now, writes) =>
      if id in c.intents && c.intents[id].state == ReadyForReview
      then Put(c, AfterWrites(c.intents[id], ReviewPath(c.intents[id], answer, reviewId, at, now), writes)) else c
    case UserDecided(id, choice, at) =>
      if id in c.intents && c.intents[id].state == UserDecisionPending
      then Put(c, c.intents[id].(state := StateAfterUser(choice), updatedAt := at)) else c
    case RiskEvaluated(id, proposal, decisionId, listing, at, writes) =>
      if CanEvaluateRisk(c, id, proposal, decisionId, listing)
      then RiskStep(c, id, proposal, decisionId, listing, at, writes) else c
    case RiskRearmed(id, at) =>
      if id in c.intents && c.intents[id].state == RiskBlocked
      then Put(c, c.intents[id].(state := ReadyForRisk, updatedAt := at)) else c
    case ProfileConfirmed(limits) =>
      if limits.(version := 1).Valid()
      then c.(profiles := WithBootstrap(c.profiles) + [limits.(version := |WithBootstrap(c.profiles)| + 1)]) else c
    case EntryPrepared(intentId, decisionId, requestId, route) =>
      if CanPrepareEntry(c, intentId, decisionId, requestId, route)
      then Requested(c, EntryRequest(requestId, c.intents[intentId], c.decisions[decisionId], route)) else c
    case ExitPrepared(r) => if r.purpose == Purpose.Exit && r.key.ExitKey? then Requested(c, r) else c
    case DeployStarted(id, at) =>
      if id in c.exec.requests && (c.exec.requests[id].purpose == Purpose.Entry ==>
            EntryGate(c.account.ctx, c.market, c.decisions, c.profiles, c.exec.requests[id]))
      then c.(exec := DurableWrite(c.exec, id, at)) else c
    case BrokerDelivered(d) =>
      if d.Snapshot? && !P.DistinctRows(d.s.rows) then c
      else c.(account := Deliver(c.account, c.exec.sim.name, d),
              last := if Accepts(c.account.ctx, c.exec.sim.name, d) then Some(d.s) else c.last,
              touches := TouchesAfter(c.touches, c.account.ctx, c.exec.sim.name, d))
    case BrokerMarkedStale => c.(account := c.account.(ctx := c.account.ctx.(status := BrokerStale)))
    case MarketChanged(status) => c.(market := status)
    case Execution(s) =>
      if s.Create? || s.StartDeploy? || s.Crashed? then c else c.(exec := X.Next(c.exec, s))
    case Crashed => c.(exec := Crash(c.exec), account := Deliver(c.account, c.exec.sim.name, Restart))
  }

  function Requested(c: Core, r: ExecutionRequest): Core { c.(exec := X.Next(c.exec, X.Create(r))) }

  function Run(c: Core, steps: seq<Step>): Core
    decreases |steps|
  {
    if steps == [] then c else Run(Next(c, steps[0]), steps[1..])
  }

  function EmptyCore(name: BrokerName, autoStatus: OrderStatus): Core {
    Core(map[], map[], [], X.Initial(name, autoStatus), Account(map[], EMPTY_CONTEXT), MarketFresh, None, map[], map[])
  }

  /** Calls that are not cut short are the steps with all their writes. */
  lemma CompletedEntryCallsAreSteps(c: Core, id: Id, s: EntrySnapshot, answer: AgentAnswer, reviewId: Id, at: Time, now: Time)
    requires c.exec.pending.Idle? && id in c.intents && c.intents[id].intentId == id
    ensures Next(c, IntentEvaluated(id, s, |EntryPath(c.intents[id], s)|))
         == c.(intents := c.intents[id := EvaluatedIntent(c.intents[id], s)])
    ensures c.intents[id].state == ReadyForReview ==>
      Next(c, ReviewRequested(id, answer, reviewId, at, now, 2))
        == c.(intents := c.intents[id := c.intents[id].(state := StateAfterAnswer(answer, reviewId), updatedAt := now)])
  {
    assert c.intents[id := c.intents[id]] == c.intents;
  }
}
