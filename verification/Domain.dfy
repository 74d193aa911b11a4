/** The records and enums that every component of TradeMonitor shares.
    Timestamps are integers, decimals are reals, and generated identifiers are
    natural numbers handed in by the caller. */
module Domain {

  datatype Option<+T> = None | Some(value: T)

  /** How a call ends that may raise an exception. */
  datatype Outcome<+T> = Returned(value: T) | Raised

  type Id = nat
  type Time = int

  /** Broker names and broker position keys are only ever compared, so they are interned. */
  type BrokerName = nat
  type PositionKey = nat

  function Abs(n: int): nat { if n < 0 then -n else n }

  /** `not text.strip()`: nothing but white space. */
  predicate Blank(text: string) {
    forall i | 0 <= i < |text| :: text[i] in {' ', '\t', '\n', '\r'}
  }

  // ---------------------------------------------------------------- execution

  /** Idempotency keys; the formatted strings of the program are injective in these parts. */
  datatype IdempotencyKey =
    | EntryKey(intentId: Id, decisionId: Id)
    | ExitKey(proposalId: Id)

  datatype Purpose = Entry | Exit
  datatype OrderSide = Buy | Sell
  datatype OrderType = Market | Limit

  datatype OrderStatus = Acknowledged | PartiallyFilled | Filled | Rejected | Cancelled | Unknown

  datatype RequestStatus =
    | Ready | Submitting | Submitted | PartiallyFilled | Filled | Rejected | Cancelled | Uncertain

  datatype RejectionReason =
    | SubmissionOutcomeUnknown
    | ReconciliationUnavailable
    | TruthNotResolvable
    | BrokerReason(text: string)

  /** One broker order as the broker reports it. */
  datatype BrokerOrder = BrokerOrder(
    broker: BrokerName,
    brokerOrderId: Id,
    clientOrderId: IdempotencyKey,
    status: OrderStatus,
    requestedQuantity: int,
    filledQuantity: int,
    averageFillPrice: Option<real>,
    observedAt: Time,
    rejectionReason: Option<string>)
  {
    predicate Valid() {
      requestedQuantity > 0 && 0 <= filledQuantity <= requestedQuantity
    }
  }

  /** The order Module M hands to a broker. */
  datatype OrderTicket = OrderTicket(
    broker: BrokerName,
    clientOrderId: IdempotencyKey,
    instrumentToken: string,
    side: OrderSide,
    quantity: int,
    orderType: OrderType,
    limitPrice: Option<real>)

  /** A durable, authorised instruction for Module M. */
  datatype ExecutionRequest = ExecutionRequest(
    requestId: Id,
    key: IdempotencyKey,
    purpose: Purpose,
    sourceId: Id,
    broker: BrokerName,
    exchange: string,
    symbol: string,
    product: string,
    side: OrderSide,
    quantity: int,
    orderType: OrderType,
    limitPrice: Option<real>,
    status: RequestStatus,
    createdAt: Time,
    updatedAt: Time,
    riskDecisionId: Option<Id>,
    riskProfileVersion: Option<nat>,
    brokerOrderId: Option<Id>,
    filledQuantity: int,
    averageFillPrice: Option<real>,
    rejectionReason: Option<RejectionReason>,
    lastBrokerObservedAt: Option<Time>,
    instrumentToken: Option<string>)
  {
    predicate Valid() {
      && quantity > 0
      && 0 <= filledQuantity <= quantity
      && (orderType == Limit <==> limitPrice.Some?)
      && (purpose == Entry ==> riskDecisionId.Some? && riskProfileVersion.Some?)
    }

    predicate Terminal() {
      status in {RequestStatus.Filled, RequestStatus.Rejected, RequestStatus.Cancelled}
    }
  }

  // ---------------------------------------------------------------- positions

  datatype PositionState = Open | Closed
  datatype ManagementStatus = Managed | Unmanaged
  datatype PositionOrigin = TmNative | BrokerAdopted | BrokerExternal

  /** The broker-reported part of a position; quantity is signed. */
  datatype Facts = Facts(
    exchange: string,
    symbol: string,
    product: string,
    quantity: int,
    averagePrice: real,
    lastPrice: Option<real>,
    realizedPnl: Option<real>,
    unrealizedPnl: Option<real>,
    instrumentToken: Option<string>)

  datatype BrokerRow = BrokerRow(key: PositionKey, facts: Facts, observedAt: Time)

  datatype Funds = Funds(availableCash: Option<real>, usedMargin: Option<real>, netValue: Option<real>)

  datatype AccountSnapshot = AccountSnapshot(
    broker: BrokerName,
    observedAt: Time,
    rows: seq<BrokerRow>,
    funds: Option<Funds>,
    orderCount: Option<int>,
    fillCount: Option<int>)

  datatype Position = Position(
    positionId: Id,
    broker: BrokerName,
    key: PositionKey,
    facts: Facts,
    state: PositionState,
    management: ManagementStatus,
    origin: PositionOrigin,
    firstSeenAt: Time,
    updatedAt: Time)
  {
    predicate IsOpen() { state == Open && facts.quantity != 0 }

    predicate IsManaged() { management == Managed }
  }

  datatype TradeType = Day | Btst | Stbt | Pos
  datatype InstrumentType = Cash | Future | OptionContract

  /** Management metadata of a MANAGED position; expiry is a day number. */
  datatype ManagementProfile = ManagementProfile(
    positionId: Id,
    instrumentType: InstrumentType,
    tradeType: TradeType,
    horizonAt: Time,
    expiryDate: Option<int>,
    activatedAt: Time,
    activatedBy: string,
    reason: string)
  {
    predicate Valid() {
      && !Blank(activatedBy) && !Blank(reason)
      && (instrumentType == Cash <==> expiryDate.None?)
      && activatedAt <= horizonAt
    }
  }

  // --------------------------------------------------------- management rules

  datatype ConditionOperator = Above | AtOrAbove | Below | AtOrBelow

  function Compare(value: real, operator: ConditionOperator, threshold: real): bool {
    match operator
    case Above => value > threshold
    case AtOrAbove => value >= threshold
    case Below => value < threshold
    case AtOrBelow => value <= threshold
  }

  datatype RuleType =
    | HardSl | TakeProfit | TrailingSl | ProfitLock | SpotCondition | PremiumCondition
    | PnlCondition | TimeExit | Horizon | UnderlyingInvalidation

  datatype RuleStatus = RuleActive | RuleArmed | RuleTriggered | RuleCancelled

  /** The rule's parameter mapping: a key may be missing. */
  datatype RuleParameters = RuleParameters(
    operator: Option<ConditionOperator>,
    value: Option<real>,
    trailPct: Option<real>,
    activateAtPremium: Option<real>,
    activatePnl: Option<real>,
    floorPnl: Option<real>,
    at: Option<Time>)

  /** What a stateful rule remembers between ticks. */
  datatype RuleState = RuleState(
    armed: bool,
    watermark: Option<real>,
    effectiveStop: Option<real>,
    activatedPnl: Option<real>)

  datatype RuleSpec = RuleSpec(
    ruleType: RuleType, parameters: RuleParameters, createdBy: string, reason: string, policyName: Option<string>)

  datatype ManagementRule = ManagementRule(
    ruleId: Id,
    positionId: Id,
    ruleType: RuleType,
    parameters: RuleParameters,
    status: RuleStatus,
    state: RuleState,
    createdAt: Time,
    updatedAt: Time,
    createdBy: string,
    reason: string,
    policyName: Option<string>)
  {
    predicate Done() { status == RuleTriggered || status == RuleCancelled }
  }

  datatype ManagementSnapshot = ManagementSnapshot(
    observedAt: Time, premium: Option<real>, underlyingPrice: Option<real>, pnl: Option<real>)

  datatype Metric = PremiumMetric | UnderlyingMetric | PnlMetric

  /** Why something happened; rule reasons are formatted from these parts. */
  datatype Reason =
    | Text(text: string)
    | Unavailable
    | Waiting
    | TrailingHit(premium: real, stop: real)
    | TrailingActive(premium: real, stop: real)
    | FloorReached(pnl: real, floor: real)
    | FloorAhead(pnl: real, floor: real)
    | HorizonReached(at: Time)
    | TimeReached(at: Time)
    | Satisfied(metric: Metric, value: real, operator: ConditionOperator, threshold: real)

  datatype Evaluation = Evaluation(
    ruleId: Id,
    positionId: Id,
    ruleType: RuleType,
    triggered: bool,
    reason: Reason,
    evaluatedAt: Time,
    effectiveValue: Option<real>)

  // ------------------------------------------------------------ exit proposals

  datatype ExitClass = Strategic | Deterministic | Protective
  datatype ExitAction = ExitAll | ExitQty | ExitPercent

  datatype ExitStatus =
    | ExitPending | ExitApproved | ExitRejected | ExitRetreatWait | ExitCancelled
    | ExitSuperseded | SatisfiedByBroker

  datatype ExitProposal = ExitProposal(
    proposalId: Id,
    positionId: Id,
    class_: ExitClass,
    action: ExitAction,
    requestedQuantity: Option<int>,
    requestedPercent: Option<real>,
    status: ExitStatus,
    reasons: seq<Reason>,
    triggerRuleIds: seq<Id>,
    createdAt: Time,
    updatedAt: Time,
    createdBy: string)
  {
    predicate Active() { status == ExitPending || status == ExitApproved }
  }

  datatype Verdict = Approve | Reject | RetreatWait
  datatype ReviewStatus = ReviewPending | ReviewCompleted | ReviewFailed

  /** What the external Agents service answers: nothing, or a verdict for some review id. */
  datatype AgentAnswer = NoAnswer | Answer(reviewId: Id, verdict: Verdict, respondedAt: Time)

  /** One Agent validation cycle for an entry intent or an exit proposal. */
  datatype Review = Review(
    reviewId: Id,
    subjectId: Id,
    status: ReviewStatus,
    verdict: Option<Verdict>,
    userDecision: Option<Verdict>,
    createdAt: Time,
    updatedAt: Time)

  // ------------------------------------------------------------ broker context

  datatype BrokerStatus = NotReconciled | BrokerReconciled | BrokerUnavailable | BrokerStale

  /** The broker facts a Risk decision depends on; observation time and live prices are left
      out, and sorting the rows makes their order irrelevant. */
  datatype RiskToken = RiskToken(
    broker: BrokerName,
    rows: multiset<TokenRow>,
    funds: Option<Funds>,
    orderCount: Option<int>,
    fillCount: Option<int>)

  datatype TokenRow = TokenRow(
    key: PositionKey,
    exchange: string,
    symbol: string,
    product: string,
    quantity: int,
    averagePrice: real)

  /** Core's broker context, durable except for what a restart resets. */
  datatype BrokerContext = BrokerContext(
    status: BrokerStatus,
    broker: Option<BrokerName>,
    observedAt: Option<Time>,
    token: Option<RiskToken>,
    runtimeReconciled: bool)

  const EMPTY_CONTEXT := BrokerContext(NotReconciled, None, None, None, false)

  datatype MarketStatus = MarketFresh | MarketStale | MarketUnavailable

  // ------------------------------------------------------------------- entries

  datatype PriceCondition = PriceCondition(operator: ConditionOperator, value: real) {
    predicate Matches(actual: real) { Compare(actual, operator, value) }
  }

  datatype EntryState =
    | Monitoring | Triggered | Confirming | WaitingRetreat | ReadyForReview
    | AgentReviewPending | UserDecisionPending | ReadyForRisk | RiskApproved | RiskBlocked
    | EntryRejected | EntryInvalidated | EntryExpired | EntryCancelled

  datatype EntryIntent = EntryIntent(
    intentId: Id,
    episodeId: Id,
    underlying: string,
    contractSymbol: Option<string>,
    horizonAt: Time,
    expiryDate: Option<int>,
    trigger: PriceCondition,
    confirmation: Option<PriceCondition>,
    invalidation: Option<PriceCondition>,
    premiumMin: Option<real>,
    premiumMax: Option<real>,
    state: EntryState,
    updatedAt: Time,
    lastSpot: Option<real>,
    lastPremium: Option<real>)
  {
    predicate Active() { state !in {EntryRejected, EntryInvalidated, EntryExpired, EntryCancelled} }
  }

  /** Market facts for one entry evaluation; `observedOn` is the calendar day of `observedAt`. */
  datatype EntrySnapshot = EntrySnapshot(
    observedAt: Time, observedOn: int, spot: real, premium: Option<real>, candleClose: Option<real>)

  // ---------------------------------------------------------------------- risk

  datatype RiskProfile = RiskProfile(
    version: nat,
    maxPositionValue: Option<real>,
    maxTradeLoss: Option<real>,
    maxOpenPositions: Option<int>,
    maxTotalExposure: Option<real>)
  {
    predicate Valid() {
      && version >= 1
      && (maxPositionValue.Some? ==> maxPositionValue.value > 0.0)
      && (maxTradeLoss.Some? ==> maxTradeLoss.value > 0.0)
      && (maxOpenPositions.Some? ==> maxOpenPositions.value >= 1)
      && (maxTotalExposure.Some? ==> maxTotalExposure.value > 0.0)
    }
  }

  datatype RiskProposal = RiskProposal(
    intentId: Id, plannedQty: int, plannedEntryPrice: real, plannedMaxLoss: Option<real>)
  {
    predicate Valid() {
      plannedQty > 0 && plannedEntryPrice > 0.0 && (plannedMaxLoss.Some? ==> plannedMaxLoss.value >= 0.0)
    }

    function Value(): real { plannedEntryPrice * (plannedQty as real) }
  }

  datatype RiskReason =
    | BrokerTruthNotCurrent | MaxPositionValueExceeded | PlannedMaxLossUnknown | MaxTradeLossExceeded
    | MaxOpenPositionsReached | MaxTotalExposureExceeded

  datatype RiskDecision = RiskDecision(
    decisionId: Id,
    intentId: Id,
    profileVersion: nat,
    evaluatedAt: Time,
    reasons: seq<RiskReason>,
    openCount: nat,
    projectedExposure: real,
    broker: Option<BrokerName>,
    brokerObservedAt: Option<Time>,
    brokerToken: Option<RiskToken>,
    proposal: RiskProposal)
  {
    predicate Pass() { reasons == [] }
  }

  datatype ProfileChange = ProfileChange(changeId: Id, confirmed: bool, limits: RiskProfile, resultingVersion: Option<nat>)

  // ----------------------------------------------------------------- approvals

  datatype ExecutionMode = Paper | SemiAuto | Auto

  datatype ApprovalStatus = ApprovalPending | Approved | ApprovalRejected

  datatype ExecutionApproval = ExecutionApproval(
    approvalId: Id,
    requestId: Id,
    key: IdempotencyKey,
    status: ApprovalStatus,
    updatedAt: Time,
    decidedAt: Option<Time>)

  // -------------------------------------------------------------------- intake

  /** What makes two observations the same broad opportunity. */
  datatype OutcomeIdentity = OutcomeIdentity(
    underlying: string,
    direction: string,
    setup: string,
    tradeType: Option<string>,
    instrumentType: Option<string>,
    optionType: Option<string>)

  /** What makes two observations the same manifestation of it. */
  datatype EpisodeIdentity = EpisodeIdentity(
    contractSymbol: Option<string>, expiry: Option<string>, strike: Option<string>, contextKey: Option<string>)

  datatype TradeIntent = TradeIntent(
    outcome: OutcomeIdentity, episode: EpisodeIdentity, premium: Option<string>, referencePrice: Option<string>)

  /** One incoming observation; the payload is only ever compared. */
  datatype Arrival = Arrival(srcId: string, source: string, observedAt: Time, intent: TradeIntent, payload: string)

  datatype SourceObservation = SourceObservation(observationId: Id, arrival: Arrival, outcomeId: Id, episodeId: Id)

  datatype OutcomeRecord = OutcomeRecord(outcomeId: Id, identity: OutcomeIdentity, createdAt: Time, updatedAt: Time)

  datatype EpisodeStatus = EpisodeActive | EpisodeSuperseded

  datatype Episode = Episode(
    episodeId: Id,
    outcomeId: Id,
    signature: EpisodeIdentity,
    status: EpisodeStatus,
    startedAt: Time,
    lastObservedAt: Time,
    latestObservationId: Id)

  datatype EpisodeDecision = SameEpisode | NewEpisode | StaleObservation
}
