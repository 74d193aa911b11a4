/** Authorised entry and exit decisions become durable execution requests. */
module Requests {
  import opened Domain
  import opened Store
  import opened Risk
  import opened ExitMonitor

  // --------------------------------------------------------------------- entries

  datatype OrderRoute = OrderRoute(
    broker: BrokerName, exchange: string, product: string, side: OrderSide, orderType: OrderType, at: Time)

  function SymbolOf(i: EntryIntent): string {
    if i.contractSymbol.Some? && i.contractSymbol.value != "" then i.contractSymbol.value else i.underlying
  }

  /** Everything `from_entry` checks before it looks for an existing request. */
  predicate EntryAuthorised(intents: map<Id, EntryIntent>, decisions: map<Id, RiskDecision>, profiles: seq<RiskProfile>,
                            intentId: Id, decisionId: Id)
  {
    && intentId in intents && intents[intentId].state == RiskApproved
    && IsLatestDecision(decisions, intentId, decisionId) && decisions[decisionId].Pass()
    && |profiles| > 0 && ActiveProfile(profiles).version == decisions[decisionId].profileVersion
    && SymbolOf(intents[intentId]) != ""
  }

  function EntryRequest(id: Id, i: EntryIntent, d: RiskDecision, route: OrderRoute): ExecutionRequest {
    ExecutionRequest(
      id, EntryKey(i.intentId, d.decisionId), Purpose.Entry, i.intentId, route.broker, route.exchange, SymbolOf(i),
      route.product, route.side, d.proposal.plannedQty, route.orderType,
      if route.orderType == Limit then Some(d.proposal.plannedEntryPrice) else None,
      RequestStatus.Ready, route.at, route.at, Some(d.decisionId), Some(d.profileVersion),
      None, 0, None, None, None, None)
  }

  // ----------------------------------------------------------------------- exits

  /** `_exit_quantity`: None where the program refuses. */
  function ExitQuantity(quantity: int, p: ExitProposal): Option<int> {
    match p.action
    case ExitAll => Some(Abs(quantity))
    case ExitQty => InRange(if p.requestedQuantity.Some? then p.requestedQuantity.value else 0, quantity)
    case ExitPercent =>
      var percent := if p.requestedPercent.Some? then p.requestedPercent.value else 0.0;
      InRange(RoundDown(Share(Abs(quantity), percent)), quantity)
  }

  function Share(size: nat, percent: real): real { (size as real) * percent / 100.0 }

  function InRange(n: int, quantity: int): Option<int> { if 0 < n <= Abs(quantity) then Some(n) else None }

  /** `ROUND_DOWN`: towards zero. */
  function RoundDown(x: real): int { if x >= 0.0 then x.Floor else -((-x).Floor) }

  function ExitSide(quantity: int): OrderSide { if quantity > 0 then Sell else Buy }

  predicate ExitAuthorised(proposals: map<Id, ExitProposal>, positions: map<Id, Position>, id: Id, broker: BrokerName) {
    && id in proposals && proposals[id].status == ExitApproved
    && OpenManaged(positions, proposals[id].positionId)
    && positions[proposals[id].positionId].broker == broker
    && ExitQuantity(positions[proposals[id].positionId].facts.quantity, proposals[id]).Some?
  }

  function ExitRequest(id: Id, p: ExitProposal, position: Position, orderType: OrderType, limit: Option<real>,
                       at: Time): ExecutionRequest
    requires ExitQuantity(position.facts.quantity, p).Some?
  {
    ExecutionRequest(
      id, ExitKey(p.proposalId), Purpose.Exit, p.proposalId, position.broker, position.facts.exchange,
      position.facts.symbol, position.facts.product, ExitSide(position.facts.quantity),
      ExitQuantity(position.facts.quantity, p).value, orderType, if orderType == Market then None else limit,
      RequestStatus.Ready, at, at, None, None, None, 0, None, None, None, None)
  }

  function WithKey(requests: map<Id, ExecutionRequest>, key: IdempotencyKey): set<Id> {
    set id | id in requests && requests[id].key == key
  }

  /** The request already stored under this key, or the new one; the table changes only for a new key. */
  predicate StoredOnce(before: map<Id, ExecutionRequest>, after: map<Id, ExecutionRequest>, made: ExecutionRequest,
                       r: ExecutionRequest)
  {
    if WithKey(before, made.key) == {} then r == made && after == before[made.requestId := made]
    else after == before && exists id :: id in WithKey(before, made.key) && r == before[id]
  }

  class ExecutionRequestBuilder {
    const repository: Repository

    constructor (repository: Repository)
      ensures this.repository == repository
    {
      this.repository := repository;
    }

    method FromEntry(intentId: Id, decisionId: Id, route: OrderRoute, requestId: Id) returns (r: Outcome<ExecutionRequest>)
      requires requestId !in repository.executionRequests
      requires forall id | id in repository.entryIntents :: repository.entryIntents[id].intentId == id
      requires forall id | id in repository.riskDecisions ::
                 repository.riskDecisions[id].decisionId == id && repository.riskDecisions[id].proposal.Valid()
      modifies repository`executionRequests
      ensures r.Returned? <==>
        EntryAuthorised(repository.entryIntents, repository.riskDecisions, repository.riskProfiles, intentId, decisionId)
      ensures r.Returned? ==>
        var made := EntryRequest(requestId, repository.entryIntents[intentId], repository.riskDecisions[decisionId], route);
        made.Valid() && StoredOnce(old(repository.executionRequests), repository.executionRequests, made, r.value)
      ensures r.Raised? ==> repository.executionRequests == old(repository.executionRequests)
    {
      if !EntryAuthorised(repository.entryIntents, repository.riskDecisions, repository.riskProfiles, intentId, decisionId) {
        return Raised;
      }
      var made := EntryRequest(requestId, repository.entryIntents[intentId], repository.riskDecisions[decisionId], route);
      r := StoreUnlessPresent(made);
    }

    method StoreUnlessPresent(made: ExecutionRequest) returns (r: Outcome<ExecutionRequest>)
      requires made.Valid() && made.requestId !in repository.executionRequests
      modifies repository`executionRequests
      ensures r.Returned?
      ensures StoredOnce(old(repository.executionRequests), repository.executionRequests, made, r.value)
    {
      var existing := WithKey(repository.executionRequests, made.key);
      if existing != {} {
        var id :| id in existing;
        return Returned(repository.executionRequests[id]);
      }
      repository.executionRequests := repository.executionRequests[made.requestId := made];
      return Returned(made);
    }

    method FromExit(proposalId: Id, broker: BrokerName, orderType: OrderType, limit: Option<real>, requestId: Id, at: Time)
      returns (r: Outcome<ExecutionRequest>)
      requires requestId !in repository.executionRequests
      modifies repository`executionRequests
      ensures r.Returned? ==>
        && ExitAuthorised(repository.exitProposals, repository.positions, proposalId, broker)
        && var p := repository.exitProposals[proposalId];
           var made := ExitRequest(requestId, p, repository.positions[p.positionId], orderType, limit, at);
           && (WithKey(old(repository.executionRequests), made.key) == {} ==> made.Valid())
           && StoredOnce(old(repository.executionRequests), repository.executionRequests, made, r.value)
      ensures r.Returned? <==>
        && ExitAuthorised(repository.exitProposals, repository.positions, proposalId, broker)
        && (orderType == Market || limit.Some?
            || WithKey(old(repository.executionRequests), ExitKey(repository.exitProposals[proposalId].proposalId)) != {})
      ensures r.Raised? ==> repository.executionRequests == old(repository.executionRequests)
    {
      if !ExitAuthorised(repository.exitProposals, repository.positions, proposalId, broker) { return Raised; }
      var p := repository.exitProposals[proposalId];
      var position := repository.positions[p.positionId];
      ExitQuantityInRange(position.facts.quantity, p);
      var made := ExitRequest(requestId, p, position, orderType, limit, at);
      if WithKey(repository.executionRequests, made.key) == {} && !made.Valid() { return Raised; }
      var existing := WithKey(repository.executionRequests, made.key);
      if existing != {} {
        var id :| id in existing;
        return Returned(repository.executionRequests[id]);
      }
      repository.executionRequests := repository.executionRequests[made.requestId := made];
      return Returned(made);
    }
  }

  // -------------------------------------------------------------------- exit sizing

  /** An exit is sized between one and the whole exposure, or refused. */
  lemma ExitQuantityInRange(quantity: int, p: ExitProposal)
    requires quantity != 0
    ensures ExitQuantity(quantity, p).Some? ==> 0 < ExitQuantity(quantity, p).value <= Abs(quantity)
    ensures p.action == ExitAll ==> ExitQuantity(quantity, p) == Some(Abs(quantity))
  {
  }

  lemma NotNegative(a: real, b: real)
    requires 0.0 <= a && 0.0 <= b
    ensures 0.0 <= a * b
  {
  }

  lemma Hundredth(product: real, size: real)
    requires 0.0 <= product <= size * 100.0
    ensures 0.0 <= product / 100.0 <= size
  {
  }

  lemma ShareAtMostWhole(size: nat, percent: real)
    requires 0.0 <= percent <= 100.0
    ensures 0.0 <= Share(size, percent) <= size as real
  {
    var whole := size as real;
    NotNegative(whole, percent);
    NotNegative(whole, 100.0 - percent);
    assert whole * (100.0 - percent) == whole * 100.0 - whole * percent;
    Hundredth(whole * percent, whole);
  }

  lemma Distributes(size: real, a: real, b: real)
    ensures size * (a + b) == size * a + size * b
  {
  }

  lemma SharesAddUp(size: nat, a: real, b: real)
    ensures Share(size, a) + Share(size, b) == Share(size, a + b)
  {
    Distributes(size as real, a, b);
  }

  lemma RoundedSharesFit(x: real, y: real, whole: int)
    requires 0.0 <= x && 0.0 <= y && x + y <= whole as real
    ensures RoundDown(x) + RoundDown(y) <= whole
  {
  }

  /** Two percent exits sized from the same exposure never ask for more than it together when
      their percentages add up to at most 100. */
  lemma PercentExitsShareExposure(quantity: int, p: ExitProposal, q: ExitProposal)
    requires p.action == ExitPercent && q.action == ExitPercent
    requires p.requestedPercent.Some? && q.requestedPercent.Some?
    requires 0.0 <= p.requestedPercent.value && 0.0 <= q.requestedPercent.value
    requires p.requestedPercent.value + q.requestedPercent.value <= 100.0
    requires ExitQuantity(quantity, p).Some? && ExitQuantity(quantity, q).Some?
    ensures ExitQuantity(quantity, p).value + ExitQuantity(quantity, q).value <= Abs(quantity)
  {
    var size, a, b := Abs(quantity), p.requestedPercent.value, q.requestedPercent.value;
    ShareAtMostWhole(size, a);
    ShareAtMostWhole(size, b);
    ShareAtMostWhole(size, a + b);
    SharesAddUp(size, a, b);
    RoundedSharesFit(Share(size, a), Share(size, b), size);
  }

  function Filled(quantity: int, side: OrderSide, fill: int): int {
    if side == Buy then quantity + fill else quantity - fill
  }

  /** The quantity checks of the exit deploy gate. */
  predicate ExitSizeCurrent(r: ExecutionRequest, p: ExitProposal, quantity: int) {
    && (p.action == ExitAll ==> r.quantity == Abs(quantity))
    && r.quantity <= Abs(quantity)
  }

  /** `_assert_exit_execution_authorization_current`: it looks at size, not at side. */
  predicate ExitGate(ctx: BrokerContext, proposals: map<Id, ExitProposal>, positions: map<Id, Position>,
                     r: ExecutionRequest)
  {
    && ctx.runtimeReconciled && ctx.status == BrokerReconciled && ctx.broker == Some(r.broker)
    && r.sourceId in proposals && proposals[r.sourceId].status == ExitApproved
    && OpenManaged(positions, proposals[r.sourceId].positionId)
    && ExitSizeCurrent(r, proposals[r.sourceId], positions[proposals[r.sourceId].positionId].facts.quantity)
  }

  /** A fill of a gated exit moves the position towards zero without crossing it, to exactly zero
      for a completely filled EXIT_ALL, if and only if the position still has the sign it had when
      the request was built: the gate checks size, not side. */
  lemma GatedExitReducesIffSignKept(built: int, now: int, r: ExecutionRequest, p: ExitProposal, fill: int)
    requires built != 0 && now != 0
    requires r.side == ExitSide(built) && ExitSizeCurrent(r, p, now) && 0 < fill <= r.quantity
    ensures var after := Filled(now, r.side, fill);
      (built > 0 <==> now > 0) <==>
        && Abs(after) == Abs(now) - fill
        && (after > 0 ==> now > 0) && (after < 0 ==> now < 0)
        && (p.action == ExitAll && fill == r.quantity ==> after == 0)
  {
  }
}
