/** Module M: controlled deployment and order reconciliation.

    The protocol is written as steps over a world (durable requests, broker,
    what the running call has in hand), so that a crash can fall between any two.
    The engine's methods are proved to be compositions of those steps. */
module Engine {
  import opened Domain
  import opened BrokerSimulator
  import opened Store

  // ------------------------------------------------------------- record updates

  predicate Resolvable(r: ExecutionRequest) {
    !Blank(r.exchange) && !Blank(r.symbol) && !Blank(r.product)
  }

  function ResolvedToken(r: ExecutionRequest): string {
    if r.instrumentToken.Some? && r.instrumentToken.value != "" then r.instrumentToken.value
    else r.exchange + ":" + r.symbol
  }

  function MarkSubmitting(r: ExecutionRequest, at: Time): ExecutionRequest {
    r.(status := RequestStatus.Submitting, instrumentToken := Some(ResolvedToken(r)), updatedAt := at)
  }

  function TicketFor(r: ExecutionRequest): OrderTicket {
    OrderTicket(r.broker, r.key, ResolvedToken(r), r.side, r.quantity, r.orderType, r.limitPrice)
  }

  function MarkUncertain(r: ExecutionRequest, why: RejectionReason, at: Time): ExecutionRequest {
    r.(status := RequestStatus.Uncertain, updatedAt := at, rejectionReason := Some(why))
  }

  function Mapped(status: OrderStatus): RequestStatus {
    match status
    case Acknowledged => RequestStatus.Submitted
    case PartiallyFilled => RequestStatus.PartiallyFilled
    case Filled => RequestStatus.Filled
    case Rejected => RequestStatus.Rejected
    case Cancelled => RequestStatus.Cancelled
    case Unknown => RequestStatus.Uncertain
  }

  predicate Correlates(r: ExecutionRequest, s: BrokerOrder) {
    s.broker == r.broker && s.clientOrderId == r.key && s.requestedQuantity == r.quantity
  }

  function Recorded(r: ExecutionRequest, s: BrokerOrder): ExecutionRequest {
    r.(status := Mapped(s.status),
       brokerOrderId := Some(s.brokerOrderId),
       filledQuantity := s.filledQuantity,
       averageFillPrice := s.averageFillPrice,
       rejectionReason := if s.rejectionReason.Some? then Some(BrokerReason(s.rejectionReason.value)) else None,
       lastBrokerObservedAt := Some(s.observedAt),
       updatedAt := s.observedAt)
  }

  /** `_apply_broker_truth`: refuses truth about some other order. */
  function ApplyTruth(r: ExecutionRequest, s: BrokerOrder): Outcome<ExecutionRequest> {
    if Correlates(r, s) then Returned(Recorded(r, s)) else Raised
  }

  predicate Stale(r: ExecutionRequest, s: BrokerOrder) {
    r.lastBrokerObservedAt.Some? && s.observedAt < r.lastBrokerObservedAt.value
  }

  /** What the request becomes once `submit_order` has answered. */
  function AfterSubmit(r: ExecutionRequest, answer: Outcome<BrokerOrder>, now: Time): Outcome<ExecutionRequest> {
    match answer
    case Raised => Returned(MarkUncertain(r, SubmissionOutcomeUnknown, now))
    case Returned(s) => ApplyTruth(r, s)
  }

  /** What the request becomes once the broker has answered a read (or a cancel). */
  function AfterFetch(r: ExecutionRequest, answer: Outcome<Option<BrokerOrder>>, at: Time): Outcome<ExecutionRequest> {
    match answer
    case Raised => Returned(MarkUncertain(r, ReconciliationUnavailable, at))
    case Returned(None) => Returned(MarkUncertain(r, TruthNotResolvable, at))
    case Returned(Some(s)) => if Stale(r, s) then Returned(r) else ApplyTruth(r, s)
  }

  /** Read by client id, then by broker id when one is known. */
  function FetchTruth(b: Sim, key: IdempotencyKey, orderId: Option<Id>): (Sim, Outcome<Option<BrokerOrder>>) {
    var (b, first) := FetchByClient(b, key);
    if first == Returned(None) && orderId.Some? then FetchById(b, orderId.value) else (b, first)
  }

  // ------------------------------------------------------------- protocol steps

  /** What the one running engine call has in hand; lost in a crash. */
  datatype Pending =
    | Idle
    | Sending(id: Id)
    | Replied(id: Id, reply: Outcome<BrokerOrder>)
    | Fetched(id: Id, answer: Outcome<Option<BrokerOrder>>)

  datatype World = World(requests: map<Id, ExecutionRequest>, sim: Sim, pending: Pending)

  /** The engine call in progress, if any, is about a stored request of this broker. */
  predicate Addressed(w: World, id: Id) {
    w.pending.Idle? && id in w.requests && w.requests[id].broker == w.sim.name
  }

  /** Deploy, first durable write: READY becomes SUBMITTING before the broker is called. */
  function DurableWrite(w: World, id: Id, at: Time): World {
    if Addressed(w, id) && w.requests[id].status == RequestStatus.Ready && Resolvable(w.requests[id]) then
      w.(requests := w.requests[id := MarkSubmitting(w.requests[id], at)], pending := Sending(id))
    else w
  }

  /** Deploy, the broker call. */
  function BrokerCall(w: World, now: Time): World {
    if w.pending.Sending? && w.pending.id in w.requests then
      var (sim, reply) := Submit(w.sim, TicketFor(w.requests[w.pending.id]), now);
      w.(sim := sim, pending := Replied(w.pending.id, reply))
    else w
  }

  /** Deploy, the final durable write. */
  function FinalWrite(w: World, now: Time): World {
    if w.pending.Replied? && w.pending.id in w.requests then
      match AfterSubmit(w.requests[w.pending.id], w.pending.reply, now)
      case Returned(r) => w.(requests := w.requests[w.pending.id := r], pending := Idle)
      case Raised => w.(pending := Idle)
    else w
  }

  /** Reconcile, the broker read. */
  function Fetch(w: World, id: Id): World {
    if Addressed(w, id) && !w.requests[id].Terminal() then
      var (sim, answer) := FetchTruth(w.sim, w.requests[id].key, w.requests[id].brokerOrderId);
      w.(sim := sim, pending := Fetched(id, answer))
    else w
  }

  /** Cancel, the broker call; an unknown order raises and leaves nothing in hand. */
  function CancelCall(w: World, id: Id, now: Time): World {
    if Addressed(w, id) && w.requests[id].brokerOrderId.Some? && !w.requests[id].Terminal() then
      match Cancel(w.sim, w.requests[id].brokerOrderId.value, now)
      case (sim, Returned(s)) => w.(sim := sim, pending := Fetched(id, Returned(Some(s))))
      case (sim, Raised) => w.(sim := sim)
    else w
  }

  /** Reconcile and cancel, the durable write. */
  function TruthWrite(w: World, at: Time): World {
    if w.pending.Fetched? && w.pending.id in w.requests then
      match AfterFetch(w.requests[w.pending.id], w.pending.answer, at)
      case Returned(r) => w.(requests := w.requests[w.pending.id := r], pending := Idle)
      case Raised => w.(pending := Idle)
    else w
  }

  /** The process dies; the store and the broker survive. */
  function Crash(w: World): World { w.(pending := Idle) }

  function Reconciled(w: World, id: Id, at: Time): World { TruthWrite(Fetch(w, id), at) }

  function Deployed(w: World, id: Id, at: Time, now: Time): World {
    if Addressed(w, id) && w.requests[id].status != RequestStatus.Ready then Reconciled(w, id, at)
    else FinalWrite(BrokerCall(DurableWrite(w, id, at), now), now)
  }

  function CancelledOrder(w: World, id: Id, now: Time): World { TruthWrite(CancelCall(w, id, now), now) }

  // -------------------------------------------------------------------- Module M

  class ExecutionEngine {
    const repository: Repository

    constructor (repository: Repository)
      ensures this.repository == repository
    {
      this.repository := repository;
    }

    ghost function View(broker: SimulatedExecutionBroker): World
      reads repository, broker
    {
      World(repository.executionRequests, broker.View(), Idle)
    }

    /** Deploys a READY request; a request already past READY is only reconciled. */
    method Deploy(id: Id, broker: SimulatedExecutionBroker, at: Time, now: Time) returns (r: Outcome<ExecutionRequest>)
      requires broker.Valid()
      modifies repository`executionRequests, broker
      ensures broker.Valid()
      ensures View(broker) == Deployed(old(View(broker)), id, at, now)
      ensures r.Returned? ==> id in repository.executionRequests && r.value == repository.executionRequests[id]
    {
      if id !in repository.executionRequests { return Raised; }
      var request := repository.executionRequests[id];
      if broker.name != request.broker { return Raised; }
      if request.status != RequestStatus.Ready {
        r := Reconcile(id, broker, at);
        return;
      }
      if Blank(request.exchange) || Blank(request.symbol) || Blank(request.product) { return Raised; }
      var ticket := StartSubmission(id, at);
      var submitting := repository.executionRequests[id];
      var reply := broker.SubmitOrder(ticket, now);
      assert World(repository.executionRequests, broker.View(), Replied(id, reply))
          == BrokerCall(DurableWrite(old(View(broker)), id, at), now);
      var updated := AfterSubmit(submitting, reply, now);
      if updated.Returned? {
        repository.executionRequests := repository.executionRequests[id := updated.value];
      }
      return updated;
    }

    /** The durable SUBMITTING record; returns the order that may now be sent. */
    method StartSubmission(id: Id, at: Time) returns (ticket: OrderTicket)
      requires id in repository.executionRequests
      requires repository.executionRequests[id].status == RequestStatus.Ready
      modifies repository`executionRequests
      ensures repository.executionRequests
           == old(repository.executionRequests)[id := MarkSubmitting(old(repository.executionRequests)[id], at)]
      ensures ticket == TicketFor(repository.executionRequests[id])
    {
      var submitting := MarkSubmitting(repository.executionRequests[id], at);
      repository.executionRequests := repository.executionRequests[id := submitting];
      ticket := TicketFor(submitting);
    }

    method Reconcile(id: Id, broker: SimulatedExecutionBroker, at: Time) returns (r: Outcome<ExecutionRequest>)
      requires broker.Valid()
      modifies repository`executionRequests, broker
      ensures broker.Valid()
      ensures View(broker) == Reconciled(old(View(broker)), id, at)
      ensures r.Returned? ==> id in repository.executionRequests && r.value == repository.executionRequests[id]
    {
      if id !in repository.executionRequests { return Raised; }
      var request := repository.executionRequests[id];
      if broker.name != request.broker { return Raised; }
      if request.Terminal() { return Returned(request); }

      var answer := broker.FetchOrderByClientId(request.key);
      if answer == Returned(None) && request.brokerOrderId.Some? {
        answer := broker.FetchOrder(request.brokerOrderId.value);
      }
      assert World(repository.executionRequests, broker.View(), Fetched(id, answer)) == Fetch(old(View(broker)), id);
      r := SaveTruth(id, answer, at);
    }

    method CancelRequest(id: Id, broker: SimulatedExecutionBroker, now: Time) returns (r: Outcome<ExecutionRequest>)
      requires broker.Valid()
      modifies repository`executionRequests, broker
      ensures broker.Valid()
      ensures View(broker) == CancelledOrder(old(View(broker)), id, now)
      ensures r.Returned? ==> id in repository.executionRequests && r.value == repository.executionRequests[id]
    {
      if id !in repository.executionRequests { return Raised; }
      var request := repository.executionRequests[id];
      if broker.name != request.broker { return Raised; }
      if request.brokerOrderId.None? { return Raised; }
      if request.Terminal() { return Returned(request); }
      var reply := broker.CancelOrder(request.brokerOrderId.value, now);
      if reply.Raised? { return Raised; }
      r := SaveTruth(id, Returned(Some(reply.value)), now);
    }

    /** The durable write shared by reconcile and cancel. */
    method SaveTruth(id: Id, answer: Outcome<Option<BrokerOrder>>, at: Time) returns (r: Outcome<ExecutionRequest>)
      requires id in repository.executionRequests
      modifies repository`executionRequests
      ensures r == AfterFetch(old(repository.executionRequests)[id], answer, at)
      ensures repository.executionRequests ==
        if r.Returned? then old(repository.executionRequests)[id := r.value] else old(repository.executionRequests)
    {
      var request := repository.executionRequests[id];
      match answer {
        case Raised =>
          r := Returned(MarkUncertain(request, ReconciliationUnavailable, at));
        case Returned(None) =>
          r := Returned(MarkUncertain(request, TruthNotResolvable, at));
        case Returned(Some(snapshot)) =>
          if request.lastBrokerObservedAt.Some? && snapshot.observedAt < request.lastBrokerObservedAt.value {
            return Returned(request);
          }
          r := ApplyTruth(request, snapshot);
      }
      if r.Returned? {
        repository.executionRequests := repository.executionRequests[id := r.value];
      }
    }
  }
}
