/** The simulated execution broker: the faulty environment Module M works against. */
module BrokerSimulator {
  import opened Domain

  datatype SubmitFault = NoFault | DisconnectBeforeAccept | AcceptThenTimeout

  /** The broker's state as a value.  `calls` and `answers` are history: every
      `submit_order` call received, and every order snapshot handed to a caller. */
  datatype Sim = Sim(
    name: BrokerName,
    autoStatus: OrderStatus,
    orders: map<Id, BrokerOrder>,
    byClient: map<IdempotencyKey, Id>,
    nextNumber: nat,
    faults: seq<SubmitFault>,
    delays: map<IdempotencyKey, nat>,
    fetchFailures: nat,
    submitCount: nat,
    fetchCount: nat,
    calls: seq<IdempotencyKey>,
    answers: set<BrokerOrder>)
  {
    function Delay(key: IdempotencyKey): nat { if key in delays then delays[key] else 0 }

    predicate Holds(key: IdempotencyKey) { key in byClient && byClient[key] in orders }

    function Truth(key: IdempotencyKey): BrokerOrder
      requires Holds(key)
    { orders[byClient[key]] }
  }

  function NewSim(name: BrokerName, autoStatus: OrderStatus): Sim {
    Sim(name, autoStatus, map[], map[], 1, [], map[], 0, 0, 0, [], {})
  }

  function Accepted(b: Sim, ticket: OrderTicket, now: Time): BrokerOrder {
    var filled := if b.autoStatus == OrderStatus.Filled then ticket.quantity else 0;
    BrokerOrder(b.name, b.nextNumber, ticket.clientOrderId, b.autoStatus, ticket.quantity, filled,
                if filled != 0 then ticket.limitPrice else None, now, None)
  }

  function Submit(b: Sim, ticket: OrderTicket, now: Time): (Sim, Outcome<BrokerOrder>) {
    var b := b.(calls := b.calls + [ticket.clientOrderId]);
    if ticket.broker != b.name then (b, Raised)
    else if b.Holds(ticket.clientOrderId) then
      (b.(answers := b.answers + {b.Truth(ticket.clientOrderId)}), Returned(b.Truth(ticket.clientOrderId)))
    else
      var fault := if b.faults == [] then NoFault else b.faults[0];
      var b := b.(faults := if b.faults == [] then [] else b.faults[1..], submitCount := b.submitCount + 1);
      if fault == DisconnectBeforeAccept then (b, Raised)
      else
        var order := Accepted(b, ticket, now);
        var b := b.(orders := b.orders[b.nextNumber := order],
                    byClient := b.byClient[ticket.clientOrderId := b.nextNumber],
                    nextNumber := b.nextNumber + 1);
        if fault == AcceptThenTimeout then (b, Raised)
        else (b.(answers := b.answers + {order}), Returned(order))
  }

  function Answering(b: Sim, answer: Option<BrokerOrder>): (Sim, Outcome<Option<BrokerOrder>>) {
    (if answer.Some? then b.(answers := b.answers + {answer.value}) else b, Returned(answer))
  }

  function FetchById(b: Sim, orderId: Id): (Sim, Outcome<Option<BrokerOrder>>) {
    var b := b.(fetchCount := b.fetchCount + 1);
    if b.fetchFailures > 0 then (b.(fetchFailures := b.fetchFailures - 1), Raised)
    else Answering(b, if orderId in b.orders then Some(b.orders[orderId]) else None)
  }

  function FetchByClient(b: Sim, key: IdempotencyKey): (Sim, Outcome<Option<BrokerOrder>>) {
    var b := b.(fetchCount := b.fetchCount + 1);
    if b.fetchFailures > 0 then (b.(fetchFailures := b.fetchFailures - 1), Raised)
    else if b.Delay(key) > 0 then (b.(delays := b.delays[key := b.Delay(key) - 1]), Returned(None))
    else Answering(b, if b.Holds(key) then Some(b.Truth(key)) else None)
  }

  function Cancel(b: Sim, orderId: Id, now: Time): (Sim, Outcome<BrokerOrder>) {
    if orderId !in b.orders then (b, Raised)
    else
      var current := b.orders[orderId];
      var updated :=
        if current.status in {OrderStatus.Filled, OrderStatus.Rejected, OrderStatus.Cancelled} then current
        else current.(status := OrderStatus.Cancelled, observedAt := now);
      (b.(orders := b.orders[orderId := updated], answers := b.answers + {updated}), Returned(updated))
  }

  /** A later broker-side transition of an order; out-of-range fills are refused. */
  function SetTruth(b: Sim, orderId: Id, status: OrderStatus, filled: Option<int>, average: Option<real>,
                    rejection: Option<string>, observedAt: Time): (Sim, Outcome<BrokerOrder>) {
    if orderId !in b.orders then (b, Raised)
    else
      var current := b.orders[orderId];
      var updated := current.(
        status := status,
        filledQuantity := if filled.Some? then filled.value else current.filledQuantity,
        averageFillPrice := if average.Some? then average else current.averageFillPrice,
        rejectionReason := rejection,
        observedAt := observedAt);
      if !updated.Valid() then (b, Raised)
      else (b.(orders := b.orders[orderId := updated]), Returned(updated))
  }

  class SimulatedExecutionBroker {
    const name: BrokerName
    const autoStatus: OrderStatus
    var ordersById: map<Id, BrokerOrder>
    var ordersByClient: map<IdempotencyKey, Id>
    var nextOrderNumber: nat
    var submitFaults: seq<SubmitFault>
    var clientVisibilityDelay: map<IdempotencyKey, nat>
    var fetchFailuresRemaining: nat
    var submitCount: nat
    var fetchCount: nat
    ghost var calls: seq<IdempotencyKey>
    ghost var answers: set<BrokerOrder>

    ghost function View(): Sim
      reads this
    {
      Sim(name, autoStatus, ordersById, ordersByClient, nextOrderNumber, submitFaults,
          clientVisibilityDelay, fetchFailuresRemaining, submitCount, fetchCount, calls, answers)
    }

    /** Every client id the broker knows leads to an order it holds. */
    ghost predicate Valid()
      reads this
    {
      forall key | key in ordersByClient :: ordersByClient[key] in ordersById
    }

    constructor (name: BrokerName, autoStatus: OrderStatus)
      ensures Valid() && View() == NewSim(name, autoStatus)
    {
      this.name, this.autoStatus := name, autoStatus;
      ordersById, ordersByClient, nextOrderNumber := map[], map[], 1;
      submitFaults, clientVisibilityDelay, fetchFailuresRemaining := [], map[], 0;
      submitCount, fetchCount := 0, 0;
      calls, answers := [], {};
    }

    method QueueSubmitFault(fault: SubmitFault)
      modifies this
      ensures View() == old(View()).(faults := old(submitFaults) + [fault])
    {
      submitFaults := submitFaults + [fault];
    }

    method DelayClientVisibility(key: IdempotencyKey, fetches: nat)
      modifies this
      ensures View() == old(View()).(delays := old(clientVisibilityDelay)[key := fetches])
    {
      clientVisibilityDelay := clientVisibilityDelay[key := fetches];
    }

    method FailNextFetches(count: nat)
      modifies this
      ensures View() == old(View()).(fetchFailures := old(fetchFailuresRemaining) + count)
    {
      fetchFailuresRemaining := fetchFailuresRemaining + count;
    }

    method SubmitOrder(ticket: OrderTicket, now: Time) returns (r: Outcome<BrokerOrder>)
      requires Valid()
      modifies this
      ensures Valid()
      ensures (View(), r) == Submit(old(View()), ticket, now)
    {
      calls := calls + [ticket.clientOrderId];
      if ticket.broker != name { return Raised; }
      if ticket.clientOrderId in ordersByClient {
        var existing := ordersById[ordersByClient[ticket.clientOrderId]];
        answers := answers + {existing};
        return Returned(existing);
      }
      var fault := NoFault;
      if submitFaults != [] {
        fault, submitFaults := submitFaults[0], submitFaults[1..];
      }
      submitCount := submitCount + 1;
      if fault == DisconnectBeforeAccept { return Raised; }

      var orderId := nextOrderNumber;
      nextOrderNumber := nextOrderNumber + 1;
      var filled := if autoStatus == OrderStatus.Filled then ticket.quantity else 0;
      var average := if filled != 0 then ticket.limitPrice else None;
      var order := BrokerOrder(name, orderId, ticket.clientOrderId, autoStatus, ticket.quantity,
                               filled, average, now, None);
      ordersById := ordersById[orderId := order];
      ordersByClient := ordersByClient[ticket.clientOrderId := orderId];
      if fault == AcceptThenTimeout { return Raised; }
      answers := answers + {order};
      return Returned(order);
    }

    /** `_maybe_fail_fetch`: counts the fetch and consumes one pending failure. */
    method MaybeFailFetch() returns (failed: bool)
      modifies this`fetchCount, this`fetchFailuresRemaining
      ensures fetchCount == old(fetchCount) + 1
      ensures failed <==> old(fetchFailuresRemaining) > 0
      ensures fetchFailuresRemaining == old(fetchFailuresRemaining) - if failed then 1 else 0
    {
      fetchCount := fetchCount + 1;
      failed := fetchFailuresRemaining > 0;
      if failed {
        fetchFailuresRemaining := fetchFailuresRemaining - 1;
      }
    }

    method FetchOrder(orderId: Id) returns (r: Outcome<Option<BrokerOrder>>)
      requires Valid()
      modifies this
      ensures Valid()
      ensures (View(), r) == FetchById(old(View()), orderId)
    {
      var failed := MaybeFailFetch();
      if failed { return Raised; }
      if orderId in ordersById {
        answers := answers + {ordersById[orderId]};
        return Returned(Some(ordersById[orderId]));
      }
      return Returned(None);
    }

    method FetchOrderByClientId(key: IdempotencyKey) returns (r: Outcome<Option<BrokerOrder>>)
      requires Valid()
      modifies this
      ensures Valid()
      ensures (View(), r) == FetchByClient(old(View()), key)
    {
      var failed := MaybeFailFetch();
      if failed { return Raised; }
      var remaining := if key in clientVisibilityDelay then clientVisibilityDelay[key] else 0;
      if remaining > 0 {
        clientVisibilityDelay := clientVisibilityDelay[key := remaining - 1];
        return Returned(None);
      }
      if key in ordersByClient {
        var order := ordersById[ordersByClient[key]];
        answers := answers + {order};
        return Returned(Some(order));
      }
      return Returned(None);
    }

    method CancelOrder(orderId: Id, now: Time) returns (r: Outcome<BrokerOrder>)
      requires Valid()
      modifies this
      ensures Valid()
      ensures (View(), r) == Cancel(old(View()), orderId, now)
    {
      if orderId !in ordersById { return Raised; }
      var order := ordersById[orderId];
      if order.status !in {OrderStatus.Filled, OrderStatus.Rejected, OrderStatus.Cancelled} {
        order := order.(status := OrderStatus.Cancelled, observedAt := now);
      }
      ordersById := ordersById[orderId := order];
      answers := answers + {order};
      return Returned(order);
    }

    method SetOrderTruth(orderId: Id, status: OrderStatus, filled: Option<int>, average: Option<real>,
                         rejection: Option<string>, observedAt: Time) returns (r: Outcome<BrokerOrder>)
      requires Valid()
      modifies this
      ensures Valid()
      ensures (View(), r) == SetTruth(old(View()), orderId, status, filled, average, rejection, observedAt)
    {
      if orderId !in ordersById { return Raised; }
      var current := ordersById[orderId];
      var quantity := if filled.Some? then filled.value else current.filledQuantity;
      var price := if average.Some? then average else current.averageFillPrice;
      var updated := current.(status := status, filledQuantity := quantity, averageFillPrice := price,
                              rejectionReason := rejection, observedAt := observedAt);
      if !updated.Valid() { return Raised; }
      ordersById := ordersById[orderId := updated];
      return Returned(updated);
    }
  }
}
