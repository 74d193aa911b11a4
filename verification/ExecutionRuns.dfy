/** Whole runs of the execution protocol: any interleaving of deploy, reconcile
    and cancel steps, crashes at every step boundary, and every fault script. */
module ExecutionRuns {
  import opened Domain
  import opened BrokerSimulator
  import opened Engine

  datatype Step =
    | Create(request: ExecutionRequest)
    | StartDeploy(id: Id, at: Time)
    | CallBroker(now: Time)
    | FinishDeploy(now: Time)
    | StartReconcile(id: Id)
    | StartCancel(id: Id, now: Time)
    | FinishRead(at: Time)
    | Crashed
    | FaultQueued(fault: SubmitFault)
    | VisibilityDelayed(key: IdempotencyKey, fetches: nat)
    | FetchesFailing(count: nat)
    | OrderMoved(orderId: Id, status: OrderStatus, filled: Option<int>, average: Option<real>,
                 rejection: Option<string>, observedAt: Time)

  function Keys(w: World): set<IdempotencyKey> {
    set id | id in w.requests :: w.requests[id].key
  }

  /** What a request builder may insert: READY, untouched by any broker, under an unused id and key. */
  predicate Creatable(w: World, r: ExecutionRequest) {
    && r.Valid()
    && r.status == RequestStatus.Ready
    && r.filledQuantity == 0 && r.brokerOrderId.None? && r.lastBrokerObservedAt.None?
    && w.pending.Idle?
    && r.requestId !in w.requests
    && r.key !in Keys(w)
  }

  function Next(w: World, step: Step): World {
    match step
    case Create(r) => if Creatable(w, r) then w.(requests := w.requests[r.requestId := r]) else w
    case StartDeploy(id, at) => DurableWrite(w, id, at)
    case CallBroker(now) => BrokerCall(w, now)
    case FinishDeploy(now) => FinalWrite(w, now)
    case StartReconcile(id) => Fetch(w, id)
    case StartCancel(id, now) => CancelCall(w, id, now)
    case FinishRead(at) => TruthWrite(w, at)
    case Crashed => Crash(w)
    case FaultQueued(fault) => w.(sim := w.sim.(faults := w.sim.faults + [fault]))
    case VisibilityDelayed(key, fetches) => w.(sim := w.sim.(delays := w.sim.delays[key := fetches]))
    case FetchesFailing(count) => w.(sim := w.sim.(fetchFailures := w.sim.fetchFailures + count))
    case OrderMoved(orderId, status, filled, average, rejection, observedAt) =>
      w.(sim := SetTruth(w.sim, orderId, status, filled, average, rejection, observedAt).0)
  }

  function Run(w: World, steps: seq<Step>): World
    decreases |steps|
  {
    if steps == [] then w else Run(Next(w, steps[0]), steps[1..])
  }

  function Initial(name: BrokerName, autoStatus: OrderStatus): World {
    World(map[], NewSim(name, autoStatus), Idle)
  }

  // ------------------------------------------------------------------ invariant

  predicate OrderOk(b: Sim, o: Id)
    requires o in b.orders
  {
    var order := b.orders[o];
    && o < b.nextNumber
    && order.brokerOrderId == o && order.broker == b.name && order.Valid()
    && order.clientOrderId in b.calls
    && order.clientOrderId in b.byClient && b.byClient[order.clientOrderId] == o
  }

  /** The snapshot is about an order the broker holds, whatever its state by now. */
  predicate AnswerOk(b: Sim, s: BrokerOrder) {
    && s.Valid() && s.broker == b.name
    && s.brokerOrderId in b.orders
    && b.orders[s.brokerOrderId].clientOrderId == s.clientOrderId
    && b.orders[s.brokerOrderId].requestedQuantity == s.requestedQuantity
  }

  predicate NoDuplicates(calls: seq<IdempotencyKey>) {
    forall i, j | 0 <= i < j < |calls| :: calls[i] != calls[j]
  }

  predicate SimOk(b: Sim) {
    && NoDuplicates(b.calls)
    && (forall o | o in b.orders :: OrderOk(b, o))
    && (forall k | k in b.byClient :: b.byClient[k] in b.orders && b.orders[b.byClient[k]].clientOrderId == k)
    && (forall s | s in b.answers :: AnswerOk(b, s))
  }

  /** The record's broker facts are those of snapshot `s`; its status too, unless truth was lost since. */
  predicate Records(r: ExecutionRequest, s: BrokerOrder) {
    && s.clientOrderId == r.key
    && r.brokerOrderId == Some(s.brokerOrderId)
    && r.filledQuantity == s.filledQuantity
    && r.averageFillPrice == s.averageFillPrice
    && r.lastBrokerObservedAt == Some(s.observedAt)
    && (r.status == RequestStatus.Uncertain || r.status == Mapped(s.status))
  }

  /** Nothing about this request was ever learnt from the broker, or some answer says what is recorded. */
  predicate Reported(b: Sim, r: ExecutionRequest) {
    if r.lastBrokerObservedAt.None? then
      && r.filledQuantity == 0 && r.brokerOrderId.None?
      && r.status in {RequestStatus.Ready, RequestStatus.Submitting, RequestStatus.Uncertain}
    else
      exists s :: s in b.answers && Records(r, s)
  }

  predicate RequestOk(w: World, id: Id)
    requires id in w.requests
  {
    var r := w.requests[id];
    && r.requestId == id && r.Valid()
    && Reported(w.sim, r)
    && (r.status == RequestStatus.Ready ==> r.key !in w.sim.calls && r.lastBrokerObservedAt.None?)
    && (r.key in w.sim.calls ==> r.broker == w.sim.name)
    && (w.sim.Holds(r.key) ==> w.sim.Truth(r.key).requestedQuantity == r.quantity)
  }

  predicate PendingOk(w: World) {
    match w.pending
    case Idle => true
    case Sending(id) =>
      && id in w.requests && w.requests[id].broker == w.sim.name
      && w.requests[id].status == RequestStatus.Submitting
      && w.requests[id].lastBrokerObservedAt.None?
      && w.requests[id].key !in w.sim.calls
    case Replied(id, reply) =>
      && id in w.requests && w.requests[id].broker == w.sim.name
      && w.requests[id].status == RequestStatus.Submitting
      && w.requests[id].lastBrokerObservedAt.None?
      && (reply.Returned? ==> reply.value in w.sim.answers && reply.value.clientOrderId == w.requests[id].key)
    case Fetched(id, answer) =>
      && id in w.requests && w.requests[id].broker == w.sim.name
      && !w.requests[id].Terminal()
      && (w.requests[id].status == RequestStatus.Ready ==> w.requests[id].key !in w.sim.calls)
      && (answer.Returned? && answer.value.Some? ==>
            answer.value.value in w.sim.answers && answer.value.value.clientOrderId == w.requests[id].key)
  }

  predicate DistinctKeys(requests: map<Id, ExecutionRequest>) {
    forall i, j | i in requests && j in requests && requests[i].key == requests[j].key :: i == j
  }

  predicate Inv(w: World) {
    && SimOk(w.sim)
    && DistinctKeys(w.requests)
    && (forall id | id in w.requests :: RequestOk(w, id))
    && (forall k | k in w.sim.calls :: k in Keys(w))
    && PendingOk(w)
  }

  // -------------------------------------------------- what every step preserves

  /** The fields a request never changes after it was created. */
  predicate SameIntent(r: ExecutionRequest, r': ExecutionRequest) {
    r' == r.(status := r'.status, updatedAt := r'.updatedAt, brokerOrderId := r'.brokerOrderId,
             filledQuantity := r'.filledQuantity, averageFillPrice := r'.averageFillPrice,
             rejectionReason := r'.rejectionReason, lastBrokerObservedAt := r'.lastBrokerObservedAt,
             instrumentToken := r'.instrumentToken)
  }

  predicate NotEarlier(t: Option<Time>, t': Option<Time>) {
    t.Some? ==> t'.Some? && t.value <= t'.value
  }

  predicate RequestEvolves(r: ExecutionRequest, r': ExecutionRequest) {
    && SameIntent(r, r')
    && (r.Terminal() ==> r' == r)
    && (r'.status == RequestStatus.Ready ==> r' == r)
    && NotEarlier(r.lastBrokerObservedAt, r'.lastBrokerObservedAt)
  }

  /** Requests are never lost, reopened, retargeted or moved back in broker time;
      submissions and broker answers are only ever added. */
  predicate Evolves(w: World, w': World) {
    && (forall id | id in w.requests :: id in w'.requests && RequestEvolves(w.requests[id], w'.requests[id]))
    && w.sim.calls <= w'.sim.calls
    && w.sim.answers <= w'.sim.answers
    && w.sim.name == w'.sim.name
    && (forall o | o in w.sim.orders ::
          && o in w'.sim.orders
          && w'.sim.orders[o].clientOrderId == w.sim.orders[o].clientOrderId
          && w'.sim.orders[o].requestedQuantity == w.sim.orders[o].requestedQuantity)
  }

  lemma EvolvesTransitive(a: World, b: World, c: World)
    requires Evolves(a, b) && Evolves(b, c)
    ensures Evolves(a, c)
  {
    forall id | id in a.requests
      ensures id in c.requests && RequestEvolves(a.requests[id], c.requests[id])
    {
      assert RequestEvolves(b.requests[id], c.requests[id]);
    }
    forall o | o in a.sim.orders
      ensures o in c.sim.orders
      ensures c.sim.orders[o].clientOrderId == a.sim.orders[o].clientOrderId
      ensures c.sim.orders[o].requestedQuantity == a.sim.orders[o].requestedQuantity
    {
      assert o in b.sim.orders;
    }
  }

  /** A broker move that keeps calls, answers and the identity of every order keeps the invariant. */
  lemma SimMoveKeeps(w: World, sim: Sim)
    requires Inv(w) && SimOk(sim)
    requires sim.name == w.sim.name && sim.calls == w.sim.calls && w.sim.answers <= sim.answers
    requires sim.byClient == w.sim.byClient && sim.orders.Keys == w.sim.orders.Keys
    requires forall o | o in sim.orders ::
      sim.orders[o].clientOrderId == w.sim.orders[o].clientOrderId
      && sim.orders[o].requestedQuantity == w.sim.orders[o].requestedQuantity
    ensures Inv(w.(sim := sim)) && Evolves(w, w.(sim := sim))
  {
    var w' := w.(sim := sim);
    assert Keys(w') == Keys(w);
    forall id | id in w'.requests
      ensures RequestOk(w', id)
    {
      assert RequestOk(w, id);
      assert Reported(sim, w.requests[id]);
    }
  }

  lemma FaultScriptKeepsSim(b: Sim, b': Sim)
    requires SimOk(b)
    requires b' == b.(faults := b'.faults, delays := b'.delays, fetchFailures := b'.fetchFailures,
                      fetchCount := b'.fetchCount)
    ensures SimOk(b')
  {
    forall o | o in b'.orders ensures OrderOk(b', o) { assert OrderOk(b, o); }
    forall s | s in b'.answers ensures AnswerOk(b', s) { assert AnswerOk(b, s); }
  }

  /** A fresh client id is refused before acceptance, or accepted with or without the answer lost. */
  lemma SubmitShape(b: Sim, ticket: OrderTicket, now: Time)
    requires ticket.broker == b.name && ticket.clientOrderId !in b.byClient
    ensures var (b', reply) := Submit(b, ticket, now);
      var order := Accepted(b, ticket, now);
      var refused := b.(calls := b'.calls, faults := b'.faults, submitCount := b'.submitCount);
      var accepted := refused.(orders := b.orders[b.nextNumber := order], nextNumber := b.nextNumber + 1,
                               byClient := b.byClient[ticket.clientOrderId := b.nextNumber]);
      && b'.calls == b.calls + [ticket.clientOrderId]
      && (|| (b' == refused && reply == Raised)
          || (b' == accepted && reply == Raised)
          || (b' == accepted.(answers := b.answers + {order}) && reply == Returned(order)))
  {
  }

  lemma CallKeepsSim(b: Sim, b': Sim, key: IdempotencyKey)
    requires SimOk(b) && key !in b.calls
    requires b' == b.(calls := b.calls + [key], faults := b'.faults, submitCount := b'.submitCount)
    ensures SimOk(b')
  {
    forall o | o in b'.orders ensures OrderOk(b', o) { assert OrderOk(b, o); }
    forall s | s in b'.answers ensures AnswerOk(b', s) { assert AnswerOk(b, s); }
  }

  lemma AcceptKeepsSim(b: Sim, b': Sim, order: BrokerOrder)
    requires SimOk(b) && order.Valid() && order.broker == b.name && order.brokerOrderId == b.nextNumber
    requires order.clientOrderId in b.calls && order.clientOrderId !in b.byClient
    requires b' == b.(orders := b.orders[b.nextNumber := order], nextNumber := b.nextNumber + 1,
                      byClient := b.byClient[order.clientOrderId := b.nextNumber])
    ensures SimOk(b')
  {
    forall o | o in b.orders ensures o != b.nextNumber { assert OrderOk(b, o); }
    forall o | o in b'.orders ensures OrderOk(b', o) {
      if o in b.orders { assert OrderOk(b, o); }
    }
    forall s | s in b'.answers ensures AnswerOk(b', s) { assert AnswerOk(b, s); }
  }

  lemma AnsweringKeepsSim(b: Sim, b': Sim, o: Id)
    requires SimOk(b) && o in b.orders
    requires b' == b.(answers := b.answers + {b.orders[o]})
    ensures SimOk(b')
  {
    assert OrderOk(b, o);
    forall i | i in b'.orders ensures OrderOk(b', i) { assert OrderOk(b, i); }
    forall s | s in b'.answers ensures AnswerOk(b', s) {
      if s in b.answers { assert AnswerOk(b, s); }
    }
  }

  lemma SubmitKeepsSim(b: Sim, ticket: OrderTicket, now: Time)
    requires SimOk(b) && ticket.broker == b.name && ticket.quantity > 0
    requires ticket.clientOrderId !in b.calls
    ensures var (b', reply) := Submit(b, ticket, now);
      && SimOk(b')
      && b'.calls == b.calls + [ticket.clientOrderId] && b'.name == b.name
      && b.answers <= b'.answers
      && (forall o | o in b.orders :: o in b'.orders && b'.orders[o] == b.orders[o])
      && (forall k | k in b.byClient :: k in b'.byClient && b'.byClient[k] == b.byClient[k])
      && (forall k | k in b'.byClient && k !in b.byClient ::
            k == ticket.clientOrderId && b'.Truth(k).requestedQuantity == ticket.quantity)
      && (reply.Returned? ==> reply.value in b'.answers && reply.value.clientOrderId == ticket.clientOrderId)
  {
    var (b', reply) := Submit(b, ticket, now);
    assert ticket.clientOrderId !in b.byClient;
    SubmitShape(b, ticket, now);
    forall o | o in b.orders ensures o != b.nextNumber { assert OrderOk(b, o); }
    var order := Accepted(b, ticket, now);
    var called := b.(calls := b'.calls, faults := b'.faults, submitCount := b'.submitCount);
    CallKeepsSim(b, called, ticket.clientOrderId);
    if b' != called {
      var accepted := called.(orders := b.orders[b.nextNumber := order], nextNumber := b.nextNumber + 1,
                              byClient := b.byClient[ticket.clientOrderId := b.nextNumber]);
      AcceptKeepsSim(called, accepted, order);
      if reply.Returned? { AnsweringKeepsSim(accepted, b', b.nextNumber); }
    }
  }

  /** A read changes only fault counters, and an order it returns joins the answers. */
  lemma FetchShape(b: Sim, key: IdempotencyKey, orderId: Option<Id>)
    ensures var (b', answer) := FetchTruth(b, key, orderId);
      var quiet := b.(delays := b'.delays, fetchFailures := b'.fetchFailures, fetchCount := b'.fetchCount);
      if answer.Returned? && answer.value.Some? then
        && b' == quiet.(answers := b.answers + {answer.value.value})
        && (|| (b.Holds(key) && answer.value.value == b.Truth(key))
            || (orderId.Some? && orderId.value in b.orders && answer.value.value == b.orders[orderId.value]))
      else b' == quiet
  {
  }

  lemma FetchKeepsSim(b: Sim, key: IdempotencyKey, orderId: Option<Id>)
    requires SimOk(b)
    requires orderId.Some? && orderId.value in b.orders ==> b.orders[orderId.value].clientOrderId == key
    ensures var (b', answer) := FetchTruth(b, key, orderId);
      && SimOk(b')
      && b'.name == b.name && b'.calls == b.calls && b'.byClient == b.byClient && b'.orders == b.orders
      && b.answers <= b'.answers
      && (answer.Returned? && answer.value.Some? ==>
            answer.value.value in b'.answers && answer.value.value.clientOrderId == key)
  {
    var (b', answer) := FetchTruth(b, key, orderId);
    FetchShape(b, key, orderId);
    var quiet := b.(delays := b'.delays, fetchFailures := b'.fetchFailures, fetchCount := b'.fetchCount);
    FaultScriptKeepsSim(b, quiet);
    if answer.Returned? && answer.value.Some? {
      assert orderId.Some? && orderId.value in b.orders ==> OrderOk(b, orderId.value);
      AnsweringKeepsSim(quiet, b', b.byClient[key]);
    }
  }

  /** An order may change in everything but its identity and what was asked for. */
  lemma OrderChangeKeepsSim(b: Sim, orderId: Id, order: BrokerOrder)
    requires SimOk(b) && orderId in b.orders && order.Valid()
    requires order.broker == b.name && order.brokerOrderId == orderId
    requires order.clientOrderId == b.orders[orderId].clientOrderId
    requires order.requestedQuantity == b.orders[orderId].requestedQuantity
    ensures SimOk(b.(orders := b.orders[orderId := order]))
  {
    var b' := b.(orders := b.orders[orderId := order]);
    forall o | o in b'.orders ensures OrderOk(b', o) { assert OrderOk(b, o); }
    forall s | s in b'.answers ensures AnswerOk(b', s) { assert AnswerOk(b, s); }
  }

  lemma CancelKeepsSim(b: Sim, orderId: Id, now: Time)
    requires SimOk(b) && orderId in b.orders
    ensures var (b', reply) := Cancel(b, orderId, now);
      && SimOk(b') && reply.Returned? && reply.value in b'.answers
      && reply.value.clientOrderId == b.orders[orderId].clientOrderId
      && b'.name == b.name && b'.calls == b.calls && b'.byClient == b.byClient
      && b'.orders.Keys == b.orders.Keys && b.answers <= b'.answers
      && (forall o | o in b.orders ::
            b'.orders[o].clientOrderId == b.orders[o].clientOrderId
            && b'.orders[o].requestedQuantity == b.orders[o].requestedQuantity)
  {
    var (b', reply) := Cancel(b, orderId, now);
    assert OrderOk(b, orderId);
    var changed := b.(orders := b.orders[orderId := reply.value]);
    OrderChangeKeepsSim(b, orderId, reply.value);
    AnsweringKeepsSim(changed, b', orderId);
  }

  lemma MoveKeepsSim(b: Sim, orderId: Id, status: OrderStatus, filled: Option<int>, average: Option<real>,
                     rejection: Option<string>, observedAt: Time)
    requires SimOk(b)
    ensures var b' := SetTruth(b, orderId, status, filled, average, rejection, observedAt).0;
      && SimOk(b')
      && b'.name == b.name && b'.calls == b.calls && b'.byClient == b.byClient && b'.answers == b.answers
      && b'.orders.Keys == b.orders.Keys
      && (forall o | o in b.orders ::
            b'.orders[o].clientOrderId == b.orders[o].clientOrderId
            && b'.orders[o].requestedQuantity == b.orders[o].requestedQuantity)
  {
    var b' := SetTruth(b, orderId, status, filled, average, rejection, observedAt).0;
    if b' != b {
      assert OrderOk(b, orderId);
      OrderChangeKeepsSim(b, orderId, b'.orders[orderId]);
    }
  }

  lemma WriteKeepsKeys(w: World, id: Id, r: ExecutionRequest)
    requires id in w.requests && r.key == w.requests[id].key && DistinctKeys(w.requests)
    ensures Keys(w.(requests := w.requests[id := r])) == Keys(w)
    ensures DistinctKeys(w.requests[id := r])
  {
    var w' := w.(requests := w.requests[id := r]);
    forall k | k in Keys(w) ensures k in Keys(w') {
      var i :| i in w.requests && w.requests[i].key == k;
      assert w'.requests[i].key == k;
    }
    forall k | k in Keys(w') ensures k in Keys(w) {
      var i :| i in w'.requests && w'.requests[i].key == k;
      assert w.requests[i].key == k;
    }
  }

  lemma WrittenRequestOk(w: World, id: Id, r: ExecutionRequest, pending: Pending, i: Id)
    requires Inv(w) && id in w.requests && i in w.requests
    requires r.Valid() && RequestEvolves(w.requests[id], r) && Reported(w.sim, r)
    requires r.status == RequestStatus.Ready ==> r == w.requests[id]
    ensures RequestOk(w.(requests := w.requests[id := r], pending := pending), i)
  {
    assert RequestOk(w, i);
  }

  /** A write to one request that the broker's answers justify keeps the invariant. */
  lemma RequestWriteKeeps(w: World, id: Id, r: ExecutionRequest, pending: Pending)
    requires Inv(w) && id in w.requests
    requires r.Valid() && RequestEvolves(w.requests[id], r) && Reported(w.sim, r)
    requires r.status == RequestStatus.Ready ==> r == w.requests[id]
    requires PendingOk(w.(requests := w.requests[id := r], pending := pending))
    ensures var w' := w.(requests := w.requests[id := r], pending := pending); Inv(w') && Evolves(w, w')
  {
    var w' := w.(requests := w.requests[id := r], pending := pending);
    WriteKeepsKeys(w, id, r);
    assert Keys(w') == Keys(w);
    forall i | i in w'.requests ensures RequestOk(w', i) {
      WrittenRequestOk(w, id, r, pending, i);
    }
  }

  /** An answer the broker gave for this request's client id is about this very order. */
  lemma AnswerCorrelates(w: World, id: Id, s: BrokerOrder)
    requires Inv(w) && id in w.requests && w.requests[id].broker == w.sim.name
    requires s in w.sim.answers && s.clientOrderId == w.requests[id].key
    ensures Correlates(w.requests[id], s) && s.Valid()
  {
    assert AnswerOk(w.sim, s) && RequestOk(w, id);
    assert OrderOk(w.sim, s.brokerOrderId);
    assert w.sim.Holds(w.requests[id].key);
  }

  /** With a correct answer in hand, applying it never raises, and is a justified evolution. */
  lemma AnswerJustifies(w: World, id: Id, s: BrokerOrder)
    requires Inv(w) && id in w.requests && w.requests[id].broker == w.sim.name
    requires s in w.sim.answers && s.clientOrderId == w.requests[id].key
    requires !w.requests[id].Terminal() && !Stale(w.requests[id], s)
    ensures Correlates(w.requests[id], s)
    ensures var r := Recorded(w.requests[id], s);
      r.Valid() && RequestEvolves(w.requests[id], r) && Reported(w.sim, r) && r.status != RequestStatus.Ready
  {
    AnswerCorrelates(w, id, s);
    assert RequestOk(w, id);
    assert Records(Recorded(w.requests[id], s), s);
  }

  lemma UncertainJustified(w: World, id: Id, why: RejectionReason, at: Time)
    requires Inv(w) && id in w.requests && !w.requests[id].Terminal()
    ensures var r := MarkUncertain(w.requests[id], why, at);
      r.Valid() && RequestEvolves(w.requests[id], r) && Reported(w.sim, r) && r.status != RequestStatus.Ready
  {
    var r := w.requests[id];
    assert RequestOk(w, id);
    if r.lastBrokerObservedAt.Some? {
      var s :| s in w.sim.answers && Records(r, s);
      assert Records(MarkUncertain(r, why, at), s);
    }
  }

  // --------------------------------------------------------------- single steps

  lemma DurableWriteKeeps(w: World, id: Id, at: Time)
    requires Inv(w)
    ensures Inv(DurableWrite(w, id, at)) && Evolves(w, DurableWrite(w, id, at))
  {
    if DurableWrite(w, id, at) != w {
      assert RequestOk(w, id);
      RequestWriteKeeps(w, id, MarkSubmitting(w.requests[id], at), Sending(id));
    }
  }

  lemma BrokerCallKeeps(w: World, now: Time)
    requires Inv(w)
    ensures Inv(BrokerCall(w, now)) && Evolves(w, BrokerCall(w, now))
  {
    if w.pending.Sending? {
      var id := w.pending.id;
      var w' := BrokerCall(w, now);
      assert RequestOk(w, id);
      SubmitKeepsSim(w.sim, TicketFor(w.requests[id]), now);
      assert Keys(w') == Keys(w);
      forall i | i in w'.requests
        ensures RequestOk(w', i)
      {
        assert RequestOk(w, i);
        if w.requests[i].key == w.requests[id].key { assert i == id; }
        assert Reported(w'.sim, w.requests[i]);
      }
      assert w.requests[id].key in Keys(w);
    }
  }

  lemma FinalWriteKeeps(w: World, now: Time)
    requires Inv(w)
    ensures Inv(FinalWrite(w, now)) && Evolves(w, FinalWrite(w, now))
  {
    if w.pending.Replied? {
      var id := w.pending.id;
      match w.pending.reply
      case Raised =>
        UncertainJustified(w, id, SubmissionOutcomeUnknown, now);
        RequestWriteKeeps(w, id, MarkUncertain(w.requests[id], SubmissionOutcomeUnknown, now), Idle);
      case Returned(s) =>
        AnswerJustifies(w, id, s);
        RequestWriteKeeps(w, id, Recorded(w.requests[id], s), Idle);
    }
  }

  lemma FetchKeeps(w: World, id: Id)
    requires Inv(w)
    ensures Inv(Fetch(w, id)) && Evolves(w, Fetch(w, id))
  {
    if Fetch(w, id) != w {
      var r := w.requests[id];
      assert RequestOk(w, id);
      if r.brokerOrderId.Some? { KnownOrderIsOwn(w, id); }
      FetchKeepsSim(w.sim, r.key, r.brokerOrderId);
      SimMoveKeeps(w, FetchTruth(w.sim, r.key, r.brokerOrderId).0);
    }
  }

  lemma CancelCallKeeps(w: World, id: Id, now: Time)
    requires Inv(w)
    ensures Inv(CancelCall(w, id, now)) && Evolves(w, CancelCall(w, id, now))
  {
    if Addressed(w, id) && w.requests[id].brokerOrderId.Some? && !w.requests[id].Terminal() {
      KnownOrderIsOwn(w, id);
      var r := w.requests[id];
      assert RequestOk(w, id);
      CancelKeepsSim(w.sim, r.brokerOrderId.value, now);
      SimMoveKeeps(w, Cancel(w.sim, r.brokerOrderId.value, now).0);
    }
  }

  lemma TruthWriteKeeps(w: World, at: Time)
    requires Inv(w)
    ensures Inv(TruthWrite(w, at)) && Evolves(w, TruthWrite(w, at))
  {
    if w.pending.Fetched? {
      var id := w.pending.id;
      var r := w.requests[id];
      match w.pending.answer
      case Raised =>
        UncertainJustified(w, id, ReconciliationUnavailable, at);
        RequestWriteKeeps(w, id, MarkUncertain(r, ReconciliationUnavailable, at), Idle);
      case Returned(None) =>
        UncertainJustified(w, id, TruthNotResolvable, at);
        RequestWriteKeeps(w, id, MarkUncertain(r, TruthNotResolvable, at), Idle);
      case Returned(Some(s)) =>
        if Stale(r, s) {
          assert RequestOk(w, id);
          RequestWriteKeeps(w, id, r, Idle);
        } else {
          AnswerJustifies(w, id, s);
          RequestWriteKeeps(w, id, Recorded(r, s), Idle);
        }
    }
  }

  lemma CreateKeeps(w: World, r: ExecutionRequest)
    requires Inv(w) && Creatable(w, r)
    ensures var w' := w.(requests := w.requests[r.requestId := r]); Inv(w') && Evolves(w, w')
  {
    var w' := w.(requests := w.requests[r.requestId := r]);
    forall k | k in Keys(w)
      ensures k in Keys(w')
    {
      var i :| i in w.requests && w.requests[i].key == k;
      assert w'.requests[i].key == k;
    }
    forall i | i in w'.requests
      ensures RequestOk(w', i)
    {
      if i in w.requests { assert RequestOk(w, i); }
    }
    forall i, j | i in w'.requests && j in w'.requests && w'.requests[i].key == w'.requests[j].key
      ensures i == j
    {
      if i in w.requests { assert w.requests[i].key in Keys(w); }
      if j in w.requests { assert w.requests[j].key in Keys(w); }
    }
  }

  /** The broker order id a request remembers is the id of its own order. */
  lemma KnownOrderIsOwn(w: World, id: Id)
    requires Inv(w) && id in w.requests && w.requests[id].brokerOrderId.Some?
    ensures var o := w.requests[id].brokerOrderId.value;
      o in w.sim.orders && w.sim.orders[o].clientOrderId == w.requests[id].key
  {
    var r := w.requests[id];
    assert RequestOk(w, id);
    var s :| s in w.sim.answers && Records(r, s);
    assert AnswerOk(w.sim, s);
  }

  lemma StepKeeps(w: World, step: Step)
    requires Inv(w)
    ensures Inv(Next(w, step)) && Evolves(w, Next(w, step))
  {
    match step
    case Create(r) => if Creatable(w, r) { CreateKeeps(w, r); }
    case StartDeploy(id, at) => DurableWriteKeeps(w, id, at);
    case CallBroker(now) => BrokerCallKeeps(w, now);
    case FinishDeploy(now) => FinalWriteKeeps(w, now);
    case StartReconcile(id) => FetchKeeps(w, id);
    case StartCancel(id, now) => CancelCallKeeps(w, id, now);
    case FinishRead(at) => TruthWriteKeeps(w, at);
    case Crashed => assert Keys(Crash(w)) == Keys(w); CrashKeeps(w);
    case OrderMoved(orderId, status, filled, average, rejection, observedAt) =>
      MoveKeepsSim(w.sim, orderId, status, filled, average, rejection, observedAt);
      SimMoveKeeps(w, SetTruth(w.sim, orderId, status, filled, average, rejection, observedAt).0);
    case _ =>
      FaultScriptKeepsSim(w.sim, Next(w, step).sim);
      SimMoveKeeps(w, Next(w, step).sim);
  }

  lemma CrashKeeps(w: World)
    requires Inv(w)
    ensures Inv(Crash(w)) && Evolves(w, Crash(w))
  {
    assert Keys(Crash(w)) == Keys(w);
    forall id | id in w.requests
      ensures RequestOk(Crash(w), id)
    {
      assert RequestOk(w, id);
    }
  }

  /** One uninterrupted engine call is a run of protocol steps, so every result about
      runs covers the engine's methods, alone or interrupted by a crash. */
  lemma EngineReadsAreRuns(w: World, id: Id, at: Time)
    ensures Reconciled(w, id, at) == Run(w, [StartReconcile(id), FinishRead(at)])
    ensures CancelledOrder(w, id, at) == Run(w, [StartCancel(id, at), FinishRead(at)])
  {
    RunOfTwo(w, StartReconcile(id), FinishRead(at));
    RunOfTwo(w, StartCancel(id, at), FinishRead(at));
  }

  lemma EngineDeployIsARun(w: World, id: Id, at: Time, now: Time)
    ensures Deployed(w, id, at, now) ==
      if Addressed(w, id) && w.requests[id].status != RequestStatus.Ready
      then Run(w, [StartReconcile(id), FinishRead(at)])
      else Run(w, [StartDeploy(id, at), CallBroker(now), FinishDeploy(now)])
  {
    RunOfTwo(w, StartReconcile(id), FinishRead(at));
    RunOfTwo(DurableWrite(w, id, at), CallBroker(now), FinishDeploy(now));
    var deploy := [StartDeploy(id, at), CallBroker(now), FinishDeploy(now)];
    assert deploy[1..] == [CallBroker(now), FinishDeploy(now)];
    assert Run(w, deploy) == Run(DurableWrite(w, id, at), deploy[1..]);
  }

  lemma RunOfTwo(w: World, first: Step, second: Step)
    ensures Run(w, [first, second]) == Next(Next(w, first), second)
  {
    assert [first, second][1..] == [second];
    assert [second][1..] == [];
    assert Run(Next(w, first), [second]) == Run(Next(Next(w, first), second), []);
  }

  /** Only a started deploy opens a submission, and nothing but the call itself or a crash ends it. */
  lemma SubmissionUntouched(w: World, step: Step)
    requires !step.Create? && !step.StartDeploy?
    ensures Next(w, step).pending.Sending? ==> Next(w, step).pending == w.pending && Next(w, step).requests == w.requests
  {
  }

  /** Only the broker call of an open submission makes the broker receive an order. */
  lemma OnlySendingCalls(w: World, step: Step)
    requires !(step.CallBroker? && w.pending.Sending?)
    ensures Next(w, step).sim.calls == w.sim.calls
  {
  }

  lemma KeysStay(w: World, step: Step)
    requires !step.Create?
    ensures Next(w, step).requests.Keys == w.requests.Keys
  {
  }

  lemma CallAppends(w: World, now: Time)
    requires w.pending.Sending? && w.pending.id in w.requests
    ensures BrokerCall(w, now).sim.calls == w.sim.calls + [w.requests[w.pending.id].key]
  {
  }

  // ----------------------------------------------------------------- whole runs

  lemma {:induction false} RunKeeps(w: World, steps: seq<Step>)
    requires Inv(w)
    ensures Inv(Run(w, steps)) && Evolves(w, Run(w, steps))
    decreases |steps|
  {
    if steps == [] {
    } else {
      StepKeeps(w, steps[0]);
      RunKeeps(Next(w, steps[0]), steps[1..]);
      EvolvesTransitive(w, Next(w, steps[0]), Run(w, steps));
    }
  }

  lemma {:induction false} CountOfDistinct(calls: seq<IdempotencyKey>, key: IdempotencyKey)
    requires NoDuplicates(calls)
    ensures multiset(calls)[key] <= 1
  {
    if calls == [] {
    } else {
      var last := |calls| - 1;
      assert calls == calls[..last] + [calls[last]];
      CountOfDistinct(calls[..last], key);
      if calls[last] == key {
        assert key !in calls[..last];
      }
    }
  }

  /** Whatever the interleaving and whatever the faults: no idempotency key is ever
      submitted twice, and the broker never holds two orders for one client id. */
  lemma SubmittedAtMostOnce(name: BrokerName, autoStatus: OrderStatus, steps: seq<Step>)
    ensures var b := Run(Initial(name, autoStatus), steps).sim;
      && (forall key :: multiset(b.calls)[key] <= 1)
      && (forall i, j | i in b.orders && j in b.orders && b.orders[i].clientOrderId == b.orders[j].clientOrderId
            :: i == j)
  {
    RunKeeps(Initial(name, autoStatus), steps);
    var b := Run(Initial(name, autoStatus), steps).sim;
    forall key ensures multiset(b.calls)[key] <= 1 {
      CountOfDistinct(b.calls, key);
    }
    forall i, j | i in b.orders && j in b.orders && b.orders[i].clientOrderId == b.orders[j].clientOrderId
      ensures i == j
    {
      assert OrderOk(b, i) && OrderOk(b, j);
    }
  }

  /** From any reachable world on: identity fields are frozen, terminal requests never
      change, READY is never re-entered, broker time never goes back; and whatever broker
      facts a request carries, a FILLED, REJECTED or CANCELLED status above all, the
      broker itself reported in one snapshot. */
  lemma EngineAgreesWithBroker(name: BrokerName, autoStatus: OrderStatus, past: seq<Step>, future: seq<Step>)
    ensures var w := Run(Initial(name, autoStatus), past);
      var w' := Run(w, future);
      && Evolves(w, w')
      && (forall id | id in w'.requests && w'.requests[id].lastBrokerObservedAt.Some? ::
            exists s :: s in w'.sim.answers && Records(w'.requests[id], s))
      && (forall id | id in w'.requests && w'.requests[id].Terminal() ::
            exists s :: s in w'.sim.answers && Records(w'.requests[id], s)
                        && w'.requests[id].status == Mapped(s.status))
  {
    RunKeeps(Initial(name, autoStatus), past);
    var w := Run(Initial(name, autoStatus), past);
    RunKeeps(w, future);
    var w' := Run(w, future);
    forall id | id in w'.requests && w'.requests[id].lastBrokerObservedAt.Some?
      ensures exists s :: s in w'.sim.answers && Records(w'.requests[id], s)
    {
      assert RequestOk(w', id);
    }
    forall id | id in w'.requests && w'.requests[id].Terminal()
      ensures exists s :: s in w'.sim.answers && Records(w'.requests[id], s)
                          && w'.requests[id].status == Mapped(s.status)
    {
      assert RequestOk(w', id);
      var s :| s in w'.sim.answers && Records(w'.requests[id], s);
    }
  }

  // ------------------------------------------------- brokers whose truth only grows

  /** The step does not take an order's fill or observation time back. */
  predicate GrowsOnly(w: World, step: Step) {
    match step
    case OrderMoved(o, _, filled, _, _, observedAt) =>
      o in w.sim.orders ==>
        && observedAt >= w.sim.orders[o].observedAt
        && (filled.Some? ==> filled.value >= w.sim.orders[o].filledQuantity)
    case StartCancel(id, now) =>
      (id in w.requests && w.requests[id].brokerOrderId.Some? && w.requests[id].brokerOrderId.value in w.sim.orders)
      ==> now >= w.sim.orders[w.requests[id].brokerOrderId.value].observedAt
    case _ => true
  }

  predicate GrowingRun(w: World, steps: seq<Step>)
    decreases |steps|
  {
    steps == [] || (GrowsOnly(w, steps[0]) && GrowingRun(Next(w, steps[0]), steps[1..]))
  }

  /** Record, snapshot in hand and broker truth are ordered in fill and in time. */
  predicate AtMost(r: ExecutionRequest, s: BrokerOrder) {
    r.filledQuantity <= s.filledQuantity && NotEarlier(r.lastBrokerObservedAt, Some(s.observedAt))
  }

  predicate InHandOk(w: World, id: Id, s: BrokerOrder) {
    && id in w.requests && AtMost(w.requests[id], s)
    && w.sim.Holds(s.clientOrderId)
    && s.filledQuantity <= w.sim.Truth(s.clientOrderId).filledQuantity
    && s.observedAt <= w.sim.Truth(s.clientOrderId).observedAt
  }

  predicate GrowInv(w: World) {
    && (forall id | id in w.requests && w.sim.Holds(w.requests[id].key) ::
          AtMost(w.requests[id], w.sim.Truth(w.requests[id].key)))
    && (w.pending.Replied? && w.pending.reply.Returned? ==> InHandOk(w, w.pending.id, w.pending.reply.value))
    && (w.pending.Fetched? && w.pending.answer.Returned? && w.pending.answer.value.Some? ==>
          InHandOk(w, w.pending.id, w.pending.answer.value.value))
  }

  predicate FillsGrow(w: World, w': World) {
    forall id | id in w.requests :: id in w'.requests
      && w.requests[id].filledQuantity <= w'.requests[id].filledQuantity
  }

  lemma SubmittedInHand(w: World, now: Time)
    requires Inv(w) && GrowInv(w) && w.pending.Sending?
    ensures GrowInv(BrokerCall(w, now)) && FillsGrow(w, BrokerCall(w, now))
  {
    var id := w.pending.id;
    var ticket := TicketFor(w.requests[id]);
    BrokerCallKeeps(w, now);
    SubmitKeepsSim(w.sim, ticket, now);
    assert ticket.clientOrderId !in w.sim.byClient;
    SubmitShape(w.sim, ticket, now);
    var w' := BrokerCall(w, now);
    forall i | i in w'.requests && w'.sim.Holds(w'.requests[i].key)
      ensures AtMost(w'.requests[i], w'.sim.Truth(w'.requests[i].key))
    {
      assert RequestOk(w, i);
      if w.requests[i].key == ticket.clientOrderId { assert i == id; }
    }
  }

  lemma FetchedInHand(w: World, id: Id)
    requires Inv(w) && GrowInv(w)
    ensures GrowInv(Fetch(w, id)) && FillsGrow(w, Fetch(w, id))
  {
    if Fetch(w, id) != w {
      var r := w.requests[id];
      if r.brokerOrderId.Some? { KnownOrderIsOwn(w, id); }
      FetchShape(w.sim, r.key, r.brokerOrderId);
      assert r.brokerOrderId.Some? && r.brokerOrderId.value in w.sim.orders ==> OrderOk(w.sim, r.brokerOrderId.value);
      assert w.sim.Holds(r.key) ==> AtMost(r, w.sim.Truth(r.key));
    }
  }

  lemma CancelledInHand(w: World, id: Id, now: Time)
    requires Inv(w) && GrowInv(w) && GrowsOnly(w, StartCancel(id, now))
    ensures GrowInv(CancelCall(w, id, now)) && FillsGrow(w, CancelCall(w, id, now))
  {
    if Addressed(w, id) && w.requests[id].brokerOrderId.Some? && !w.requests[id].Terminal() {
      KnownOrderIsOwn(w, id);
      assert OrderOk(w.sim, w.requests[id].brokerOrderId.value);
      CancelKeepsSim(w.sim, w.requests[id].brokerOrderId.value, now);
      var w' := CancelCall(w, id, now);
      forall i | i in w'.requests && w'.sim.Holds(w'.requests[i].key)
        ensures AtMost(w'.requests[i], w'.sim.Truth(w'.requests[i].key))
      {
        assert AtMost(w.requests[i], w.sim.Truth(w.requests[i].key));
      }
    }
  }

  lemma WriteGrows(w: World, id: Id, r: ExecutionRequest)
    requires GrowInv(w) && id in w.requests && r.key == w.requests[id].key
    requires w.requests[id].filledQuantity <= r.filledQuantity
    requires w.sim.Holds(r.key) ==> AtMost(r, w.sim.Truth(r.key))
    ensures var w' := w.(requests := w.requests[id := r], pending := Idle); GrowInv(w') && FillsGrow(w, w')
  {
  }

  lemma FinalWriteGrows(w: World, now: Time)
    requires Inv(w) && GrowInv(w)
    ensures GrowInv(FinalWrite(w, now)) && FillsGrow(w, FinalWrite(w, now))
  {
    if w.pending.Replied? {
      var r := AfterSubmit(w.requests[w.pending.id], w.pending.reply, now);
      if r.Returned? { WriteGrows(w, w.pending.id, r.value); }
    }
  }

  lemma TruthWriteGrows(w: World, at: Time)
    requires Inv(w) && GrowInv(w)
    ensures GrowInv(TruthWrite(w, at)) && FillsGrow(w, TruthWrite(w, at))
  {
    if w.pending.Fetched? {
      var r := AfterFetch(w.requests[w.pending.id], w.pending.answer, at);
      if r.Returned? { WriteGrows(w, w.pending.id, r.value); }
    }
  }

  /** The broker's word about every client id it knows only grew. */
  ghost predicate TruthGrew(b: Sim, b': Sim) {
    forall key | b.Holds(key) ::
      && b'.Holds(key)
      && b.Truth(key).filledQuantity <= b'.Truth(key).filledQuantity
      && b.Truth(key).observedAt <= b'.Truth(key).observedAt
  }

  lemma TruthGrowthGrows(w: World, sim: Sim)
    requires GrowInv(w) && TruthGrew(w.sim, sim) && (forall key | sim.Holds(key) :: w.sim.Holds(key))
    ensures GrowInv(w.(sim := sim)) && FillsGrow(w, w.(sim := sim))
  {
  }

  lemma OrderMoveGrows(w: World, step: Step)
    requires Inv(w) && GrowInv(w) && GrowsOnly(w, step) && step.OrderMoved?
    ensures GrowInv(Next(w, step)) && FillsGrow(w, Next(w, step))
  {
    TruthGrowthGrows(w, Next(w, step).sim);
  }

  lemma CreationGrows(w: World, r: ExecutionRequest)
    requires Inv(w) && GrowInv(w)
    ensures GrowInv(Next(w, Create(r))) && FillsGrow(w, Next(w, Create(r)))
  {
    assert Creatable(w, r) ==> !w.sim.Holds(r.key);
  }

  lemma DurableWriteGrows(w: World, id: Id, at: Time)
    requires Inv(w) && GrowInv(w)
    ensures GrowInv(DurableWrite(w, id, at)) && FillsGrow(w, DurableWrite(w, id, at))
  {
    if DurableWrite(w, id, at) != w { WriteGrows(w, id, MarkSubmitting(w.requests[id], at)); }
  }

  lemma OrderUntouchedGrows(w: World, step: Step)
    requires GrowInv(w)
    requires step.Crashed? || step.FaultQueued? || step.VisibilityDelayed? || step.FetchesFailing?
    ensures GrowInv(Next(w, step)) && FillsGrow(w, Next(w, step))
  {
  }

  lemma GrowStep(w: World, step: Step)
    requires Inv(w) && GrowInv(w) && GrowsOnly(w, step)
    ensures GrowInv(Next(w, step)) && FillsGrow(w, Next(w, step))
  {
    match step
    case Create(r) => CreationGrows(w, r);
    case StartDeploy(id, at) => DurableWriteGrows(w, id, at);
    case CallBroker(now) => if w.pending.Sending? { SubmittedInHand(w, now); }
    case FinishDeploy(now) => FinalWriteGrows(w, now);
    case StartReconcile(id) => FetchedInHand(w, id);
    case StartCancel(id, now) => CancelledInHand(w, id, now);
    case FinishRead(at) => TruthWriteGrows(w, at);
    case OrderMoved(_, _, _, _, _, _) => OrderMoveGrows(w, step);
    case _ => OrderUntouchedGrows(w, step);
  }

  lemma {:induction false} GrowingRunKeeps(w: World, steps: seq<Step>)
    requires Inv(w) && GrowInv(w) && GrowingRun(w, steps)
    ensures Inv(Run(w, steps)) && GrowInv(Run(w, steps)) && FillsGrow(w, Run(w, steps))
    decreases |steps|
  {
    if steps == [] {
    } else {
      StepKeeps(w, steps[0]);
      GrowStep(w, steps[0]);
      GrowingRunKeeps(Next(w, steps[0]), steps[1..]);
    }
  }

  /** If the broker's fills and times only grow, a request's recorded fill never shrinks,
      and never exceeds the broker's fill for that order or the quantity asked for. */
  lemma RecordedFillsAreMonotone(name: BrokerName, autoStatus: OrderStatus, past: seq<Step>, future: seq<Step>)
    requires GrowingRun(Initial(name, autoStatus), past)
    requires GrowingRun(Run(Initial(name, autoStatus), past), future)
    ensures var w := Run(Initial(name, autoStatus), past);
      var w' := Run(w, future);
      && (forall id | id in w.requests ::
            id in w'.requests
            && w.requests[id].filledQuantity <= w'.requests[id].filledQuantity <= w'.requests[id].quantity)
      && (forall id | id in w'.requests && w'.requests[id].filledQuantity > 0 ::
            w'.sim.Holds(w'.requests[id].key)
            && w'.requests[id].filledQuantity <= w'.sim.Truth(w'.requests[id].key).filledQuantity)
  {
    var w := Run(Initial(name, autoStatus), past);
    GrowingRunKeeps(Initial(name, autoStatus), past);
    GrowingRunKeeps(w, future);
    var w' := Run(w, future);
    forall id | id in w'.requests && w'.requests[id].filledQuantity > 0
      ensures w'.sim.Holds(w'.requests[id].key)
    {
      assert RequestOk(w', id);
      var s :| s in w'.sim.answers && Records(w'.requests[id], s);
      assert AnswerOk(w'.sim, s) && OrderOk(w'.sim, s.brokerOrderId);
    }
    forall id | id in w.requests
      ensures id in w'.requests && w'.requests[id].filledQuantity <= w'.requests[id].quantity
    {
      assert RequestOk(w', id);
    }
  }
}
