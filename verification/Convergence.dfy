/** Once the fault script runs dry, repeated reconciliation reaches broker truth. */
module Convergence {
  import opened Domain
  import opened BrokerSimulator
  import opened Engine
  import opened ExecutionRuns

  /** One reconcile after another, at the given times, with nothing else happening. */
  function ReconcileAll(w: World, id: Id, times: seq<Time>): (w': World)
    ensures w'.requests.Keys == w.requests.Keys
    decreases |times|
  {
    if times == [] then w else ReconcileAll(Reconciled(w, id, times[0]), id, times[1..])
  }

  /** A stored request whose order the broker holds, between calls. */
  predicate Reconcilable(w: World, id: Id) {
    && Inv(w) && Addressed(w, id)
    && w.sim.Holds(w.requests[id].key)
  }

  function OrderOf(w: World, id: Id): BrokerOrder
    requires Reconcilable(w, id)
  {
    w.sim.Truth(w.requests[id].key)
  }

  /** How many more reconciles may still miss the order: every pending fetch failure, and
      every pending visibility delay unless the broker's own order id is already known. */
  function Misses(w: World, id: Id): nat
    requires Reconcilable(w, id)
  {
    w.sim.fetchFailures + if w.requests[id].brokerOrderId.Some? then 0 else w.sim.Delay(w.requests[id].key)
  }

  predicate SameFacts(r: ExecutionRequest, r': ExecutionRequest) {
    r' == r.(status := r'.status, updatedAt := r'.updatedAt, rejectionReason := r'.rejectionReason)
  }

  lemma ReconciledStays(w: World, id: Id, at: Time)
    requires Reconcilable(w, id)
    ensures var w' := Reconciled(w, id, at);
      Reconcilable(w', id) && OrderOf(w', id) == OrderOf(w, id)
  {
    FetchKeeps(w, id);
    TruthWriteKeeps(Fetch(w, id), at);
    var r := w.requests[id];
    FetchShape(w.sim, r.key, r.brokerOrderId);
    if r.brokerOrderId.Some? { KnownOrderIsOwn(w, id); }
    if !r.Terminal() {
      FetchKeepsSim(w.sim, r.key, r.brokerOrderId);
      TruthWriteClears(Fetch(w, id), at);
    }
  }

  /** The durable write ends the call and leaves the broker and the request's identity alone. */
  lemma TruthWriteClears(w: World, at: Time)
    requires Inv(w)
    ensures var w' := TruthWrite(w, at);
      && w'.sim == w.sim
      && (w.pending.Fetched? ==> w'.pending.Idle?)
      && w'.requests.Keys == w.requests.Keys
      && (forall i | i in w.requests :: SameIntent(w.requests[i], w'.requests[i]))
  {
    TruthWriteKeeps(w, at);
  }

  /** While misses remain, a reconcile uses one up and learns nothing. */
  lemma MissedReconcile(w: World, id: Id, at: Time)
    requires Reconcilable(w, id) && !w.requests[id].Terminal() && Misses(w, id) > 0
    ensures Reconcilable(Reconciled(w, id, at), id)
    ensures var w' := Reconciled(w, id, at);
      && Misses(w', id) == Misses(w, id) - 1
      && w'.requests[id].status == RequestStatus.Uncertain
      && SameFacts(w.requests[id], w'.requests[id])
  {
    ReconciledStays(w, id, at);
  }

  lemma SameFactsSameFate(r: ExecutionRequest, r': ExecutionRequest, s: BrokerOrder)
    requires SameFacts(r, r')
    ensures Stale(r', s) <==> Stale(r, s)
    ensures Recorded(r', s) == Recorded(r, s)
    ensures r'.status == RequestStatus.Uncertain ==> !r'.Terminal()
  {
  }

  /** With no misses left, the read finds the order, under either of its ids. */
  lemma SeenAnswer(w: World, id: Id)
    requires Reconcilable(w, id) && !w.requests[id].Terminal() && Misses(w, id) == 0
    ensures Fetch(w, id).pending == Fetched(id, Returned(Some(OrderOf(w, id))))
    ensures Fetch(w, id).requests == w.requests
    ensures Fetch(w, id).sim.fetchFailures == 0
    ensures w.requests[id].brokerOrderId.None? ==> Fetch(w, id).sim.Delay(w.requests[id].key) == 0
  {
    assert OrderOk(w.sim, w.sim.byClient[w.requests[id].key]);
    if w.requests[id].brokerOrderId.Some? {
      KnownOrderIsOwn(w, id);
      assert OrderOk(w.sim, w.requests[id].brokerOrderId.value);
    }
  }

  /** With no misses left, a reconcile of a non-terminal request reads the order itself. */
  lemma SeenReconcile(w: World, id: Id, at: Time)
    requires Reconcilable(w, id) && !w.requests[id].Terminal() && Misses(w, id) == 0
    ensures Reconcilable(Reconciled(w, id, at), id)
    ensures Misses(Reconciled(w, id, at), id) == 0
    ensures var r := w.requests[id];
      Reconciled(w, id, at).requests[id] ==
        if Stale(r, OrderOf(w, id)) then r else Recorded(r, OrderOf(w, id))
  {
    ReconciledStays(w, id, at);
    SeenAnswer(w, id);
    FetchKeeps(w, id);
    if !Stale(w.requests[id], OrderOf(w, id)) { AnswerJustifies(Fetch(w, id), id, OrderOf(w, id)); }
  }

  /** Recorded truth is a fixed point of further reconciles. */
  lemma {:induction false} Settled(w: World, id: Id, times: seq<Time>)
    requires Reconcilable(w, id) && Misses(w, id) == 0
    requires w.requests[id] == Recorded(w.requests[id], OrderOf(w, id))
    ensures ReconcileAll(w, id, times).requests[id] == w.requests[id]
    decreases |times|
  {
    if times == [] {
    } else {
      ReconciledStays(w, id, times[0]);
      if !w.requests[id].Terminal() { SeenReconcile(w, id, times[0]); }
      Settled(Reconciled(w, id, times[0]), id, times[1..]);
    }
  }

  /** With f fetch failures and d visibility delays pending and no new faults: until they are
      used up a non-terminal request is UNCERTAIN and learns nothing, and from reconcile
      f + d + 1 on it is exactly the mapped broker truth and stays so. */
  lemma {:induction false} ReconcilesConverge(w: World, id: Id, times: seq<Time>)
    requires Reconcilable(w, id) && !w.requests[id].Terminal()
    requires !Stale(w.requests[id], OrderOf(w, id))
    ensures Misses(w, id) <= w.sim.fetchFailures + w.sim.Delay(w.requests[id].key)
    ensures var r' := ReconcileAll(w, id, times).requests[id];
      if |times| > Misses(w, id) then r' == Recorded(w.requests[id], OrderOf(w, id))
      else SameFacts(w.requests[id], r') && (times != [] ==> r'.status == RequestStatus.Uncertain)
    decreases |times|
  {
    if times == [] {
    } else if Misses(w, id) > 0 {
      MissedReconcile(w, id, times[0]);
      ReconciledStays(w, id, times[0]);
      SameFactsSameFate(w.requests[id], Reconciled(w, id, times[0]).requests[id], OrderOf(w, id));
      ReconcilesConverge(Reconciled(w, id, times[0]), id, times[1..]);
    } else {
      SeenReconcile(w, id, times[0]);
      ReconciledStays(w, id, times[0]);
      Settled(Reconciled(w, id, times[0]), id, times[1..]);
    }
  }

  lemma StaleReconcile(w: World, id: Id, at: Time)
    requires Reconcilable(w, id) && !w.requests[id].Terminal()
    requires Stale(w.requests[id], OrderOf(w, id))
    ensures id in Reconciled(w, id, at).requests
    ensures var r' := Reconciled(w, id, at).requests[id];
      SameFacts(w.requests[id], r') && !r'.Terminal() && Stale(r', OrderOf(w, id))
  {
    if Misses(w, id) > 0 { MissedReconcile(w, id, at); } else { SeenReconcile(w, id, at); }
  }

  /** An observation older than the last accepted one never lands, however often it is read. */
  lemma {:induction false} StaleNeverLands(w: World, id: Id, times: seq<Time>)
    requires Reconcilable(w, id) && !w.requests[id].Terminal()
    requires Stale(w.requests[id], OrderOf(w, id))
    ensures SameFacts(w.requests[id], ReconcileAll(w, id, times).requests[id])
    decreases |times|
  {
    if times == [] {
    } else {
      StaleReconcile(w, id, times[0]);
      ReconciledStays(w, id, times[0]);
      StaleNeverLands(Reconciled(w, id, times[0]), id, times[1..]);
    }
  }

  /** Exactly when reconciliation succeeds: the order's observation is accepted in the end
      if and only if it is not older than the last accepted one. */
  lemma ConvergesIffNotStale(w: World, id: Id, times: seq<Time>)
    requires Reconcilable(w, id) && !w.requests[id].Terminal()
    requires |times| > w.sim.fetchFailures + w.sim.Delay(w.requests[id].key)
    ensures ReconcileAll(w, id, times).requests[id] == Recorded(w.requests[id], OrderOf(w, id))
        <==> !Stale(w.requests[id], OrderOf(w, id))
  {
    if Stale(w.requests[id], OrderOf(w, id)) {
      StaleNeverLands(w, id, times);
    } else {
      ReconcilesConverge(w, id, times);
    }
  }
}
