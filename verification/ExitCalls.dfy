/** Core's calls on the exit side are steps of the runs of `ExitAuthority`. */
module ExitCalls {
  import opened Domain
  import opened Engine
  import opened BrokerTruth
  import opened ExitAuthority
  import opened Requests
  import C = CoreManager
  import D = ExitRuns
  import X = ExecutionRuns

  lemma RunOfTwo(j: Joint, first: Step, second: Step)
    ensures Run(j, [first, second]) == Next(Next(j, first), second)
  {
    assert [first, second][1..] == [second] && [second][1..] == [];
    assert Run(Next(j, first), [second]) == Run(Next(Next(j, first), second), []);
  }

  lemma RunOfThree(j: Joint, first: Step, second: Step, third: Step)
    ensures Run(j, [first, second, third]) == Next(Next(Next(j, first), second), third)
  {
    assert [first, second, third][1..] == [second, third];
    RunOfTwo(Next(j, first), second, third);
  }

  lemma ExecutionStep(j: Joint, s: X.Step)
    requires !s.Create? && !s.StartDeploy? && !s.Crashed?
    requires s.StartReconcile? || s.StartCancel? ==> j.exec.pending.Idle?
    ensures Next(j, Execution(s)) == j.(exec := X.Next(j.exec, s))
  {
  }

  lemma ReadSteps(j: Joint, id: Id, at: Time)
    requires j.exec.pending.Idle?
    ensures Run(j, [Execution(X.StartReconcile(id)), Execution(X.FinishRead(at))])
         == j.(exec := Reconciled(j.exec, id, at))
  {
    RunOfTwo(j, Execution(X.StartReconcile(id)), Execution(X.FinishRead(at)));
    ExecutionStep(j, X.StartReconcile(id));
    ExecutionStep(j.(exec := Fetch(j.exec, id)), X.FinishRead(at));
  }

  lemma SubmissionSteps(j: Joint, now: Time)
    ensures Next(Next(j, Execution(X.CallBroker(now))), Execution(X.FinishDeploy(now)))
         == j.(exec := FinalWrite(BrokerCall(j.exec, now), now))
  {
    ExecutionStep(j, X.CallBroker(now));
    ExecutionStep(j.(exec := BrokerCall(j.exec, now)), X.FinishDeploy(now));
  }

  /** The steps of a deploy that the gates let through. */
  function DeploySteps(w: World, id: Id, at: Time, now: Time): seq<Step> {
    if Addressed(w, id) && w.requests[id].status != RequestStatus.Ready
    then [Execution(X.StartReconcile(id)), Execution(X.FinishRead(at))]
    else [DeployStarted(id, at), Execution(X.CallBroker(now)), Execution(X.FinishDeploy(now))]
  }

  /** A deploy the exit gate lets through, as the engine performs it, is a run of these steps. */
  lemma DeployIsAJointRun(j: Joint, id: Id, at: Time, now: Time)
    requires j.exec.pending.Idle? && id in j.exec.requests
    requires j.exec.requests[id].status == RequestStatus.Ready && j.exec.requests[id].purpose == Purpose.Exit ==>
      ExitGate(j.ctx, j.desk.proposals, j.desk.positions, j.exec.requests[id])
    ensures Run(j, DeploySteps(j.exec, id, at, now)) == j.(exec := Deployed(j.exec, id, at, now))
  {
    if Addressed(j.exec, id) && j.exec.requests[id].status != RequestStatus.Ready {
      ReadSteps(j, id, at);
    } else {
      RunOfThree(j, DeployStarted(id, at), Execution(X.CallBroker(now)), Execution(X.FinishDeploy(now)));
      assert Next(j, DeployStarted(id, at)) == j.(exec := DurableWrite(j.exec, id, at));
      SubmissionSteps(j.(exec := DurableWrite(j.exec, id, at)), now);
    }
  }

  /** A handoff the builder makes behind the gates is one step: the new request is stored, or the one
      already stored under its key is answered and nothing changes. */
  lemma ExitHandoffIsAJointStep(j: Joint, proposalId: Id, requestId: Id, orderType: OrderType, limit: Option<real>,
                                at: Time, after: map<Id, ExecutionRequest>, r: ExecutionRequest)
    requires j.exec.pending.Idle? && requestId !in j.exec.requests && CanPrepare(j, proposalId)
    requires var p := j.desk.proposals[proposalId];
      var made := ExitRequest(requestId, p, j.desk.positions[p.positionId], orderType, limit, at);
      && (WithKey(j.exec.requests, made.key) == {} ==> made.Valid())
      && StoredOnce(j.exec.requests, after, made, r)
    ensures Next(j, ExitPrepared(proposalId, requestId, orderType, limit, at)) == j.(exec := j.exec.(requests := after))
  {
    C.KeyUnused(j.exec, ExitKey(j.desk.proposals[proposalId].proposalId));
  }

  lemma PositionStep(j: Joint, s: D.Step)
    requires j.exec.pending.Idle?
    ensures Next(j, PositionSide(s)) == j.(desk := D.Next(j.desk, s))
  {
  }

  lemma ContextStep(j: Joint, ctx: BrokerContext)
    requires j.exec.pending.Idle?
    ensures Next(j, ContextSet(ctx)) == j.(ctx := ctx)
  {
  }

  /** An accepted snapshot is two steps: the position tables, then the context. */
  lemma AcceptIsAJointRun(j: Joint, after: map<Id, Position>, s: AccountSnapshot, ids: seq<Id>)
    requires j.exec.pending.Idle? && D.ReconcileResult(j.desk.positions, after, s, ids)
    ensures Run(j, [PositionSide(D.BrokerMoved(s.broker, after, s.observedAt)), ContextSet(AcceptedContext(s))])
         == Joint(j.desk.(positions := after,
                          proposals := D.ClosedSatisfied(j.desk.proposals, after, s.broker, s.observedAt),
                          orphans := D.StillOrphaned(j.desk.orphans, j.desk.proposals, after, s.broker)),
                  AcceptedContext(s), j.exec)
  {
    var moved := D.BrokerMoved(s.broker, after, s.observedAt);
    var desk := D.Next(j.desk, moved);
    RunOfTwo(j, PositionSide(moved), ContextSet(AcceptedContext(s)));
    PositionStep(j, moved);
    ContextStep(j.(desk := desk), AcceptedContext(s));
    assert desk == j.desk.(positions := after,
                           proposals := D.ClosedSatisfied(j.desk.proposals, after, s.broker, s.observedAt),
                           orphans := D.StillOrphaned(j.desk.orphans, j.desk.proposals, after, s.broker)) by {
      C.AcceptIsADeskStep(j.desk, after, s, ids);
    }
  }
}
