/** Whole runs of exit execution over the position side: under which authority an EXIT order
    reaches the broker. */
module ExitAuthority {
  import opened Domain
  import opened BrokerSimulator
  import opened Engine
  import opened ExitMonitor
  import opened ExitReview
  import opened Requests
  import D = ExitRuns
  import X = ExecutionRuns

  /** The position tables, the broker context and the execution side, under one lock. */
  datatype Joint = Joint(desk: D.Desk, ctx: BrokerContext, exec: World)

  /** `ContextSet` stands for whatever broker reads, outages and restarts do to the context. */
  datatype Step =
    | PositionSide(step: D.Step)
    | ContextSet(ctx: BrokerContext)
    | ExitPrepared(proposalId: Id, requestId: Id, orderType: OrderType, limit: Option<real>, at: Time)
    | EntryPrepared(request: ExecutionRequest)
    | DeployStarted(id: Id, at: Time)
    | Execution(exec: X.Step)
    | Crashed

  /** The rest of a call under way, the broker's own moves and a crash need no lock. */
  predicate NeedsLock(step: Step) {
    match step
    case Execution(s) => s.StartReconcile? || s.StartCancel?
    case Crashed => false
    case _ => true
  }

  ghost function Next(j: Joint, step: Step): Joint {
    if NeedsLock(step) && !j.exec.pending.Idle? then j else Locked(j, step)
  }

  predicate CanPrepare(j: Joint, proposalId: Id) {
    && j.ctx.runtimeReconciled && j.ctx.status == BrokerReconciled && j.ctx.broker == Some(j.exec.sim.name)
    && ExitAuthorised(j.desk.proposals, j.desk.positions, proposalId, j.exec.sim.name)
  }

  ghost function Locked(j: Joint, step: Step): Joint {
    match step
    case PositionSide(s) => j.(desk := D.Next(j.desk, s))
    case ContextSet(ctx) => j.(ctx := ctx)
    case ExitPrepared(proposalId, requestId, orderType, limit, at) =>
      if CanPrepare(j, proposalId) then
        var p := j.desk.proposals[proposalId];
        j.(exec := X.Next(j.exec, X.Create(ExitRequest(requestId, p, j.desk.positions[p.positionId], orderType, limit, at))))
      else j
    case EntryPrepared(r) =>
      if r.purpose == Purpose.Entry && r.key.EntryKey? then j.(exec := X.Next(j.exec, X.Create(r))) else j
    case DeployStarted(id, at) =>
      if id in j.exec.requests && (j.exec.requests[id].purpose == Purpose.Exit ==>
            ExitGate(j.ctx, j.desk.proposals, j.desk.positions, j.exec.requests[id]))
      then j.(exec := DurableWrite(j.exec, id, at)) else j
    case Execution(s) => if s.Create? || s.StartDeploy? || s.Crashed? then j else j.(exec := X.Next(j.exec, s))
    case Crashed => j.(exec := Crash(j.exec), ctx := j.ctx.(runtimeReconciled := false))
  }

  ghost function Run(j: Joint, steps: seq<Step>): Joint
    decreases |steps|
  {
    if steps == [] then j else Run(Next(j, steps[0]), steps[1..])
  }

  function EmptyJoint(name: BrokerName, autoStatus: OrderStatus): Joint {
    Joint(D.EMPTY_DESK, EMPTY_CONTEXT, X.Initial(name, autoStatus))
  }

  // ------------------------------------------------------------------ invariant

  /** An EXIT request is the one of a stored proposal, and closes exposure its request was sized by. */
  predicate ExitRequestOk(proposals: map<Id, ExitProposal>, r: ExecutionRequest) {
    r.key == ExitKey(r.sourceId) && r.sourceId in proposals
  }

  predicate RequestsOk(proposals: map<Id, ExitProposal>, requests: map<Id, ExecutionRequest>) {
    forall id | id in requests ::
      if requests[id].purpose == Purpose.Exit then ExitRequestOk(proposals, requests[id]) else requests[id].key.EntryKey?
  }

  predicate PendingGated(j: Joint) {
    j.exec.pending.Sending? && j.exec.pending.id in j.exec.requests
      && j.exec.requests[j.exec.pending.id].purpose == Purpose.Exit
    ==> ExitGate(j.ctx, j.desk.proposals, j.desk.positions, j.exec.requests[j.exec.pending.id])
  }

  ghost predicate Inv(j: Joint) {
    && D.Inv(j.desk)
    && X.Inv(j.exec)
    && RequestsOk(j.desk.proposals, j.exec.requests)
    && PendingGated(j)
  }

  // ---------------------------------------------------------------- every step

  lemma ProposalsEvolveKeeps(before: map<Id, ExitProposal>, after: map<Id, ExitProposal>, requests: map<Id, ExecutionRequest>)
    requires RequestsOk(before, requests) && D.ExitsEvolve(before, after)
    ensures RequestsOk(after, requests)
  {
  }

  lemma EvolutionKeepsRequests(proposals: map<Id, ExitProposal>, w: World, w': World)
    requires RequestsOk(proposals, w.requests)
    requires X.Evolves(w, w') && w'.requests.Keys == w.requests.Keys
    ensures RequestsOk(proposals, w'.requests)
  {
    forall id | id in w'.requests
      ensures if w'.requests[id].purpose == Purpose.Exit then ExitRequestOk(proposals, w'.requests[id])
              else w'.requests[id].key.EntryKey?
    {
      assert X.RequestEvolves(w.requests[id], w'.requests[id]);
    }
  }

  lemma CreationKeeps(j: Joint, r: ExecutionRequest)
    requires Inv(j) && j.exec.pending.Idle?
    requires if r.purpose == Purpose.Exit then ExitRequestOk(j.desk.proposals, r) else r.key.EntryKey?
    ensures Inv(j.(exec := X.Next(j.exec, X.Create(r))))
  {
    X.StepKeeps(j.exec, X.Create(r));
  }

  lemma PositionSideKeeps(j: Joint, s: D.Step)
    requires Inv(j) && j.exec.pending.Idle?
    ensures Inv(j.(desk := D.Next(j.desk, s)))
  {
    D.StepKeeps(j.desk, s);
    ProposalsEvolveKeeps(j.desk.proposals, D.Next(j.desk, s).proposals, j.exec.requests);
  }

  lemma DeployKeeps(j: Joint, id: Id, at: Time)
    requires Inv(j) && j.exec.pending.Idle?
    ensures Inv(Locked(j, DeployStarted(id, at)))
  {
    X.DurableWriteKeeps(j.exec, id, at);
    X.KeysStay(j.exec, X.StartDeploy(id, at));
    EvolutionKeepsRequests(j.desk.proposals, j.exec, DurableWrite(j.exec, id, at));
  }

  lemma ExecutionKeeps(j: Joint, s: X.Step)
    requires Inv(j)
    ensures Inv(Locked(j, Execution(s)))
  {
    if !(s.Create? || s.StartDeploy? || s.Crashed?) {
      X.StepKeeps(j.exec, s);
      assert RequestsOk(j.desk.proposals, X.Next(j.exec, s).requests) by {
        X.KeysStay(j.exec, s);
        EvolutionKeepsRequests(j.desk.proposals, j.exec, X.Next(j.exec, s));
      }
      X.SubmissionUntouched(j.exec, s);
    }
  }

  lemma LockedKeeps(j: Joint, step: Step)
    requires Inv(j) && (NeedsLock(step) ==> j.exec.pending.Idle?)
    ensures Inv(Locked(j, step))
  {
    match step
    case PositionSide(s) => PositionSideKeeps(j, s);
    case ContextSet(_) =>
    case ExitPrepared(proposalId, requestId, orderType, limit, at) =>
      if CanPrepare(j, proposalId) {
        var p := j.desk.proposals[proposalId];
        CreationKeeps(j, ExitRequest(requestId, p, j.desk.positions[p.positionId], orderType, limit, at));
      }
    case EntryPrepared(r) => if r.purpose == Purpose.Entry && r.key.EntryKey? { CreationKeeps(j, r); }
    case DeployStarted(id, at) => DeployKeeps(j, id, at);
    case Execution(s) => ExecutionKeeps(j, s);
    case Crashed => X.CrashKeeps(j.exec);
  }

  lemma {:induction false} RunKeeps(j: Joint, steps: seq<Step>)
    requires Inv(j)
    ensures Inv(Run(j, steps))
    decreases |steps|
  {
    if steps == [] {
    } else {
      if NeedsLock(steps[0]) ==> j.exec.pending.Idle? { LockedKeeps(j, steps[0]); }
      RunKeeps(Next(j, steps[0]), steps[1..]);
    }
  }

  // ------------------------------------------------------------------- theorems

  /** The order in hand is past its durable write, and an EXIT goes out on current broker truth, under
      an APPROVED proposal of an open MANAGED position, for no more than its exposure, all of it
      for an exit of everything. */
  predicate SentWithAuthority(j: Joint, j': Joint) {
    && j.exec.pending.Sending? && j.exec.pending.id in j.exec.requests
    && var r := j.exec.requests[j.exec.pending.id];
    && r.status == RequestStatus.Submitting && j'.exec.sim.calls == j.exec.sim.calls + [r.key]
    && (r.purpose == Purpose.Exit ==>
          && j.ctx.runtimeReconciled && j.ctx.status == BrokerReconciled && j.ctx.broker == Some(r.broker)
          && r.key == ExitKey(r.sourceId) && r.sourceId in j.desk.proposals
          && var p := j.desk.proposals[r.sourceId];
          && p.status == ExitApproved && OpenManaged(j.desk.positions, p.positionId)
          && var exposure := Abs(j.desk.positions[p.positionId].facts.quantity);
          && 0 < r.quantity <= exposure && (p.action == ExitAll ==> r.quantity == exposure))
  }

  lemma OnlyExecutionReachesBroker(j: Joint, step: Step)
    requires !step.Execution?
    ensures Next(j, step).exec.sim == j.exec.sim
  {
  }

  lemma StepSendsWithAuthority(j: Joint, s: X.Step)
    requires Inv(j) && X.Next(j.exec, s).sim.calls != j.exec.sim.calls
    ensures SentWithAuthority(j, j.(exec := X.Next(j.exec, s)))
  {
    if !(s.CallBroker? && j.exec.pending.Sending?) { X.OnlySendingCalls(j.exec, s); }
    X.CallAppends(j.exec, s.now);
    assert X.RequestOk(j.exec, j.exec.pending.id);
  }

  /** Whenever any step of any run makes the broker receive an order, it is sent with that authority. */
  lemma ExitSubmissionIsAuthorised(name: BrokerName, autoStatus: OrderStatus, steps: seq<Step>, step: Step)
    ensures var j := Run(EmptyJoint(name, autoStatus), steps);
      Next(j, step).exec.sim.calls != j.exec.sim.calls ==> SentWithAuthority(j, Next(j, step))
  {
    RunKeeps(EmptyJoint(name, autoStatus), steps);
    var j := Run(EmptyJoint(name, autoStatus), steps);
    if Next(j, step).exec.sim.calls != j.exec.sim.calls {
      if !step.Execution? { OnlyExecutionReachesBroker(j, step); }
      StepSendsWithAuthority(j, step.exec);
    }
  }

  /** Every exit submitted is of a stored proposal, and no proposal is ever submitted twice. */
  lemma ProposalExitsOnce(name: BrokerName, autoStatus: OrderStatus, steps: seq<Step>)
    ensures var j := Run(EmptyJoint(name, autoStatus), steps);
      && (forall i | 0 <= i < |j.exec.sim.calls| && j.exec.sim.calls[i].ExitKey? ::
            j.exec.sim.calls[i].proposalId in j.desk.proposals)
      && (forall key :: multiset(j.exec.sim.calls)[key] <= 1)
  {
    RunKeeps(EmptyJoint(name, autoStatus), steps);
    var j := Run(EmptyJoint(name, autoStatus), steps);
    forall i | 0 <= i < |j.exec.sim.calls| && j.exec.sim.calls[i].ExitKey?
      ensures j.exec.sim.calls[i].proposalId in j.desk.proposals
    {
      assert j.exec.sim.calls[i] in X.Keys(j.exec);
      var id :| id in j.exec.requests && j.exec.requests[id].key == j.exec.sim.calls[i];
    }
    forall key ensures multiset(j.exec.sim.calls)[key] <= 1 {
      X.CountOfDistinct(j.exec.sim.calls, key);
    }
  }

  // ------------------------------------------------------------ competing exits

  /** Every User resolution on the way was safe when it was made. */
  ghost predicate SafeRun(j: Joint, steps: seq<Step>)
    decreases |steps|
  {
    steps == [] || (SafeStep(j, steps[0]) && SafeRun(Next(j, steps[0]), steps[1..]))
  }

  predicate SafeStep(j: Joint, step: Step) {
    step.PositionSide? && j.exec.pending.Idle? ==> D.SafeStep(j.desk, step.step)
  }

  lemma SafeStepKeepsPaths(j: Joint, step: Step)
    requires D.Inv(j.desk) && D.PathsOk(j.desk) && SafeStep(j, step)
    ensures D.PathsOk(Next(j, step).desk)
  {
    if step.PositionSide? && j.exec.pending.Idle? { D.SafeStepKeepsPaths(j.desk, step.step); }
  }

  lemma {:induction false} SafeRunKeepsPaths(j: Joint, steps: seq<Step>)
    requires Inv(j) && D.PathsOk(j.desk) && SafeRun(j, steps)
    ensures D.PathsOk(Run(j, steps).desk)
    decreases |steps|
  {
    if steps == [] {
    } else {
      if NeedsLock(steps[0]) ==> j.exec.pending.Idle? { LockedKeeps(j, steps[0]); }
      SafeStepKeepsPaths(j, steps[0]);
      SafeRunKeepsPaths(Next(j, steps[0]), steps[1..]);
    }
  }

  /** The exit is active, and the other, if it is one of the same position, is partial as it is. */
  predicate Uncontested(proposals: map<Id, ExitProposal>, id: Id, other: Id) {
    && id in proposals && ActiveOn(proposals, proposals[id].positionId, id)
    && (other != id && ActiveOn(proposals, proposals[id].positionId, other) ==>
          proposals[id].action != ExitAll && proposals[other].action != ExitAll)
  }

  lemma OnePathUncontested(proposals: map<Id, ExitProposal>, id: Id, other: Id)
    requires OnePath(proposals) && id in proposals && proposals[id].Active()
    ensures Uncontested(proposals, id, other)
  {
  }

  /** The step makes the broker receive the EXIT order of this proposal. */
  ghost predicate SendsExit(j: Joint, step: Step, proposalId: Id) {
    && Next(j, step).exec.sim.calls != j.exec.sim.calls
    && j.exec.pending.Sending? && j.exec.pending.id in j.exec.requests
    && j.exec.requests[j.exec.pending.id].purpose == Purpose.Exit
    && j.exec.requests[j.exec.pending.id].sourceId == proposalId
  }

  lemma StepDoesNotCompete(j: Joint, step: Step, id: Id, other: Id)
    requires Inv(j) && OnePath(j.desk.proposals) && SendsExit(j, step, id)
    ensures Uncontested(j.desk.proposals, id, other)
  {
    if !step.Execution? { OnlyExecutionReachesBroker(j, step); }
    StepSendsWithAuthority(j, step.exec);
    OnePathUncontested(j.desk.proposals, id, other);
  }

  /** While User resolutions are safe, no two exits compete for one exposure: whenever an EXIT order
      reaches the broker, either its proposal is the only active one of its position, or it and
      every other active one are partial. */
  lemma SentExitDoesNotCompete(name: BrokerName, autoStatus: OrderStatus, steps: seq<Step>, step: Step, id: Id, other: Id)
    requires SafeRun(EmptyJoint(name, autoStatus), steps)
    ensures var j := Run(EmptyJoint(name, autoStatus), steps);
      SendsExit(j, step, id) ==> Uncontested(j.desk.proposals, id, other)
  {
    var j := Run(EmptyJoint(name, autoStatus), steps);
    RunKeeps(EmptyJoint(name, autoStatus), steps);
    assert OnePath(j.desk.proposals) by { SafeRunKeepsPaths(EmptyJoint(name, autoStatus), steps); }
    if SendsExit(j, step, id) { StepDoesNotCompete(j, step, id, other); }
  }

  /** Without that they do: once the User has revived an exit beside an approved one that excludes it,
      both may be handed to Module M. */
  lemma RevivedExitCompetes(proposals: map<Id, ExitProposal>, positions: map<Id, Position>, id: Id, other: Id,
                            broker: BrokerName, at: Time)
    requires id in proposals && !proposals[id].Active()
    requires ExitAuthorised(proposals, positions, other, broker)
    requires proposals[other].positionId == proposals[id].positionId
    requires proposals[id].action == ExitAll || proposals[other].action == ExitAll
    requires ExitQuantity(positions[proposals[id].positionId].facts.quantity, proposals[id]).Some?
    ensures var after := proposals[id := Resolved(proposals[id], Approve, at)];
      && ExitAuthorised(after, positions, id, broker) && ExitAuthorised(after, positions, other, broker)
      && !OnePath(after)
  {
    ResolveCanReviveSuperseded(proposals, positions, id, other, at);
  }
}
