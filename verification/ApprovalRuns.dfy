/** Whole runs in PAPER, SEMI_AUTO and AUTO with approvals that age: what it takes for an
    order to reach a real broker. */
module ApprovalRuns {
  import opened Domain
  import opened BrokerSimulator
  import opened Engine
  import opened Approval
  import X = ExecutionRuns

  /** The User's last word about a request, remembered without looking at the approvals table. */
  datatype Word = Word(status: ApprovalStatus, at: Time)

  /** `words`, `gateAt` and `grant` (of the submission under way) and `used` (the approval each
      SEMI_AUTO submission to a real broker went out under) are history. */
  datatype Desk = Desk(
    mode: ExecutionMode,
    armed: bool,
    simulation: bool,
    ttl: int,
    exec: World,
    approvals: map<Id, ExecutionApproval>,
    clock: Time,
    words: map<Id, Word>,
    gateAt: Time,
    grant: Option<Id>,
    used: map<IdempotencyKey, Id>)

  datatype Step =
    | Created(request: ExecutionRequest)
    | ApprovalRequested(requestId: Id, approvalId: Id, at: Time)
    | ApprovalDecided(requestId: Id, latest: Id, approve: bool, at: Time)
    | DeployStarted(id: Id, latest: Id, autoReady: bool, at: Time)
    | Execution(step: X.Step)
    | Restarted(mode: ExecutionMode, armed: bool)

  predicate CanRequest(d: Desk, requestId: Id, approvalId: Id, at: Time) {
    && d.mode == SemiAuto && at > d.clock
    && requestId in d.exec.requests && d.exec.requests[requestId].status == RequestStatus.Ready
    && approvalId !in d.approvals
    && forall id | id in d.approvals :: !AwaitsDecision(d.approvals, requestId, id)
  }

  predicate CanDecide(d: Desk, requestId: Id, latest: Id, at: Time) {
    && d.mode == SemiAuto && at > d.clock
    && requestId in d.exec.requests && AwaitsDecision(d.approvals, requestId, latest)
    && d.approvals[latest].key == d.exec.requests[requestId].key
  }

  function Next(d: Desk, step: Step): Desk {
    match step
    case Created(r) => d.(exec := X.Next(d.exec, X.Create(r)))
    case ApprovalRequested(requestId, approvalId, at) =>
      if d.exec.pending.Idle? && CanRequest(d, requestId, approvalId, at) then
        d.(clock := at, words := d.words[requestId := Word(ApprovalPending, at)],
           approvals := d.approvals[approvalId :=
             PendingApproval(approvalId, requestId, d.exec.requests[requestId].key, at)])
      else d
    case ApprovalDecided(requestId, latest, approve, at) =>
      if d.exec.pending.Idle? && CanDecide(d, requestId, latest, at) then
        d.(clock := at, words := d.words[requestId := Word(if approve then Approved else ApprovalRejected, at)],
           approvals := d.approvals[latest := DecidedApproval(d.approvals[latest], approve, at)])
      else d
    case DeployStarted(id, latest, autoReady, at) =>
      if d.exec.pending.Idle? && at > d.clock && id in d.exec.requests
         && WriteAllowed(d.mode, d.armed, d.simulation, autoReady, d.ttl, d.approvals, d.exec.requests[id], latest, at) then
        d.(clock := at, gateAt := at, grant := Some(latest), exec := DurableWrite(d.exec, id, at))
      else d
    case Execution(s) =>
      if s.Create? || s.StartDeploy? || s.Crashed? then d
      else
        var sends := s.CallBroker? && d.exec.pending.Sending? && d.exec.pending.id in d.exec.requests;
        d.(exec := X.Next(d.exec, s),
           used := if sends && !d.simulation && d.mode == SemiAuto && d.grant.Some?
                   then d.used[d.exec.requests[d.exec.pending.id].key := d.grant.value] else d.used)
    case Restarted(mode, armed) => d.(mode := mode, armed := armed, exec := Crash(d.exec))
  }

  function Run(d: Desk, steps: seq<Step>): Desk
    decreases |steps|
  {
    if steps == [] then d else Run(Next(d, steps[0]), steps[1..])
  }

  function EmptyDesk(mode: ExecutionMode, armed: bool, simulation: bool, ttl: int, name: BrokerName, autoStatus: OrderStatus,
                     clock: Time): Desk
  {
    Desk(mode, armed, simulation, ttl, X.Initial(name, autoStatus), map[], clock, map[], clock, None, map[])
  }

  // ------------------------------------------------------------------ invariant

  predicate ApprovalsOk(approvals: map<Id, ExecutionApproval>, requests: map<Id, ExecutionRequest>, clock: Time) {
    forall id | id in approvals ::
      && approvals[id].requestId in requests && approvals[id].key == requests[approvals[id].requestId].key
      && approvals[id].updatedAt <= clock
      && (approvals[id].status == Approved ==> approvals[id].decidedAt == Some(approvals[id].updatedAt))
  }

  /** The latest record of the table is the User's last word. */
  ghost predicate WordsOk(approvals: map<Id, ExecutionApproval>, words: map<Id, Word>) {
    forall requestId: Id, id: Id | IsLatestApproval(approvals, requestId, id) ::
      requestId in words && words[requestId] == Word(approvals[id].status, approvals[id].updatedAt)
  }

  predicate SendingOk(d: Desk) {
    d.exec.pending.Sending? && d.exec.pending.id in d.exec.requests && !d.simulation ==>
      var r := d.exec.requests[d.exec.pending.id];
      && d.armed && d.mode != Paper
      && (d.mode == SemiAuto ==> d.grant.Some? && Grants(d.approvals, r.requestId, r.key, d.grant.value, d.ttl, d.gateAt))
  }

  predicate UsedOk(approvals: map<Id, ExecutionApproval>, used: map<IdempotencyKey, Id>) {
    forall key | key in used :: used[key] in approvals && approvals[used[key]].key == key
  }

  ghost predicate Inv(d: Desk) {
    && X.Inv(d.exec)
    && ApprovalsOk(d.approvals, d.exec.requests, d.clock)
    && WordsOk(d.approvals, d.words)
    && SendingOk(d)
    && UsedOk(d.approvals, d.used)
  }

  // ---------------------------------------------------------------- every step

  /** With a clock that moves on, a record written now is the latest of its request, and the
      latest of every other request stays. */
  lemma WriteIsLatest(approvals: map<Id, ExecutionApproval>, words: map<Id, Word>, requests: map<Id, ExecutionRequest>,
                      clock: Time, id: Id, a: ExecutionApproval)
    requires ApprovalsOk(approvals, requests, clock) && WordsOk(approvals, words)
    requires a.updatedAt > clock && (id in approvals ==> approvals[id].requestId == a.requestId)
    ensures WordsOk(approvals[id := a], words[a.requestId := Word(a.status, a.updatedAt)])
  {
    var after := approvals[id := a];
    forall requestId: Id, i: Id | IsLatestApproval(after, requestId, i)
      ensures requestId == a.requestId ==> i == id
      ensures requestId != a.requestId ==> IsLatestApproval(approvals, requestId, i)
    {
      assert after[id].requestId == requestId ==> after[id].updatedAt <= after[i].updatedAt;
      forall other | other in approvals && approvals[other].requestId == requestId && requestId != a.requestId
        ensures || approvals[other].updatedAt < approvals[i].updatedAt
                || (approvals[other].updatedAt == approvals[i].updatedAt && other <= i)
      {
        assert other in after && after[other] == approvals[other];
      }
    }
  }

  lemma ApprovalWriteKeeps(d: Desk, id: Id, a: ExecutionApproval, at: Time)
    requires Inv(d) && d.exec.pending.Idle? && at > d.clock && a.updatedAt == at
    requires a.requestId in d.exec.requests && a.key == d.exec.requests[a.requestId].key
    requires id in d.approvals ==> d.approvals[id].requestId == a.requestId
    requires a.status == Approved ==> a.decidedAt == Some(at)
    ensures Inv(d.(clock := at, words := d.words[a.requestId := Word(a.status, at)], approvals := d.approvals[id := a]))
  {
    WriteIsLatest(d.approvals, d.words, d.exec.requests, d.clock, id, a);
  }

  lemma EvolutionKeepsApprovals(approvals: map<Id, ExecutionApproval>, w: World, w': World, clock: Time, clock': Time)
    requires ApprovalsOk(approvals, w.requests, clock) && X.Evolves(w, w') && clock <= clock'
    ensures ApprovalsOk(approvals, w'.requests, clock')
  {
    forall id | id in approvals
      ensures approvals[id].requestId in w'.requests && w'.requests[approvals[id].requestId].key == approvals[id].key
    {
      assert X.RequestEvolves(w.requests[approvals[id].requestId], w'.requests[approvals[id].requestId]);
    }
  }

  lemma DeployKeeps(d: Desk, id: Id, latest: Id, autoReady: bool, at: Time)
    requires Inv(d) && d.exec.pending.Idle?
    ensures Inv(Next(d, DeployStarted(id, latest, autoReady, at)))
  {
    X.DurableWriteKeeps(d.exec, id, at);
    if at > d.clock { EvolutionKeepsApprovals(d.approvals, d.exec, DurableWrite(d.exec, id, at), d.clock, at); }
  }

  lemma ExecutionKeeps(d: Desk, s: X.Step)
    requires Inv(d)
    ensures Inv(Next(d, Execution(s)))
  {
    if !(s.Create? || s.StartDeploy? || s.Crashed?) {
      X.StepKeeps(d.exec, s);
      EvolutionKeepsApprovals(d.approvals, d.exec, X.Next(d.exec, s), d.clock, d.clock);
      X.SubmissionUntouched(d.exec, s);
    }
  }

  lemma CreationKeeps(d: Desk, r: ExecutionRequest)
    requires Inv(d)
    ensures Inv(Next(d, Created(r)))
  {
    X.StepKeeps(d.exec, X.Create(r));
    EvolutionKeepsApprovals(d.approvals, d.exec, X.Next(d.exec, X.Create(r)), d.clock, d.clock);
  }

  lemma StepKeeps(d: Desk, step: Step)
    requires Inv(d)
    ensures Inv(Next(d, step))
  {
    match step
    case Created(r) => CreationKeeps(d, r);
    case ApprovalRequested(requestId, approvalId, at) =>
      if d.exec.pending.Idle? && CanRequest(d, requestId, approvalId, at) {
        ApprovalWriteKeeps(d, approvalId, PendingApproval(approvalId, requestId, d.exec.requests[requestId].key, at), at);
      }
    case ApprovalDecided(requestId, latest, approve, at) =>
      if d.exec.pending.Idle? && CanDecide(d, requestId, latest, at) {
        ApprovalWriteKeeps(d, latest, DecidedApproval(d.approvals[latest], approve, at), at);
      }
    case DeployStarted(id, latest, autoReady, at) =>
      if d.exec.pending.Idle? { DeployKeeps(d, id, latest, autoReady, at); }
    case Execution(s) => ExecutionKeeps(d, s);
    case Restarted(mode, armed) =>
      X.CrashKeeps(d.exec);
      EvolutionKeepsApprovals(d.approvals, d.exec, Crash(d.exec), d.clock, d.clock);
  }

  lemma {:induction false} RunKeeps(d: Desk, steps: seq<Step>)
    requires Inv(d)
    ensures Inv(Run(d, steps))
    decreases |steps|
  {
    if steps == [] {
    } else {
      StepKeeps(d, steps[0]);
      RunKeeps(Next(d, steps[0]), steps[1..]);
    }
  }

  // ------------------------------------------------------------------- theorems

  lemma OnlySendingCalls(d: Desk, step: Step)
    requires !(step.Execution? && step.step.CallBroker? && d.exec.pending.Sending?)
    ensures Next(d, step).exec.sim.calls == d.exec.sim.calls
  {
    if step.Execution? { X.OnlySendingCalls(d.exec, step.step); }
  }

  /** The order in hand may go to a real broker: never in PAPER or unarmed, and in SEMI_AUTO only
      when the User's last word on this very order is an APPROVE at most one TTL before the gate. */
  predicate GrantedByUser(d: Desk, r: ExecutionRequest) {
    && d.mode != Paper && d.armed
    && (d.mode == SemiAuto ==>
          && r.requestId in d.words && d.words[r.requestId].status == Approved
          && d.gateAt - d.words[r.requestId].at <= d.ttl
          && d.grant.Some? && d.grant.value in d.approvals && d.approvals[d.grant.value].key == r.key)
  }

  /** In every run, over restarts, mode changes and faults, an order that reaches a real broker was
      granted in that sense; a newer PENDING or REJECTED cuts an older approval off. */
  lemma RealWritesAreGranted(mode: ExecutionMode, armed: bool, ttl: int, name: BrokerName, autoStatus: OrderStatus, clock: Time,
                             steps: seq<Step>, step: Step)
    ensures var d := Run(EmptyDesk(mode, armed, false, ttl, name, autoStatus, clock), steps);
      Next(d, step).exec.sim.calls != d.exec.sim.calls ==>
        && d.exec.pending.Sending? && d.exec.pending.id in d.exec.requests
        && GrantedByUser(d, d.exec.requests[d.exec.pending.id])
  {
    RunKeeps(EmptyDesk(mode, armed, false, ttl, name, autoStatus, clock), steps);
    SimulationFixed(EmptyDesk(mode, armed, false, ttl, name, autoStatus, clock), steps);
    var d := Run(EmptyDesk(mode, armed, false, ttl, name, autoStatus, clock), steps);
    if Next(d, step).exec.sim.calls != d.exec.sim.calls {
      assert step.Execution? && step.step.CallBroker? && d.exec.pending.Sending? by {
        if !(step.Execution? && step.step.CallBroker? && d.exec.pending.Sending?) { OnlySendingCalls(d, step); }
      }
      assert X.PendingOk(d.exec);
    }
  }

  lemma {:induction false} SimulationFixed(d: Desk, steps: seq<Step>)
    ensures Run(d, steps).simulation == d.simulation
    decreases |steps|
  {
    if steps != [] { SimulationFixed(Next(d, steps[0]), steps[1..]); }
  }

  /** One approval yields at most one submission: different submitted orders used different
      approvals, and no order is submitted twice. */
  lemma ApprovalSpentOnce(mode: ExecutionMode, armed: bool, simulation: bool, ttl: int, name: BrokerName, autoStatus: OrderStatus,
                          clock: Time, steps: seq<Step>)
    ensures var d := Run(EmptyDesk(mode, armed, simulation, ttl, name, autoStatus, clock), steps);
      && (forall key | key in d.used :: multiset(d.exec.sim.calls)[key] <= 1)
      && (forall key, key' | key in d.used && key' in d.used && d.used[key] == d.used[key'] :: key == key')
  {
    RunKeeps(EmptyDesk(mode, armed, simulation, ttl, name, autoStatus, clock), steps);
    var d := Run(EmptyDesk(mode, armed, simulation, ttl, name, autoStatus, clock), steps);
    forall key | key in d.used ensures multiset(d.exec.sim.calls)[key] <= 1 {
      X.CountOfDistinct(d.exec.sim.calls, key);
    }
  }

  lemma PaperStepIsQuiet(d: Desk, step: Step)
    requires Inv(d) && !d.simulation && d.mode == Paper
    requires step.Restarted? ==> step.mode == Paper
    ensures Next(d, step).exec.sim.calls == d.exec.sim.calls && Next(d, step).mode == Paper
  {
    assert X.PendingOk(d.exec);
    assert !d.exec.pending.Sending?;
    OnlySendingCalls(d, step);
  }

  lemma {:induction false} PaperRunIsQuiet(d: Desk, steps: seq<Step>)
    requires Inv(d) && !d.simulation && d.mode == Paper
    requires forall i | 0 <= i < |steps| && steps[i].Restarted? :: steps[i].mode == Paper
    ensures Run(d, steps).exec.sim.calls == d.exec.sim.calls
    decreases |steps|
  {
    if steps == [] {
    } else {
      PaperStepIsQuiet(d, steps[0]);
      StepKeeps(d, steps[0]);
      SimulationFixed(d, [steps[0]]);
      PaperRunIsQuiet(Next(d, steps[0]), steps[1..]);
    }
  }

  /** A PAPER run never submits to a real broker, armed or not, whatever is approved. */
  lemma PaperNeverReachesRealBroker(armed: bool, ttl: int, name: BrokerName, autoStatus: OrderStatus, clock: Time,
                                    steps: seq<Step>)
    requires forall i | 0 <= i < |steps| && steps[i].Restarted? :: steps[i].mode == Paper
    ensures Run(EmptyDesk(Paper, armed, false, ttl, name, autoStatus, clock), steps).exec.sim.calls == []
  {
    PaperRunIsQuiet(EmptyDesk(Paper, armed, false, ttl, name, autoStatus, clock), steps);
  }
}
