/** The SEMI_AUTO approval boundary: the User's explicit decision about one READY request. */
module Approval {
  import opened Domain
  import opened Store

  /** Greatest update time, then greatest id, among the approvals of one request. */
  predicate IsLatestApproval(approvals: map<Id, ExecutionApproval>, requestId: Id, id: Id) {
    && id in approvals && approvals[id].requestId == requestId
    && (forall other | other in approvals && approvals[other].requestId == requestId ::
          || approvals[other].updatedAt < approvals[id].updatedAt
          || (approvals[other].updatedAt == approvals[id].updatedAt && other <= id))
  }

  lemma LatestApprovalUnique(approvals: map<Id, ExecutionApproval>, requestId: Id, i: Id, j: Id)
    requires IsLatestApproval(approvals, requestId, i) && IsLatestApproval(approvals, requestId, j)
    ensures i == j
  {
    assert approvals[i].updatedAt <= approvals[j].updatedAt && approvals[j].updatedAt <= approvals[i].updatedAt;
  }

  predicate AwaitsDecision(approvals: map<Id, ExecutionApproval>, requestId: Id, id: Id) {
    IsLatestApproval(approvals, requestId, id) && approvals[id].status == ApprovalPending
  }

  /** When the grant starts to age. */
  function Anchor(a: ExecutionApproval): Time { if a.decidedAt.Some? then a.decidedAt.value else a.updatedAt }

  /** `id` is a current grant for the request with this id and key. */
  predicate Grants(approvals: map<Id, ExecutionApproval>, requestId: Id, key: IdempotencyKey, id: Id, ttl: int, now: Time) {
    && IsLatestApproval(approvals, requestId, id)
    && approvals[id].status == Approved
    && approvals[id].key == key
    && now - Anchor(approvals[id]) <= ttl
  }

  /** Before Module M: any mode may write to a simulation; a real broker needs armed SEMI_AUTO
      with a current grant, or armed AUTO whose readiness evidence still holds. */
  predicate WriteAllowed(mode: ExecutionMode, armed: bool, simulation: bool, autoReady: bool, ttl: int,
                         approvals: map<Id, ExecutionApproval>, r: ExecutionRequest, grant: Id, at: Time)
  {
    simulation || (armed && match mode
                            case Paper => false
                            case SemiAuto => Grants(approvals, r.requestId, r.key, grant, ttl, at)
                            case Auto => autoReady)
  }

  function PendingApproval(id: Id, requestId: Id, key: IdempotencyKey, at: Time): ExecutionApproval {
    ExecutionApproval(id, requestId, key, ApprovalPending, at, None)
  }

  function DecidedApproval(a: ExecutionApproval, approve: bool, at: Time): ExecutionApproval {
    a.(status := if approve then Approved else ApprovalRejected, updatedAt := at, decidedAt := Some(at))
  }

  class SemiAutoApprovalCoordinator {
    const repository: Repository
    const ttl: int

    constructor (repository: Repository, ttl: int)
      requires ttl > 0
      ensures this.repository == repository && this.ttl == ttl
    {
      this.repository, this.ttl := repository, ttl;
    }

    /** `get_latest_execution_approval` */
    method FindLatest(requestId: Id) returns (latest: Option<Id>)
      ensures match latest
        case Some(id) => IsLatestApproval(repository.executionApprovals, requestId, id)
        case None => forall id: Id :: !IsLatestApproval(repository.executionApprovals, requestId, id)
    {
      var approvals := repository.executionApprovals;
      var latestOnes := set id | id in approvals && IsLatestApproval(approvals, requestId, id);
      if latestOnes == {} {
        forall id: Id ensures !IsLatestApproval(approvals, requestId, id) {
          assert id !in latestOnes;
        }
        return None;
      }
      var id :| id in latestOnes;
      return Some(id);
    }

    /** Opens a decision about a READY request, unless one is already open. */
    method Request(requestId: Id, approvalId: Id, at: Time) returns (r: Outcome<ExecutionApproval>)
      requires approvalId !in repository.executionApprovals
      modifies repository`executionApprovals
      ensures r.Returned? <==>
        requestId in repository.executionRequests && repository.executionRequests[requestId].status == RequestStatus.Ready
      ensures r.Returned? ==>
        if exists id :: AwaitsDecision(old(repository.executionApprovals), requestId, id)
        then repository.executionApprovals == old(repository.executionApprovals)
             && exists id :: AwaitsDecision(old(repository.executionApprovals), requestId, id)
                             && r.value == old(repository.executionApprovals)[id]
        else r.value == PendingApproval(approvalId, requestId, repository.executionRequests[requestId].key, at)
             && repository.executionApprovals == old(repository.executionApprovals)[approvalId := r.value]
      ensures r.Raised? ==> repository.executionApprovals == old(repository.executionApprovals)
    {
      if requestId !in repository.executionRequests { return Raised; }
      var request := repository.executionRequests[requestId];
      if request.status != RequestStatus.Ready { return Raised; }
      var latest := FindLatest(requestId);
      if latest.Some? && repository.executionApprovals[latest.value].status == ApprovalPending {
        assert AwaitsDecision(repository.executionApprovals, requestId, latest.value);
        return Returned(repository.executionApprovals[latest.value]);
      }
      forall id | AwaitsDecision(repository.executionApprovals, requestId, id) ensures false {
        LatestApprovalUnique(repository.executionApprovals, requestId, id, latest.value);
      }
      var approval := PendingApproval(approvalId, requestId, request.key, at);
      repository.executionApprovals := repository.executionApprovals[approvalId := approval];
      return Returned(approval);
    }

    /** Only the open decision of the same order can be taken, and only by its exact word. */
    method Decide(requestId: Id, approve: bool, confirmed: bool, at: Time) returns (r: Outcome<ExecutionApproval>)
      modifies repository`executionApprovals
      ensures r.Returned? <==>
        && confirmed && requestId in repository.executionRequests
        && exists id :: AwaitsDecision(old(repository.executionApprovals), requestId, id)
                        && old(repository.executionApprovals)[id].key == repository.executionRequests[requestId].key
      ensures r.Returned? ==>
        forall id | AwaitsDecision(old(repository.executionApprovals), requestId, id) ::
          && r.value == DecidedApproval(old(repository.executionApprovals)[id], approve, at)
          && repository.executionApprovals == old(repository.executionApprovals)[id := r.value]
      ensures r.Raised? ==> repository.executionApprovals == old(repository.executionApprovals)
    {
      if requestId !in repository.executionRequests { return Raised; }
      var latest := FindLatest(requestId);
      if latest.None? || repository.executionApprovals[latest.value].status != ApprovalPending {
        forall id | AwaitsDecision(repository.executionApprovals, requestId, id) ensures false {
          LatestApprovalUnique(repository.executionApprovals, requestId, id, latest.value);
        }
        return Raised;
      }
      var approval := repository.executionApprovals[latest.value];
      forall id | AwaitsDecision(repository.executionApprovals, requestId, id) ensures id == latest.value {
        LatestApprovalUnique(repository.executionApprovals, requestId, id, latest.value);
      }
      if approval.key != repository.executionRequests[requestId].key { return Raised; }
      if !confirmed { return Raised; }
      var updated := DecidedApproval(approval, approve, at);
      repository.executionApprovals := repository.executionApprovals[latest.value := updated];
      return Returned(updated);
    }

    /** Passes exactly when the latest approval is a fresh APPROVED one for this very order. */
    method AssertCurrentApproval(request: ExecutionRequest, now: Time) returns (r: Outcome<ExecutionApproval>)
      ensures match r
        case Returned(a) => exists id :: Grants(repository.executionApprovals, request.requestId, request.key, id, ttl, now)
                                         && a == repository.executionApprovals[id]
        case Raised => forall id: Id :: !Grants(repository.executionApprovals, request.requestId, request.key, id, ttl, now)
    {
      var latest := FindLatest(request.requestId);
      if latest.None? { return Raised; }
      forall id: Id | IsLatestApproval(repository.executionApprovals, request.requestId, id) ensures id == latest.value {
        LatestApprovalUnique(repository.executionApprovals, request.requestId, id, latest.value);
      }
      var approval := repository.executionApprovals[latest.value];
      if approval.status != Approved { return Raised; }
      if approval.key != request.key { return Raised; }
      if now - Anchor(approval) > ttl { return Raised; }
      assert Grants(repository.executionApprovals, request.requestId, request.key, latest.value, ttl, now);
      return Returned(approval);
    }
  }
}
