/** Agent review of strategic exit proposals, and the User's resolution of a disagreement. */
module ExitReview {
  import opened Domain
  import opened Store
  import opened Reviews
  import opened ExitMonitor

  predicate UserMustDecide(r: Review) {
    r.userDecision.None? && !(r.status == ReviewCompleted && r.verdict == Some(Approve))
  }

  function StatusFor(choice: Verdict): ExitStatus {
    match choice case Approve => ExitApproved case Reject => ExitRejected case RetreatWait => ExitRetreatWait
  }

  function Resolved(p: ExitProposal, choice: Verdict, at: Time): ExitProposal {
    p.(status := StatusFor(choice), updatedAt := at)
  }

  predicate Reviewable(proposals: map<Id, ExitProposal>, positions: map<Id, Position>, id: Id) {
    && id in proposals && proposals[id].class_ == Strategic && proposals[id].status == ExitPending
    && OpenManaged(positions, proposals[id].positionId)
  }

  class ExitReviewCoordinator {
    const repository: Repository

    constructor (repository: Repository)
      ensures this.repository == repository
    {
      this.repository := repository;
    }

    /** Only a matching APPROVE for a PENDING strategic proposal approves it; silence, a wrong
        review id and any other verdict leave the proposal exactly as it was. */
    method RequestReview(proposalId: Id, answer: AgentAnswer, reviewId: Id, at: Time, now: Time) returns (r: Outcome<Review>)
      requires reviewId !in repository.exitReviews
      modifies repository`exitReviews, repository`exitProposals
      ensures r.Returned? <==>
        && Reviewable(old(repository.exitProposals), repository.positions, proposalId)
        && (forall id | IsLatest(old(repository.exitReviews), proposalId, id) ::
              old(repository.exitReviews)[id].userDecision.Some?)
      ensures r.Returned? ==>
        && r.value == Concluded(Review(reviewId, proposalId, ReviewPending, None, None, at, at), answer, now)
        && repository.exitReviews == old(repository.exitReviews)[reviewId := r.value]
        && repository.exitProposals ==
             if r.value.verdict == Some(Approve)
             then old(repository.exitProposals)[proposalId := old(repository.exitProposals)[proposalId]
                    .(status := ExitApproved, updatedAt := r.value.updatedAt)]
             else old(repository.exitProposals)
      ensures r.Raised? ==>
        && repository.exitReviews == old(repository.exitReviews)
        && repository.exitProposals == old(repository.exitProposals)
    {
      if !Reviewable(repository.exitProposals, repository.positions, proposalId) { return Raised; }
      var latest := FindLatest(repository.exitReviews, proposalId);
      if latest.Some? && repository.exitReviews[latest.value].userDecision.None? { return Raised; }
      if latest.Some? {
        forall id | IsLatest(repository.exitReviews, proposalId, id) ensures id == latest.value {
          LatestUnique(repository.exitReviews, proposalId, id, latest.value);
        }
      }
      var review := Review(reviewId, proposalId, ReviewPending, None, None, at, at);
      repository.exitReviews := repository.exitReviews[reviewId := review];
      var concluded := Concluded(review, answer, now);
      repository.exitReviews := repository.exitReviews[reviewId := concluded];
      if concluded.verdict == Some(Approve) {
        var approved := repository.exitProposals[proposalId].(status := ExitApproved, updatedAt := concluded.updatedAt);
        repository.exitProposals := repository.exitProposals[proposalId := approved];
      }
      return Returned(concluded);
    }

    /** Records the User's choice.  The proposal's own status is not looked at. */
    method ResolveUserDecision(proposalId: Id, choice: Verdict, at: Time) returns (r: Outcome<ExitProposal>)
      modifies repository`exitReviews, repository`exitProposals
      ensures r.Returned? <==>
        && proposalId in old(repository.exitProposals)
        && (exists id :: IsLatest(old(repository.exitReviews), proposalId, id)
              && UserMustDecide(old(repository.exitReviews)[id]))
      ensures r.Returned? ==>
        && r.value == Resolved(old(repository.exitProposals)[proposalId], choice, at)
        && repository.exitProposals == old(repository.exitProposals)[proposalId := r.value]
        && (forall id | IsLatest(old(repository.exitReviews), proposalId, id) ::
              repository.exitReviews == old(repository.exitReviews)
                [id := old(repository.exitReviews)[id].(userDecision := Some(choice), updatedAt := at)])
      ensures r.Raised? ==>
        && repository.exitReviews == old(repository.exitReviews)
        && repository.exitProposals == old(repository.exitProposals)
    {
      if proposalId !in repository.exitProposals { return Raised; }
      var latest := FindLatest(repository.exitReviews, proposalId);
      if latest.None? { return Raised; }
      forall id | IsLatest(repository.exitReviews, proposalId, id) ensures id == latest.value {
        LatestUnique(repository.exitReviews, proposalId, id, latest.value);
      }
      if !UserMustDecide(repository.exitReviews[latest.value]) { return Raised; }
      var review := repository.exitReviews[latest.value].(userDecision := Some(choice), updatedAt := at);
      repository.exitReviews := repository.exitReviews[latest.value := review];
      var proposal := Resolved(repository.exitProposals[proposalId], choice, at);
      repository.exitProposals := repository.exitProposals[proposalId := proposal];
      return Returned(proposal);
    }
  }

  // ------------------------------------------- what a User's resolution can break

  /** Every active proposal's position is open and MANAGED. */
  predicate ActiveAreOpen(proposals: map<Id, ExitProposal>, positions: map<Id, Position>) {
    forall id | id in proposals && proposals[id].Active() :: OpenManaged(positions, proposals[id].positionId)
  }

  predicate ExitsSound(proposals: map<Id, ExitProposal>, positions: map<Id, Position>) {
    OnePath(proposals) && ActiveAreOpen(proposals, positions)
  }

  /** What a caller can look up before the call: the resolution does not approve, or the proposal
      is still active, or its position is open and has no active proposal it would compete with. */
  predicate SafeToResolve(proposals: map<Id, ExitProposal>, positions: map<Id, Position>, id: Id, choice: Verdict)
    requires id in proposals
  {
    var p := proposals[id];
    || choice != Approve
    || p.Active()
    || (&& OpenManaged(positions, p.positionId)
        && (forall other | other in proposals && ActiveOn(proposals, p.positionId, other) ::
              p.action != ExitAll && proposals[other].action != ExitAll))
  }

  lemma SafeResolutionKeepsOnePath(proposals: map<Id, ExitProposal>, positions: map<Id, Position>, id: Id,
                                   choice: Verdict, at: Time)
    requires OnePath(proposals) && id in proposals && SafeToResolve(proposals, positions, id, choice)
    ensures OnePath(proposals[id := Resolved(proposals[id], choice, at)])
  {
    var p, p' := proposals[id], Resolved(proposals[id], choice, at);
    var after := proposals[id := p'];
    if choice != Approve || p.Active() {
      ReplacedKeepsOnePath(proposals, id, p');
    } else {
      forall i, j | i in after && j in after && FullOn(after, after[i].positionId, i) && ActiveOn(after, after[i].positionId, j)
        ensures i == j
      {
        if i != id && j != id {
          assert FullOn(proposals, proposals[i].positionId, i) && ActiveOn(proposals, proposals[i].positionId, j);
        }
      }
    }
  }

  /** Resolving keeps one exit path and no exit on a closed position exactly when it is safe. */
  lemma ResolveKeepsExitsIffSafe(proposals: map<Id, ExitProposal>, positions: map<Id, Position>, id: Id,
                                 choice: Verdict, at: Time)
    requires ExitsSound(proposals, positions) && id in proposals
    ensures ExitsSound(proposals[id := Resolved(proposals[id], choice, at)], positions)
        <==> SafeToResolve(proposals, positions, id, choice)
  {
    var p := proposals[id];
    var after := proposals[id := Resolved(p, choice, at)];
    if SafeToResolve(proposals, positions, id, choice) {
      SafeResolutionKeepsOnePath(proposals, positions, id, choice, at);
    } else if OpenManaged(positions, p.positionId) {
      var other :| other in proposals && ActiveOn(proposals, p.positionId, other)
                   && (p.action == ExitAll || proposals[other].action == ExitAll);
      assert ActiveOn(after, p.positionId, other) && ActiveOn(after, p.positionId, id) && other != id;
      assert FullOn(after, p.positionId, id) || FullOn(after, p.positionId, other);
      assert !OnePath(after);
    } else {
      assert after[id].Active();
    }
  }

  /** In any store: a review left open while its proposal was superseded, rejected or satisfied lets
      the User revive it beside an active exit that excludes it: two exit paths for one position. */
  lemma ResolveCanReviveSuperseded(proposals: map<Id, ExitProposal>, positions: map<Id, Position>, id: Id, other: Id,
                                   at: Time)
    requires id in proposals && !proposals[id].Active()
    requires other in proposals && ActiveOn(proposals, proposals[id].positionId, other)
    requires proposals[id].action == ExitAll || proposals[other].action == ExitAll
    ensures !SafeToResolve(proposals, positions, id, Approve)
    ensures var after := proposals[id := Resolved(proposals[id], Approve, at)];
      && ActiveOn(after, proposals[id].positionId, id) && ActiveOn(after, proposals[id].positionId, other)
      && !OnePath(after)
  {
    var after := proposals[id := Resolved(proposals[id], Approve, at)];
    assert FullOn(after, proposals[id].positionId, id) || FullOn(after, proposals[id].positionId, other);
  }
}
