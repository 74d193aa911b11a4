/** Entry monitoring and Agent review of monitored intents. */
module Entry {
  import opened Domain
  import opened Store
  import opened Reviews

  // ------------------------------------------------------------- one evaluation

  /** States a market tick never touches: closed, or owned by a later gate. */
  predicate OutsideMonitoring(s: EntryState) {
    s in {EntryRejected, EntryInvalidated, EntryExpired, EntryCancelled,
          AgentReviewPending, UserDecisionPending, ReadyForRisk, RiskApproved, RiskBlocked}
  }

  function Moved(i: EntryIntent, state: EntryState, s: EntrySnapshot): EntryIntent {
    i.(state := state, updatedAt := s.observedAt, lastSpot := Some(s.spot), lastPremium := s.premium)
  }

  predicate PastHorizon(i: EntryIntent, s: EntrySnapshot) {
    s.observedAt > i.horizonAt || (i.expiryDate.Some? && s.observedOn > i.expiryDate.value)
  }

  predicate Invalidated(i: EntryIntent, s: EntrySnapshot) {
    i.invalidation.Some? && i.invalidation.value.Matches(s.spot)
  }

  predicate InZone(i: EntryIntent, premium: Option<real>) {
    (i.premiumMin.Some? || i.premiumMax.Some?) ==>
      && premium.Some?
      && (i.premiumMin.Some? ==> premium.value >= i.premiumMin.value)
      && (i.premiumMax.Some? ==> premium.value <= i.premiumMax.value)
  }

  /** The records one evaluation saves, in order. */
  function EntryPath(i: EntryIntent, s: EntrySnapshot): seq<EntryIntent> {
    if OutsideMonitoring(i.state) then []
    else if PastHorizon(i, s) then [Moved(i, EntryExpired, s)]
    else if Invalidated(i, s) then [Moved(i, EntryInvalidated, s)]
    else if i.state == WaitingRetreat then []
    else if !i.trigger.Matches(s.spot) then [Moved(i, Monitoring, s)]
    else
      var detected := if i.state == Monitoring then [Moved(i, Triggered, s)] else [];
      var state := if i.state == Monitoring then Triggered else i.state;
      var goal :=
        if i.confirmation.Some? && s.candleClose.None? then Confirming
        else if i.confirmation.Some? && !i.confirmation.value.Matches(s.candleClose.value) then WaitingRetreat
        else if !InZone(i, s.premium) then WaitingRetreat
        else ReadyForReview;
      if goal == state then detected else detected + [Moved(i, goal, s)]
  }

  function EvaluatedIntent(i: EntryIntent, s: EntrySnapshot): EntryIntent {
    var path := EntryPath(i, s);
    if path == [] then i else path[|path| - 1]
  }

  predicate InMonitoring(s: EntryState) { s in {Monitoring, Triggered, Confirming, ReadyForReview} }

  /** An intent comes out of an evaluation ready for review exactly when it was being monitored,
      is inside its horizon and not invalidated, and trigger, confirmation and premium zone all hold. */
  lemma ReadyIffEverythingHolds(i: EntryIntent, s: EntrySnapshot)
    ensures EvaluatedIntent(i, s).state == ReadyForReview <==>
      && InMonitoring(i.state) && !PastHorizon(i, s) && !Invalidated(i, s)
      && i.trigger.Matches(s.spot)
      && (i.confirmation.Some? ==> s.candleClose.Some? && i.confirmation.value.Matches(s.candleClose.value))
      && InZone(i, s.premium)
  {
  }

  /** Every record an evaluation saves, not only the last, is the same intent in a monitoring
      state, retreat, or a closed state; never a state that belongs to a later gate. */
  lemma EvaluationStaysInMonitoring(i: EntryIntent, s: EntrySnapshot, n: nat)
    requires n < |EntryPath(i, s)|
    ensures var i' := EntryPath(i, s)[n];
      && i' == Moved(i, i'.state, s)
      && (InMonitoring(i'.state) || i'.state in {WaitingRetreat, EntryExpired, EntryInvalidated})
      && !OutsideMonitoring(i.state)
  {
  }

  // ---------------------------------------------------------------- the monitor

  predicate ActiveFor(intents: map<Id, EntryIntent>, episodeId: Id, id: Id) {
    id in intents && intents[id].episodeId == episodeId && intents[id].Active()
  }

  class EntryMonitor {
    const repository: Repository

    constructor (repository: Repository)
      ensures this.repository == repository
    {
      this.repository := repository;
    }

    /** Admits an intent unless its id is taken (an error) or its episode already has an active one. */
    method CreateIntent(intent: EntryIntent) returns (r: Outcome<EntryIntent>)
      modifies repository`entryIntents
      ensures r.Raised? <==> intent.intentId in old(repository.entryIntents)
      ensures r.Raised? ==> repository.entryIntents == old(repository.entryIntents)
      ensures r.Returned? ==>
        if exists id :: ActiveFor(old(repository.entryIntents), intent.episodeId, id)
        then repository.entryIntents == old(repository.entryIntents)
             && exists id :: ActiveFor(old(repository.entryIntents), intent.episodeId, id)
                             && r.value == old(repository.entryIntents)[id]
        else repository.entryIntents == old(repository.entryIntents)[intent.intentId := intent] && r.value == intent
    {
      if intent.intentId in repository.entryIntents { return Raised; }
      var active := set id | id in repository.entryIntents && ActiveFor(repository.entryIntents, intent.episodeId, id);
      if active != {} {
        var id :| id in active;
        return Returned(repository.entryIntents[id]);
      }
      assert forall id: Id :: ActiveFor(repository.entryIntents, intent.episodeId, id) ==> id in active;
      repository.entryIntents := repository.entryIntents[intent.intentId := intent];
      return Returned(intent);
    }

    /** One market tick: time limits, invalidation, trigger, confirmation, premium zone. */
    method Evaluate(id: Id, s: EntrySnapshot) returns (r: Outcome<EntryIntent>)
      modifies repository`entryIntents
      ensures r.Returned? <==> id in old(repository.entryIntents)
      ensures r.Returned? ==> r.value == EvaluatedIntent(old(repository.entryIntents)[id], s)
      ensures repository.entryIntents ==
        if r.Returned? then old(repository.entryIntents)[id := r.value] else old(repository.entryIntents)
    {
      if id !in repository.entryIntents { return Raised; }
      var current := repository.entryIntents[id];
      if OutsideMonitoring(current.state) { return Returned(current); }
      if s.observedAt > current.horizonAt {
        r := Transition(id, EntryExpired, s);
        return;
      }
      if current.expiryDate.Some? && s.observedOn > current.expiryDate.value {
        r := Transition(id, EntryExpired, s);
        return;
      }
      if current.invalidation.Some? && current.invalidation.value.Matches(s.spot) {
        r := Transition(id, EntryInvalidated, s);
        return;
      }
      if current.state == WaitingRetreat { return Returned(current); }
      if !current.trigger.Matches(s.spot) {
        r := Transition(id, Monitoring, s);
        return;
      }
      var working := current;
      if working.state == Monitoring {
        var detected := Transition(id, Triggered, s);
        working := detected.value;
      }
      var goal := ReadyForReview;
      if working.confirmation.Some? && s.candleClose.None? {
        goal := Confirming;
      } else if working.confirmation.Some? && !working.confirmation.value.Matches(s.candleClose.value) {
        goal := WaitingRetreat;
      } else if working.premiumMin.Some? || working.premiumMax.Some? {
        if s.premium.None? {
          goal := WaitingRetreat;
        } else if working.premiumMin.Some? && s.premium.value < working.premiumMin.value {
          goal := WaitingRetreat;
        } else if working.premiumMax.Some? && s.premium.value > working.premiumMax.value {
          goal := WaitingRetreat;
        }
      }
      if working.state == goal { return Returned(working); }
      r := Transition(id, goal, s);
    }

    method Transition(id: Id, state: EntryState, s: EntrySnapshot) returns (r: Outcome<EntryIntent>)
      requires id in repository.entryIntents
      modifies repository`entryIntents
      ensures r == Returned(Moved(old(repository.entryIntents)[id], state, s))
      ensures repository.entryIntents == old(repository.entryIntents)[id := r.value]
    {
      var updated := Moved(repository.entryIntents[id], state, s);
      repository.entryIntents := repository.entryIntents[id := updated];
      return Returned(updated);
    }

    /** Only a retreating intent goes back to monitoring. */
    method Rearm(id: Id, at: Time) returns (r: Outcome<EntryIntent>)
      modifies repository`entryIntents
      ensures r.Returned? <==>
        id in old(repository.entryIntents) && old(repository.entryIntents)[id].state == WaitingRetreat
      ensures repository.entryIntents ==
        if r.Returned?
        then old(repository.entryIntents)[id := old(repository.entryIntents)[id].(state := Monitoring, updatedAt := at)]
        else old(repository.entryIntents)
    {
      if id !in repository.entryIntents { return Raised; }
      if repository.entryIntents[id].state != WaitingRetreat { return Raised; }
      var updated := repository.entryIntents[id].(state := Monitoring, updatedAt := at);
      repository.entryIntents := repository.entryIntents[id := updated];
      return Returned(updated);
    }
  }

  // ----------------------------------------------------------------- Agent review

  function StateAfterAnswer(answer: AgentAnswer, reviewId: Id): EntryState {
    if answer.Answer? && answer.reviewId == reviewId && answer.verdict == Approve then ReadyForRisk
    else UserDecisionPending
  }

  function StateAfterUser(choice: Verdict): EntryState {
    match choice case Approve => ReadyForRisk case Reject => EntryRejected case RetreatWait => WaitingRetreat
  }

  class EntryReviewCoordinator {
    const repository: Repository

    constructor (repository: Repository)
      ensures this.repository == repository
    {
      this.repository := repository;
    }

    /** Only a matching APPROVE moves the intent on to Risk; silence, a wrong review id and any
        other verdict all end in a decision the User must take. */
    method RequestReview(id: Id, answer: AgentAnswer, reviewId: Id, at: Time, now: Time) returns (r: Outcome<EntryIntent>)
      requires reviewId !in repository.entryReviews
      modifies repository`entryReviews, repository`entryIntents
      ensures r.Returned? <==>
        id in old(repository.entryIntents) && old(repository.entryIntents)[id].state == ReadyForReview
      ensures r.Returned? ==>
        var review := Concluded(Review(reviewId, id, ReviewPending, None, None, at, at), answer, now);
        && repository.entryReviews == old(repository.entryReviews)[reviewId := review]
        && r.value == old(repository.entryIntents)[id]
             .(state := StateAfterAnswer(answer, reviewId), updatedAt := review.updatedAt)
        && (r.value.state == ReadyForRisk <==> review.verdict == Some(Approve))
        && repository.entryIntents == old(repository.entryIntents)[id := r.value]
      ensures r.Raised? ==>
        repository.entryIntents == old(repository.entryIntents) && repository.entryReviews == old(repository.entryReviews)
    {
      if id !in repository.entryIntents { return Raised; }
      var intent := repository.entryIntents[id];
      if intent.state != ReadyForReview { return Raised; }
      var review := Review(reviewId, id, ReviewPending, None, None, at, at);
      repository.entryReviews := repository.entryReviews[reviewId := review];
      intent := intent.(state := AgentReviewPending, updatedAt := at);
      repository.entryIntents := repository.entryIntents[id := intent];

      if answer.NoAnswer? || answer.reviewId != reviewId {
        repository.entryReviews := repository.entryReviews[reviewId := review.(status := ReviewFailed, updatedAt := now)];
        intent := intent.(state := UserDecisionPending, updatedAt := now);
      } else {
        var completed := review.(status := ReviewCompleted, verdict := Some(answer.verdict), updatedAt := answer.respondedAt);
        repository.entryReviews := repository.entryReviews[reviewId := completed];
        var state := if answer.verdict == Approve then ReadyForRisk else UserDecisionPending;
        intent := intent.(state := state, updatedAt := answer.respondedAt);
      }
      repository.entryIntents := repository.entryIntents[id := intent];
      return Returned(intent);
    }

    method ResolveUserDecision(id: Id, choice: Verdict, at: Time) returns (r: Outcome<EntryIntent>)
      modifies repository`entryReviews, repository`entryIntents
      ensures r.Returned? <==>
        && id in old(repository.entryIntents) && old(repository.entryIntents)[id].state == UserDecisionPending
        && exists review :: IsLatest(old(repository.entryReviews), id, review)
      ensures r.Returned? ==>
        && r.value == old(repository.entryIntents)[id].(state := StateAfterUser(choice), updatedAt := at)
        && repository.entryIntents == old(repository.entryIntents)[id := r.value]
        && (forall review | IsLatest(old(repository.entryReviews), id, review) ::
              repository.entryReviews == old(repository.entryReviews)
                [review := old(repository.entryReviews)[review].(userDecision := Some(choice), updatedAt := at)])
      ensures r.Raised? ==>
        repository.entryIntents == old(repository.entryIntents) && repository.entryReviews == old(repository.entryReviews)
    {
      if id !in repository.entryIntents { return Raised; }
      var intent := repository.entryIntents[id];
      if intent.state != UserDecisionPending { return Raised; }
      var latest := FindLatest(repository.entryReviews, id);
      if latest.None? { return Raised; }
      forall review | IsLatest(repository.entryReviews, id, review) ensures review == latest.value {
        LatestUnique(repository.entryReviews, id, review, latest.value);
      }
      var review := repository.entryReviews[latest.value].(userDecision := Some(choice), updatedAt := at);
      repository.entryReviews := repository.entryReviews[latest.value := review];
      var updated := intent.(state := StateAfterUser(choice), updatedAt := at);
      repository.entryIntents := repository.entryIntents[id := updated];
      return Returned(updated);
    }
  }
}
