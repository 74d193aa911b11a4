/** Review records shared by the entry and exit coordinators: the latest one of a subject. */
module Reviews {
  import opened Domain

  /** The review record once the service answered: only a matching id completes it. */
  function Concluded(r: Review, answer: AgentAnswer, now: Time): Review {
    if answer.Answer? && answer.reviewId == r.reviewId
    then r.(status := ReviewCompleted, verdict := Some(answer.verdict), updatedAt := answer.respondedAt)
    else r.(status := ReviewFailed, updatedAt := now)
  }

  /** Greatest update time, then greatest id, among the reviews of one subject. */
  predicate IsLatest(reviews: map<Id, Review>, subject: Id, id: Id) {
    && id in reviews && reviews[id].subjectId == subject
    && (forall other | other in reviews && reviews[other].subjectId == subject ::
          AtMost(reviews[other].updatedAt, other, reviews[id].updatedAt, id))
  }

  predicate AtMost(t: Time, i: Id, t': Time, i': Id) { t < t' || (t == t' && i <= i') }

  /** `ORDER BY updated_at DESC, review_id DESC LIMIT 1` */
  method FindLatest(reviews: map<Id, Review>, subject: Id) returns (latest: Option<Id>)
    ensures match latest
      case Some(id) => IsLatest(reviews, subject, id)
      case None => forall id | id in reviews :: reviews[id].subjectId != subject
  {
    latest := None;
    var rest := reviews.Keys;
    while rest != {}
      invariant rest <= reviews.Keys
      invariant latest.Some? ==> latest.value in reviews && latest.value !in rest
                                 && reviews[latest.value].subjectId == subject
      invariant forall id | id in reviews && id !in rest && reviews[id].subjectId == subject ::
                  latest.Some? && AtMost(reviews[id].updatedAt, id, reviews[latest.value].updatedAt, latest.value)
      decreases |rest|
    {
      var id :| id in rest;
      rest := rest - {id};
      if reviews[id].subjectId == subject {
        if latest.None? || AtMost(reviews[latest.value].updatedAt, latest.value, reviews[id].updatedAt, id) {
          latest := Some(id);
        }
      }
    }
  }

  lemma LatestUnique(reviews: map<Id, Review>, subject: Id, i: Id, j: Id)
    requires IsLatest(reviews, subject, i) && IsLatest(reviews, subject, j)
    ensures i == j
  {
    assert AtMost(reviews[i].updatedAt, i, reviews[j].updatedAt, j);
    assert AtMost(reviews[j].updatedAt, j, reviews[i].updatedAt, i);
  }
}
