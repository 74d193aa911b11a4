/** Whole runs of intake: what every sequence of observations, repeated and out of order,
    leaves in the outcome, episode and observation tables. */
module IntakeRuns {
  import opened Domain
  import opened Intake

  datatype Step = Ingest(a: Arrival, resolver: Option<EpisodeDecision>, ids: NewIds) {
    predicate Refused() { Blank(a.srcId) || Blank(a.source) }
  }

  /** One call of the manager. */
  ghost predicate StepTo(maxGap: Time, t: Tables, s: Step, t': Tables) {
    if s.Refused() then t' == t
    else FreshIds(t, s.ids) && exists r :: Ingests(t, maxGap, s.a, s.resolver, s.ids, t', r)
  }

  const EMPTY_TABLES := Tables(map[], map[], map[])

  /** The tables before the first step and after each one. */
  ghost predicate Trace(maxGap: Time, steps: seq<Step>, ts: seq<Tables>) {
    && |ts| == |steps| + 1 && ts[0] == EMPTY_TABLES
    && forall i | 0 <= i < |steps| :: StepTo(maxGap, ts[i], steps[i], ts[i + 1])
  }

  // ------------------------------------------------------------------ invariant

  predicate Before(e: Episode, f: Episode) { e.lastObservedAt <= f.startedAt }

  /** Episodes of one outcome take turns: their time intervals are ordered and do not overlap,
      and the active one is the last. */
  predicate Ordered(episodes: map<Id, Episode>) {
    && (forall id | id in episodes :: episodes[id].startedAt <= episodes[id].lastObservedAt)
    && (forall i, j | i in episodes && j in episodes && i != j && episodes[i].outcomeId == episodes[j].outcomeId ::
          && (Before(episodes[i], episodes[j]) || Before(episodes[j], episodes[i]))
          && (episodes[j].status == EpisodeActive ==> Before(episodes[i], episodes[j])))
  }

  ghost predicate HasActive(outcomes: map<Id, OutcomeRecord>, episodes: map<Id, Episode>) {
    forall o | o in outcomes :: exists id: Id :: IsActive(episodes, o, id)
  }

  ghost predicate Inv(t: Tables) {
    TablesOk(t) && Ordered(t.episodes) && HasActive(t.outcomes, t.episodes)
  }

  // --------------------------------------------------------------- the episode step

  predicate Settles(episodes: map<Id, Episode>, maxGap: Time, a: Arrival, resolver: Option<EpisodeDecision>, ids: NewIds,
                    outcomeId: Id, current: Option<Id>, decision: EpisodeDecision)
  {
    && ids.episode !in episodes
    && (forall id | id in episodes :: episodes[id].episodeId == id)
    && (if current.Some?
        then && IsActive(episodes, outcomeId, current.value)
             && (forall id | id in episodes && IsActive(episodes, outcomeId, id) :: id == current.value)
             && decision == Decide(maxGap, a, episodes[current.value], resolver)
        else forall id | id in episodes :: !IsActive(episodes, outcomeId, id))
  }

  /** No episode is active, and the one about to be opened starts before an earlier one ended. */
  predicate LateOpening(episodes: map<Id, Episode>, outcomeId: Id, current: Option<Id>, a: Arrival) {
    && current.None?
    && (exists id | id in episodes :: episodes[id].outcomeId == outcomeId && a.observedAt < episodes[id].lastObservedAt)
  }

  lemma LateOpeningOverlaps(episodes: map<Id, Episode>, outcomeId: Id, a: Arrival, next: Episode, id: Id)
    requires id in episodes && id != next.episodeId && episodes[id].outcomeId == outcomeId
    requires a.observedAt < episodes[id].lastObservedAt
    requires next.outcomeId == outcomeId && next.status == EpisodeActive && next.startedAt == a.observedAt
    ensures !Ordered(episodes[next.episodeId := next])
  {
    var after := episodes[next.episodeId := next];
    assert !Before(after[id], after[next.episodeId]);
  }

  lemma TimelyStepKeepsOrder(episodes: map<Id, Episode>, maxGap: Time, a: Arrival, resolver: Option<EpisodeDecision>,
                             ids: NewIds, outcomeId: Id, current: Option<Id>, decision: EpisodeDecision)
    requires Settles(episodes, maxGap, a, resolver, ids, outcomeId, current, decision) && Ordered(episodes)
    requires !LateOpening(episodes, outcomeId, current, a)
    ensures Ordered(EpisodesAfter(episodes, outcomeId, current, decision, a, ids).0)
  {
  }

  /** An observation keeps the episodes in order exactly when it does not open one late. */
  lemma EpisodeStepKeepsOrderIff(episodes: map<Id, Episode>, maxGap: Time, a: Arrival, resolver: Option<EpisodeDecision>,
                                 ids: NewIds, outcomeId: Id, current: Option<Id>, decision: EpisodeDecision)
    requires Settles(episodes, maxGap, a, resolver, ids, outcomeId, current, decision) && Ordered(episodes)
    ensures Ordered(EpisodesAfter(episodes, outcomeId, current, decision, a, ids).0)
       <==> !LateOpening(episodes, outcomeId, current, a)
  {
    if LateOpening(episodes, outcomeId, current, a) {
      var id :| id in episodes && episodes[id].outcomeId == outcomeId && a.observedAt < episodes[id].lastObservedAt;
      LateOpeningOverlaps(episodes, outcomeId, a, Opened(ids.episode, outcomeId, a, ids.observation), id);
    } else {
      TimelyStepKeepsOrder(episodes, maxGap, a, resolver, ids, outcomeId, current, decision);
    }
  }

  lemma EpisodeStepKeepsActive(episodes: map<Id, Episode>, outcomes: map<Id, OutcomeRecord>,
                               outcomes': map<Id, OutcomeRecord>, maxGap: Time, a: Arrival,
                               resolver: Option<EpisodeDecision>, ids: NewIds, outcomeId: Id, current: Option<Id>,
                               decision: EpisodeDecision)
    requires Settles(episodes, maxGap, a, resolver, ids, outcomeId, current, decision)
    requires EpisodesOk(episodes, outcomes) && outcomes'.Keys == outcomes.Keys + {outcomeId}
    ensures var (after, id) := EpisodesAfter(episodes, outcomeId, current, decision, a, ids);
      && EpisodesOk(after, outcomes')
      && IsActive(after, outcomeId, id)
      && (forall o: Id, i: Id | o != outcomeId :: IsActive(after, o, i) <==> IsActive(episodes, o, i))
      && (forall i | i in episodes :: i in after && after[i].outcomeId == episodes[i].outcomeId)
  {
  }

  /** The observation leaves the active episode's time at the greater of what it was and the
      observation's own, except exactly when a resolver calls a newer observation stale. */
  lemma EpisodeStepTakesMaximum(episodes: map<Id, Episode>, maxGap: Time, a: Arrival, resolver: Option<EpisodeDecision>,
                                ids: NewIds, outcomeId: Id, current: Option<Id>, decision: EpisodeDecision)
    requires Settles(episodes, maxGap, a, resolver, ids, outcomeId, current, decision)
    ensures var (after, id) := EpisodesAfter(episodes, outcomeId, current, decision, a, ids);
      id in after &&
      (after[id].lastObservedAt ==
         (if current.Some? && episodes[current.value].lastObservedAt > a.observedAt
          then episodes[current.value].lastObservedAt else a.observedAt)
       <==> !(current.Some? && decision == StaleObservation && a.observedAt > episodes[current.value].lastObservedAt))
    ensures current.Some? && decision == StaleObservation && a.observedAt > episodes[current.value].lastObservedAt ==>
      resolver == Some(StaleObservation)
  {
  }

  // ------------------------------------------------------------------- one step

  lemma AcceptedSettles(t: Tables, maxGap: Time, a: Arrival, resolver: Option<EpisodeDecision>, ids: NewIds,
                        outcomeId: Id, current: Option<Id>)
    requires TablesOk(t) && FreshIds(t, ids) && Located(t, a, ids, outcomeId, current)
    ensures var decision := if current.Some? then Decide(maxGap, a, t.episodes[current.value], resolver) else NewEpisode;
      Settles(t.episodes, maxGap, a, resolver, ids, outcomeId, current, decision)
    ensures outcomeId in t.outcomes ==> t.outcomes[outcomeId].identity == a.intent.outcome
    ensures outcomeId !in t.outcomes ==> forall id: Id :: !IsOutcome(t.outcomes, a.intent.outcome, id)
  {
  }

  /** While every outcome has an active episode, only a new outcome has none. */
  lemma OnlyNewOpens(t: Tables, a: Arrival, ids: NewIds, outcomeId: Id, current: Option<Id>)
    requires Inv(t) && FreshIds(t, ids) && Located(t, a, ids, outcomeId, current)
    ensures current.None? <==> outcomeId !in t.outcomes
    ensures !LateOpening(t.episodes, outcomeId, current, a)
  {
    if outcomeId in t.outcomes {
      assert exists id: Id :: IsActive(t.episodes, outcomeId, id);
    }
  }

  lemma ObservationKeeps(observations: map<Id, SourceObservation>, episodes: map<Id, Episode>,
                         outcomes: map<Id, OutcomeRecord>, episodes': map<Id, Episode>,
                         outcomes': map<Id, OutcomeRecord>, o: SourceObservation)
    requires ObservationsOk(observations, episodes, outcomes)
    requires o.observationId !in observations && o.outcomeId in outcomes' && o.episodeId in episodes'
    requires episodes'[o.episodeId].outcomeId == o.outcomeId
    requires outcomes'[o.outcomeId].identity == o.arrival.intent.outcome
    requires forall id | id in observations :: observations[id].arrival != o.arrival
    requires forall i | i in episodes :: i in episodes' && episodes'[i].outcomeId == episodes[i].outcomeId
    requires forall i | i in outcomes :: i in outcomes' && outcomes'[i].identity == outcomes[i].identity
    ensures ObservationsOk(observations[o.observationId := o], episodes', outcomes')
  {
  }

  lemma AcceptedKeepsTables(t: Tables, maxGap: Time, a: Arrival, resolver: Option<EpisodeDecision>, ids: NewIds,
                            outcomeId: Id, current: Option<Id>)
    requires TablesOk(t) && FreshIds(t, ids) && Located(t, a, ids, outcomeId, current)
    requires forall id: Id :: !IsDuplicate(t.observations, a, id)
    ensures TablesOk(Accepted(t, maxGap, a, resolver, ids, outcomeId, current).0)
  {
    AcceptedSettles(t, maxGap, a, resolver, ids, outcomeId, current);
    var decision := if current.Some? then Decide(maxGap, a, t.episodes[current.value], resolver) else NewEpisode;
    var outcomes := t.outcomes[outcomeId := OutcomeBefore(t.outcomes, outcomeId, a).(updatedAt := a.observedAt)];
    var (after, episodeId) := EpisodesAfter(t.episodes, outcomeId, current, decision, a, ids);
    OutcomeWriteKeeps(t.outcomes, outcomeId, a, a.observedAt);
    EpisodeStepKeepsActive(t.episodes, t.outcomes, outcomes, maxGap, a, resolver, ids, outcomeId, current, decision);
    NewObservationKeeps(t, a, ids, outcomeId, episodeId, outcomes, after);
  }

  lemma AcceptedKeeps(t: Tables, maxGap: Time, a: Arrival, resolver: Option<EpisodeDecision>, ids: NewIds,
                      outcomeId: Id, current: Option<Id>)
    requires Inv(t) && FreshIds(t, ids) && Located(t, a, ids, outcomeId, current)
    requires forall id: Id :: !IsDuplicate(t.observations, a, id)
    ensures Inv(Accepted(t, maxGap, a, resolver, ids, outcomeId, current).0)
  {
    AcceptedKeepsTables(t, maxGap, a, resolver, ids, outcomeId, current);
    AcceptedKeepsTurns(t, maxGap, a, resolver, ids, outcomeId, current);
  }

  lemma AcceptedKeepsTurns(t: Tables, maxGap: Time, a: Arrival, resolver: Option<EpisodeDecision>, ids: NewIds,
                           outcomeId: Id, current: Option<Id>)
    requires Inv(t) && FreshIds(t, ids) && Located(t, a, ids, outcomeId, current)
    ensures var t' := Accepted(t, maxGap, a, resolver, ids, outcomeId, current).0;
      Ordered(t'.episodes) && HasActive(t'.outcomes, t'.episodes)
  {
    AcceptedSettles(t, maxGap, a, resolver, ids, outcomeId, current);
    var decision := if current.Some? then Decide(maxGap, a, t.episodes[current.value], resolver) else NewEpisode;
    var outcomes := t.outcomes[outcomeId := OutcomeBefore(t.outcomes, outcomeId, a).(updatedAt := a.observedAt)];
    var (after, episodeId) := EpisodesAfter(t.episodes, outcomeId, current, decision, a, ids);
    assert Ordered(after) by {
      OnlyNewOpens(t, a, ids, outcomeId, current);
      TimelyStepKeepsOrder(t.episodes, maxGap, a, resolver, ids, outcomeId, current, decision);
    }
    assert HasActive(outcomes, after) by {
      EpisodeStepKeepsActive(t.episodes, t.outcomes, outcomes, maxGap, a, resolver, ids, outcomeId, current, decision);
      ActiveKept(t.outcomes, t.episodes, outcomes, after, outcomeId, episodeId);
    }
  }

  lemma NewObservationKeeps(t: Tables, a: Arrival, ids: NewIds, outcomeId: Id, episodeId: Id,
                            outcomes: map<Id, OutcomeRecord>, episodes: map<Id, Episode>)
    requires TablesOk(t) && ids.observation !in t.observations
    requires forall id: Id :: !IsDuplicate(t.observations, a, id)
    requires outcomeId in outcomes && outcomes[outcomeId].identity == a.intent.outcome
    requires outcomes == t.outcomes[outcomeId := outcomes[outcomeId]]
    requires outcomeId in t.outcomes ==> t.outcomes[outcomeId].identity == a.intent.outcome
    requires IsActive(episodes, outcomeId, episodeId)
    requires forall i | i in t.episodes :: i in episodes && episodes[i].outcomeId == t.episodes[i].outcomeId
    ensures ObservationsOk(
      t.observations[ids.observation := SourceObservation(ids.observation, DedupeKey(a), outcomeId, episodeId)],
      episodes, outcomes)
  {
    forall id | id in t.observations ensures t.observations[id].arrival != DedupeKey(a) {
      assert !IsDuplicate(t.observations, a, id);
    }
    ObservationKeeps(t.observations, t.episodes, t.outcomes, episodes, outcomes,
                     SourceObservation(ids.observation, DedupeKey(a), outcomeId, episodeId));
  }

  lemma ActiveKept(outcomes: map<Id, OutcomeRecord>, episodes: map<Id, Episode>, outcomes': map<Id, OutcomeRecord>,
                   episodes': map<Id, Episode>, outcomeId: Id, episodeId: Id)
    requires HasActive(outcomes, episodes) && outcomes'.Keys == outcomes.Keys + {outcomeId}
    requires IsActive(episodes', outcomeId, episodeId)
    requires forall o: Id, i: Id | o != outcomeId :: IsActive(episodes', o, i) <==> IsActive(episodes, o, i)
    ensures HasActive(outcomes', episodes')
  {
    forall o | o in outcomes' ensures exists id: Id :: IsActive(episodes', o, id) {
      if o == outcomeId {
        assert IsActive(episodes', o, episodeId);
      } else {
        var id: Id :| IsActive(episodes, o, id);
        assert IsActive(episodes', o, id);
      }
    }
  }

  lemma OutcomeWriteKeeps(outcomes: map<Id, OutcomeRecord>, outcomeId: Id, a: Arrival, at: Time)
    requires OutcomesOk(outcomes)
    requires outcomeId in outcomes ==> outcomes[outcomeId].identity == a.intent.outcome
    requires outcomeId !in outcomes ==> forall id: Id :: !IsOutcome(outcomes, a.intent.outcome, id)
    ensures OutcomesOk(outcomes[outcomeId := OutcomeBefore(outcomes, outcomeId, a).(updatedAt := at)])
  {
    forall id | id in outcomes && outcomes[id].identity == a.intent.outcome ensures id == outcomeId {
      assert IsOutcome(outcomes, a.intent.outcome, id);
    }
  }

  /** A step is refused, a repeat, or an acceptance; only the last changes anything. */
  lemma StepCases(maxGap: Time, t: Tables, s: Step, t': Tables) returns (outcomeId: Id, current: Option<Id>)
    requires StepTo(maxGap, t, s, t') && t' != t
    ensures !s.Refused() && FreshIds(t, s.ids) && Located(t, s.a, s.ids, outcomeId, current)
    ensures forall id: Id :: !IsDuplicate(t.observations, s.a, id)
    ensures t' == Accepted(t, maxGap, s.a, s.resolver, s.ids, outcomeId, current).0
  {
    var r :| Ingests(t, maxGap, s.a, s.resolver, s.ids, t', r);
    outcomeId, current :| Located(t, s.a, s.ids, outcomeId, current)
      && (t', r) == Accepted(t, maxGap, s.a, s.resolver, s.ids, outcomeId, current);
  }

  lemma StepKeeps(maxGap: Time, t: Tables, s: Step, t': Tables)
    requires Inv(t) && StepTo(maxGap, t, s, t')
    ensures Inv(t')
  {
    if t' != t {
      var outcomeId, current := StepCases(maxGap, t, s, t');
      AcceptedKeeps(t, maxGap, s.a, s.resolver, s.ids, outcomeId, current);
    }
  }

  lemma {:induction false} TraceKeeps(maxGap: Time, steps: seq<Step>, ts: seq<Tables>, n: nat)
    requires Trace(maxGap, steps, ts) && n <= |steps|
    ensures Inv(ts[n])
  {
    if n > 0 {
      TraceKeeps(maxGap, steps, ts, n - 1);
      StepKeeps(maxGap, ts[n - 1], steps[n - 1], ts[n]);
    }
  }

  // --------------------------------------------------------------- exact replays

  /** The observation is stored. */
  ghost predicate Known(t: Tables, a: Arrival) { exists id: Id :: IsDuplicate(t.observations, a, id) }

  lemma StepRemembers(maxGap: Time, t: Tables, s: Step, t': Tables, a: Arrival)
    requires StepTo(maxGap, t, s, t') && (Known(t, a) || (a == s.a && !s.Refused()))
    ensures Known(t', a)
  {
    if t' != t {
      var outcomeId, current := StepCases(maxGap, t, s, t');
      if Known(t, a) {
        var id: Id :| IsDuplicate(t.observations, a, id);
        assert IsDuplicate(t'.observations, a, id);
      } else {
        assert IsDuplicate(t'.observations, a, s.ids.observation);
      }
    }
  }

  lemma {:induction false} TraceRemembers(maxGap: Time, steps: seq<Step>, ts: seq<Tables>, i: nat, n: nat)
    requires Trace(maxGap, steps, ts) && i < n <= |steps| && !steps[i].Refused()
    ensures Known(ts[n], steps[i].a)
  {
    if i < n - 1 { TraceRemembers(maxGap, steps, ts, i, n - 1); }
    StepRemembers(maxGap, ts[n - 1], steps[n - 1], ts[n], steps[i].a);
  }

  /** An exact replay, however late and whatever the resolver would say now, changes nothing. */
  lemma ReplayChangesNothing(maxGap: Time, steps: seq<Step>, ts: seq<Tables>, i: nat, replay: Step, t': Tables)
    requires Trace(maxGap, steps, ts) && i < |steps|
    requires replay.a == steps[i].a && StepTo(maxGap, ts[|steps|], replay, t')
    ensures t' == ts[|steps|]
  {
    if !replay.Refused() {
      TraceRemembers(maxGap, steps, ts, i, |steps|);
    }
  }

  // -------------------------------------------------------- the greatest time seen

  /** The greatest time at which this opportunity was observed in the first n calls. */
  function Greatest(steps: seq<Step>, n: nat, identity: OutcomeIdentity): Option<Time>
    requires n <= |steps|
  {
    if n == 0 then None
    else
      var earlier, s := Greatest(steps, n - 1, identity), steps[n - 1];
      if s.Refused() || s.a.intent.outcome != identity then earlier
      else if earlier.Some? && earlier.value > s.a.observedAt then earlier
      else Some(s.a.observedAt)
  }

  predicate NotAfter(t: Time, greatest: Option<Time>) { greatest.Some? && t <= greatest.value }

  ghost predicate ActiveTimes(t: Tables, steps: seq<Step>, n: nat)
    requires n <= |steps|
  {
    forall o: Id, e: Id | o in t.outcomes && IsActive(t.episodes, o, e) ::
      Greatest(steps, n, t.outcomes[o].identity) == Some(t.episodes[e].lastObservedAt)
  }

  ghost predicate ObservedTimes(observations: map<Id, SourceObservation>, steps: seq<Step>, n: nat)
    requires n <= |steps|
  {
    forall id | id in observations ::
      NotAfter(observations[id].arrival.observedAt, Greatest(steps, n, observations[id].arrival.intent.outcome))
  }

  ghost predicate SeenOutcomes(outcomes: map<Id, OutcomeRecord>, steps: seq<Step>, n: nat)
    requires n <= |steps|
  {
    forall identity | Greatest(steps, n, identity).Some? :: exists o: Id :: IsOutcome(outcomes, identity, o)
  }

  ghost predicate TimesMatch(t: Tables, steps: seq<Step>, n: nat)
    requires n <= |steps|
  {
    ActiveTimes(t, steps, n) && ObservedTimes(t.observations, steps, n) && SeenOutcomes(t.outcomes, steps, n)
  }

  /** A refused or repeated call moves no greatest time. */
  lemma QuietStepTimes(t: Tables, steps: seq<Step>, n: nat, m: nat)
    requires m == n + 1 <= |steps| && TimesMatch(t, steps, n)
    requires steps[n].Refused() || Known(t, steps[n].a)
    ensures TimesMatch(t, steps, m)
  {
    var a := steps[n].a;
    if !steps[n].Refused() {
      var id: Id :| IsDuplicate(t.observations, a, id);
      assert NotAfter(a.observedAt, Greatest(steps, n, a.intent.outcome));
    }
    forall identity ensures Greatest(steps, m, identity) == Greatest(steps, n, identity) {
    }
  }

  /** The greatest time of the arrival's own opportunity moves exactly as the active episode's. */
  lemma GreatestOfArrival(t: Tables, steps: seq<Step>, n: nat, m: nat, outcomeId: Id, current: Option<Id>)
    requires m == n + 1 <= |steps| && TimesMatch(t, steps, n) && !steps[n].Refused()
    requires Located(t, steps[n].a, steps[n].ids, outcomeId, current)
    requires current.None? <==> outcomeId !in t.outcomes
    requires outcomeId in t.outcomes ==> t.outcomes[outcomeId].identity == steps[n].a.intent.outcome
    ensures Greatest(steps, m, steps[n].a.intent.outcome) ==
      Some(if current.Some? && t.episodes[current.value].lastObservedAt > steps[n].a.observedAt
           then t.episodes[current.value].lastObservedAt else steps[n].a.observedAt)
  {
    assert current.None? ==> forall o: Id :: !IsOutcome(t.outcomes, steps[n].a.intent.outcome, o);
  }

  lemma OtherActiveKept(episodes: map<Id, Episode>, outcomeId: Id, current: Option<Id>, decision: EpisodeDecision,
                        a: Arrival, ids: NewIds, o: Id, e: Id)
    requires current.Some? ==> IsActive(episodes, outcomeId, current.value)
                               && episodes[current.value].episodeId == current.value
    requires o != outcomeId
    requires IsActive(EpisodesAfter(episodes, outcomeId, current, decision, a, ids).0, o, e)
    ensures IsActive(episodes, o, e)
    ensures EpisodesAfter(episodes, outcomeId, current, decision, a, ids).0[e] == episodes[e]
  {
  }

  lemma OtherIdentity(outcomes: map<Id, OutcomeRecord>, i: Id, j: Id)
    requires OutcomesOk(outcomes) && i in outcomes && j in outcomes && i != j
    ensures outcomes[i].identity != outcomes[j].identity
  {
  }

  lemma ArrivalTimes(t: Tables, steps: seq<Step>, n: nat, m: nat, outcomeId: Id, o: OutcomeRecord, record: SourceObservation)
    requires m == n + 1 <= |steps| && TimesMatch(t, steps, n) && !steps[n].Refused()
    requires o.identity == steps[n].a.intent.outcome
    requires outcomeId in t.outcomes ==> t.outcomes[outcomeId].identity == o.identity
    requires record.arrival == DedupeKey(steps[n].a)
    ensures ObservedTimes(t.observations[record.observationId := record], steps, m)
    ensures SeenOutcomes(t.outcomes[outcomeId := o], steps, m)
  {
    var after := t.outcomes[outcomeId := o];
    forall identity | Greatest(steps, m, identity).Some?
      ensures exists o': Id :: IsOutcome(after, identity, o')
    {
      if identity == o.identity {
        assert IsOutcome(after, identity, outcomeId);
      } else {
        assert Greatest(steps, n, identity).Some?;
        var o': Id :| IsOutcome(t.outcomes, identity, o');
        assert IsOutcome(after, identity, o');
      }
    }
  }

  /** The active episodes after an acceptance: the arrival's own takes the maximum, others stay. */
  lemma AcceptedActiveTime(maxGap: Time, t: Tables, steps: seq<Step>, n: nat, m: nat, outcomeId: Id, current: Option<Id>,
                           decision: EpisodeDecision, after: map<Id, Episode>, episodeId: Id, o: Id, e: Id)
    requires m == n + 1 <= |steps| && TimesMatch(t, steps, n)
    requires !steps[n].Refused() && steps[n].resolver != Some(StaleObservation)
    requires Located(t, steps[n].a, steps[n].ids, outcomeId, current)
    requires Settles(t.episodes, maxGap, steps[n].a, steps[n].resolver, steps[n].ids, outcomeId, current, decision)
    requires current.None? <==> outcomeId !in t.outcomes
    requires outcomeId in t.outcomes ==> t.outcomes[outcomeId].identity == steps[n].a.intent.outcome
    requires (after, episodeId) == EpisodesAfter(t.episodes, outcomeId, current, decision, steps[n].a, steps[n].ids)
    requires IsActive(after, o, e)
    requires if o == outcomeId then e == episodeId
             else o in t.outcomes && t.outcomes[o].identity != steps[n].a.intent.outcome
    ensures Greatest(steps, m, if o == outcomeId then steps[n].a.intent.outcome else t.outcomes[o].identity)
         == Some(after[e].lastObservedAt)
  {
    var s := steps[n];
    if o == outcomeId {
      EpisodeStepTakesMaximum(t.episodes, maxGap, s.a, s.resolver, s.ids, outcomeId, current, decision);
      GreatestOfArrival(t, steps, n, m, outcomeId, current);
    } else {
      OtherActiveKept(t.episodes, outcomeId, current, decision, s.a, s.ids, o, e);
    }
  }

  lemma AcceptedActiveTimes(maxGap: Time, t: Tables, steps: seq<Step>, n: nat, m: nat, outcomeId: Id, current: Option<Id>,
                            decision: EpisodeDecision, outcomes: map<Id, OutcomeRecord>, after: map<Id, Episode>,
                            episodeId: Id)
    requires m == n + 1 <= |steps| && TimesMatch(t, steps, n)
    requires !steps[n].Refused() && steps[n].resolver != Some(StaleObservation)
    requires Located(t, steps[n].a, steps[n].ids, outcomeId, current)
    requires Settles(t.episodes, maxGap, steps[n].a, steps[n].resolver, steps[n].ids, outcomeId, current, decision)
    requires current.None? <==> outcomeId !in t.outcomes
    requires outcomeId in t.outcomes ==> t.outcomes[outcomeId].identity == steps[n].a.intent.outcome
    requires (after, episodeId) == EpisodesAfter(t.episodes, outcomeId, current, decision, steps[n].a, steps[n].ids)
    requires OutcomesOk(outcomes) && EpisodesOk(after, outcomes) && IsActive(after, outcomeId, episodeId)
    requires outcomeId in outcomes && outcomes == t.outcomes[outcomeId := outcomes[outcomeId]]
    requires outcomes[outcomeId].identity == steps[n].a.intent.outcome
    ensures forall o: Id, e: Id | o in outcomes && IsActive(after, o, e) ::
      Greatest(steps, m, outcomes[o].identity) == Some(after[e].lastObservedAt)
  {
    forall o: Id, e: Id | o in outcomes && IsActive(after, o, e)
      ensures Greatest(steps, m, outcomes[o].identity) == Some(after[e].lastObservedAt)
    {
      if o != outcomeId { OtherIdentity(outcomes, outcomeId, o); }
      AcceptedActiveTime(maxGap, t, steps, n, m, outcomeId, current, decision, after, episodeId, o, e);
    }
  }

  lemma AcceptedTimes(maxGap: Time, t: Tables, steps: seq<Step>, n: nat, m: nat, outcomeId: Id, current: Option<Id>)
    requires m == n + 1 <= |steps| && Inv(t) && TimesMatch(t, steps, n)
    requires !steps[n].Refused() && steps[n].resolver != Some(StaleObservation)
    requires FreshIds(t, steps[n].ids) && Located(t, steps[n].a, steps[n].ids, outcomeId, current)
    ensures TimesMatch(Accepted(t, maxGap, steps[n].a, steps[n].resolver, steps[n].ids, outcomeId, current).0, steps, m)
  {
    var a, resolver, ids := steps[n].a, steps[n].resolver, steps[n].ids;
    AcceptedSettles(t, maxGap, a, resolver, ids, outcomeId, current);
    OnlyNewOpens(t, a, ids, outcomeId, current);
    var decision := if current.Some? then Decide(maxGap, a, t.episodes[current.value], resolver) else NewEpisode;
    var outcome := OutcomeBefore(t.outcomes, outcomeId, a).(updatedAt := a.observedAt);
    var outcomes := t.outcomes[outcomeId := outcome];
    var (after, episodeId) := EpisodesAfter(t.episodes, outcomeId, current, decision, a, ids);
    var observation := SourceObservation(ids.observation, DedupeKey(a), outcomeId, episodeId);
    ArrivalTimes(t, steps, n, m, outcomeId, outcome, observation);
    assert ActiveTimes(Tables(outcomes, after, t.observations[ids.observation := observation]), steps, m) by {
      OutcomeWriteKeeps(t.outcomes, outcomeId, a, a.observedAt);
      EpisodeStepKeepsActive(t.episodes, t.outcomes, outcomes, maxGap, a, resolver, ids, outcomeId, current, decision);
      AcceptedActiveTimes(maxGap, t, steps, n, m, outcomeId, current, decision, outcomes, after, episodeId);
    }
  }

  lemma StepTimes(maxGap: Time, t: Tables, steps: seq<Step>, n: nat, t': Tables)
    requires n < |steps| && Inv(t) && TimesMatch(t, steps, n)
    requires StepTo(maxGap, t, steps[n], t') && steps[n].resolver != Some(StaleObservation)
    ensures TimesMatch(t', steps, n + 1)
  {
    if t' == t {
      if !steps[n].Refused() { StepRemembers(maxGap, t, steps[n], t, steps[n].a); }
      QuietStepTimes(t, steps, n, n + 1);
    } else {
      var outcomeId, current := StepCases(maxGap, t, steps[n], t');
      AcceptedTimes(maxGap, t, steps, n, n + 1, outcomeId, current);
    }
  }

  lemma {:induction false} TraceTimes(maxGap: Time, steps: seq<Step>, ts: seq<Tables>, n: nat)
    requires Trace(maxGap, steps, ts) && n <= |steps|
    requires forall i | 0 <= i < |steps| :: steps[i].resolver != Some(StaleObservation)
    ensures TimesMatch(ts[n], steps, n)
  {
    if n > 0 {
      TraceTimes(maxGap, steps, ts, n - 1);
      TraceKeeps(maxGap, steps, ts, n - 1);
      StepTimes(maxGap, ts[n - 1], steps, n - 1, ts[n]);
    }
  }

  // ------------------------------------------------------------------- theorems

  /** After any sequence of observations, whatever a resolver answers: every outcome has exactly one
      active episode, its episodes' time intervals are ordered and do not overlap with the active one
      last, and every stored observation belongs to a stored episode of a stored outcome of its own
      identity.  If no resolver ever answers STALE, the active episode's time is the greatest at
      which the opportunity was ever observed. */
  lemma EpisodesTakeTurns(maxGap: Time, steps: seq<Step>, ts: seq<Tables>)
    requires Trace(maxGap, steps, ts)
    ensures var t := ts[|steps|];
      && (forall o | o in t.outcomes :: exists e: Id :: IsActive(t.episodes, o, e))
      && (forall o: Id, e: Id, f: Id | IsActive(t.episodes, o, e) && IsActive(t.episodes, o, f) :: e == f)
      && Ordered(t.episodes)
      && ObservationsOk(t.observations, t.episodes, t.outcomes)
      && ((forall i | 0 <= i < |steps| :: steps[i].resolver != Some(StaleObservation)) ==>
            forall o: Id, e: Id | o in t.outcomes && IsActive(t.episodes, o, e) ::
              Greatest(steps, |steps|, t.outcomes[o].identity) == Some(t.episodes[e].lastObservedAt))
  {
    TraceKeeps(maxGap, steps, ts, |steps|);
    if forall i | 0 <= i < |steps| :: steps[i].resolver != Some(StaleObservation) {
      TraceTimes(maxGap, steps, ts, |steps|);
    }
  }
}
