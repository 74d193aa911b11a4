/** Intake cut short: what a crash between two saves of one ingest leaves in the tables, and when
    the episodes still take turns afterwards. */
module IntakeCuts {
  import opened Domain
  import opened Intake
  import opened IntakeRuns

  /** The last save, in order, that an ingest made before the process died. */
  datatype Stage = OutcomeCreated | EpisodeClosed | EpisodeSettled | ObservationStored

  predicate Settled(stage: Stage) { stage.EpisodeSettled? || stage.ObservationStored? }

  function DecisionOn(t: Tables, maxGap: Time, a: Arrival, resolver: Option<EpisodeDecision>, current: Option<Id>)
    : EpisodeDecision
    requires current.Some? ==> current.value in t.episodes
  {
    if current.Some? then Decide(maxGap, a, t.episodes[current.value], resolver) else NewEpisode
  }

  /** The active episode was superseded and its successor not yet stored. */
  function OneSuperseded(episodes: map<Id, Episode>, current: Option<Id>, decision: EpisodeDecision): map<Id, Episode>
    requires current.Some? ==> current.value in episodes
  {
    if current.Some? && decision == EpisodeDecision.NewEpisode
    then episodes[current.value := episodes[current.value].(status := EpisodeSuperseded)] else episodes
  }

  function EpisodesAtStage(episodes: map<Id, Episode>, outcomeId: Id, current: Option<Id>, decision: EpisodeDecision,
                           a: Arrival, ids: NewIds, stage: Stage): map<Id, Episode>
    requires current.Some? ==> current.value in episodes
  {
    match stage
    case OutcomeCreated => episodes
    case EpisodeClosed => OneSuperseded(episodes, current, decision)
    case _ => EpisodesAfter(episodes, outcomeId, current, decision, a, ids).0
  }

  function AfterStage(t: Tables, maxGap: Time, a: Arrival, resolver: Option<EpisodeDecision>, ids: NewIds,
                      outcomeId: Id, current: Option<Id>, stage: Stage): Tables
    requires current.Some? ==> current.value in t.episodes && t.episodes[current.value].episodeId == current.value
  {
    Tables(t.outcomes[outcomeId := OutcomeBefore(t.outcomes, outcomeId, a)],
           EpisodesAtStage(t.episodes, outcomeId, current, DecisionOn(t, maxGap, a, resolver, current), a, ids, stage),
           if stage.ObservationStored? then Accepted(t, maxGap, a, resolver, ids, outcomeId, current).0.observations
           else t.observations)
  }

  /** One call of the manager, whole or dead after some save; a refused or repeated one saves nothing. */
  datatype Call = Call(s: Step, died: Option<Stage>)

  ghost predicate Writes(t: Tables, s: Step) { !s.Refused() && !Known(t, s.a) }

  ghost predicate CallTo(maxGap: Time, t: Tables, c: Call, t': Tables) {
    if c.died.None? || !Writes(t, c.s) then StepTo(maxGap, t, c.s, t')
    else
      && FreshIds(t, c.s.ids)
      && exists outcomeId: Id, current: Option<Id> {:trigger Located(t, c.s.a, c.s.ids, outcomeId, current)} ::
           && Located(t, c.s.a, c.s.ids, outcomeId, current)
           && t' == AfterStage(t, maxGap, c.s.a, c.s.resolver, c.s.ids, outcomeId, current, c.died.value)
  }

  ghost predicate CallTrace(maxGap: Time, calls: seq<Call>, ts: seq<Tables>) {
    && |ts| == |calls| + 1 && ts[0] == EMPTY_TABLES
    && forall i | 0 <= i < |calls| :: CallTo(maxGap, ts[i], calls[i], ts[i + 1])
  }

  /** The one save after the last stage completes the ingest. */
  lemma LastSaveCompletes(t: Tables, maxGap: Time, a: Arrival, resolver: Option<EpisodeDecision>, ids: NewIds,
                          outcomeId: Id, current: Option<Id>)
    requires TablesOk(t) && Located(t, a, ids, outcomeId, current)
    ensures var t' := AfterStage(t, maxGap, a, resolver, ids, outcomeId, current, ObservationStored);
      t'.(outcomes := t'.outcomes[outcomeId := t'.outcomes[outcomeId].(updatedAt := a.observedAt)])
        == Accepted(t, maxGap, a, resolver, ids, outcomeId, current).0
  {
  }

  // ------------------------------------------------------------- what always holds

  lemma ObservationsStay(observations: map<Id, SourceObservation>, episodes: map<Id, Episode>,
                         outcomes: map<Id, OutcomeRecord>, episodes': map<Id, Episode>, outcomes': map<Id, OutcomeRecord>)
    requires ObservationsOk(observations, episodes, outcomes)
    requires forall i | i in episodes :: i in episodes' && episodes'[i].outcomeId == episodes[i].outcomeId
    requires forall i | i in outcomes :: i in outcomes' && outcomes'[i].identity == outcomes[i].identity
    ensures ObservationsOk(observations, episodes', outcomes')
  {
  }

  lemma StageEpisodes(t: Tables, outcomes: map<Id, OutcomeRecord>, maxGap: Time, a: Arrival,
                      resolver: Option<EpisodeDecision>, ids: NewIds, outcomeId: Id, current: Option<Id>, stage: Stage)
    requires TablesOk(t) && FreshIds(t, ids) && Located(t, a, ids, outcomeId, current)
    requires outcomes.Keys == t.outcomes.Keys + {outcomeId}
    ensures var after := EpisodesAtStage(t.episodes, outcomeId, current, DecisionOn(t, maxGap, a, resolver, current), a,
                                         ids, stage);
      && EpisodesOk(after, outcomes)
      && (forall i | i in t.episodes :: i in after && after[i].outcomeId == t.episodes[i].outcomeId)
  {
    if Settled(stage) {
      AcceptedSettles(t, maxGap, a, resolver, ids, outcomeId, current);
      EpisodeStepKeepsActive(t.episodes, t.outcomes, outcomes, maxGap, a, resolver, ids, outcomeId, current,
                             DecisionOn(t, maxGap, a, resolver, current));
    }
  }

  lemma StageKeepsTables(t: Tables, maxGap: Time, a: Arrival, resolver: Option<EpisodeDecision>, ids: NewIds,
                         outcomeId: Id, current: Option<Id>, stage: Stage)
    requires TablesOk(t) && FreshIds(t, ids) && Located(t, a, ids, outcomeId, current)
    requires forall id: Id :: !IsDuplicate(t.observations, a, id)
    ensures TablesOk(AfterStage(t, maxGap, a, resolver, ids, outcomeId, current, stage))
  {
    var after := AfterStage(t, maxGap, a, resolver, ids, outcomeId, current, stage);
    AcceptedSettles(t, maxGap, a, resolver, ids, outcomeId, current);
    OutcomeWriteKeeps(t.outcomes, outcomeId, a, OutcomeBefore(t.outcomes, outcomeId, a).updatedAt);
    StageEpisodes(t, after.outcomes, maxGap, a, resolver, ids, outcomeId, current, stage);
    if stage.ObservationStored? {
      StoredObservation(t, maxGap, a, resolver, ids, outcomeId, current, after.outcomes);
    } else {
      ObservationsStay(t.observations, t.episodes, t.outcomes, after.episodes, after.outcomes);
    }
  }

  lemma StoredObservation(t: Tables, maxGap: Time, a: Arrival, resolver: Option<EpisodeDecision>, ids: NewIds,
                          outcomeId: Id, current: Option<Id>, outcomes: map<Id, OutcomeRecord>)
    requires TablesOk(t) && FreshIds(t, ids) && Located(t, a, ids, outcomeId, current)
    requires forall id: Id :: !IsDuplicate(t.observations, a, id)
    requires outcomes == t.outcomes[outcomeId := OutcomeBefore(t.outcomes, outcomeId, a)]
    ensures var t' := Accepted(t, maxGap, a, resolver, ids, outcomeId, current).0;
      ObservationsOk(t'.observations, t'.episodes, outcomes)
  {
    AcceptedSettles(t, maxGap, a, resolver, ids, outcomeId, current);
    var decision := DecisionOn(t, maxGap, a, resolver, current);
    var (after, episodeId) := EpisodesAfter(t.episodes, outcomeId, current, decision, a, ids);
    EpisodeStepKeepsActive(t.episodes, t.outcomes, outcomes, maxGap, a, resolver, ids, outcomeId, current, decision);
    NewObservationKeeps(t, a, ids, outcomeId, episodeId, outcomes, after);
  }

  lemma NotKnown(t: Tables, a: Arrival)
    requires !Known(t, a)
    ensures forall id: Id :: !IsDuplicate(t.observations, a, id)
  {
  }

  lemma CallKeepsTables(maxGap: Time, t: Tables, c: Call, t': Tables)
    requires TablesOk(t) && CallTo(maxGap, t, c, t')
    ensures TablesOk(t')
  {
    if c.died.None? || !Writes(t, c.s) {
      if t' != t {
        var outcomeId, current := StepCases(maxGap, t, c.s, t');
        AcceptedKeepsTables(t, maxGap, c.s.a, c.s.resolver, c.s.ids, outcomeId, current);
      }
    } else {
      NotKnown(t, c.s.a);
      var outcomeId: Id, current: Option<Id> :| Located(t, c.s.a, c.s.ids, outcomeId, current)
        && t' == AfterStage(t, maxGap, c.s.a, c.s.resolver, c.s.ids, outcomeId, current, c.died.value);
      StageKeepsTables(t, maxGap, c.s.a, c.s.resolver, c.s.ids, outcomeId, current, c.died.value);
    }
  }

  // ------------------------------------------------------------- when order is kept

  /** What a caller can look up: the opportunity is known, none of its episodes is active, and one
      of them ended after this observation was made. */
  ghost predicate OpensLate(t: Tables, a: Arrival) {
    exists o: Id :: IsOutcome(t.outcomes, a.intent.outcome, o) && Dormant(t.episodes, o) && EndedAfter(t.episodes, o, a)
  }

  ghost predicate Dormant(episodes: map<Id, Episode>, o: Id) { forall e: Id :: !IsActive(episodes, o, e) }

  predicate EndedAfter(episodes: map<Id, Episode>, o: Id, a: Arrival) {
    exists id | id in episodes :: episodes[id].outcomeId == o && a.observedAt < episodes[id].lastObservedAt
  }

  lemma LateIffOpensLate(t: Tables, a: Arrival, ids: NewIds, outcomeId: Id, current: Option<Id>)
    requires TablesOk(t) && FreshIds(t, ids) && Located(t, a, ids, outcomeId, current)
    ensures LateOpening(t.episodes, outcomeId, current, a) <==> OpensLate(t, a)
  {
    if LateOpening(t.episodes, outcomeId, current, a) {
      assert outcomeId in t.outcomes;
      assert IsOutcome(t.outcomes, a.intent.outcome, outcomeId) && Dormant(t.episodes, outcomeId);
    }
    if OpensLate(t, a) {
      var o: Id :| IsOutcome(t.outcomes, a.intent.outcome, o) && Dormant(t.episodes, o) && EndedAfter(t.episodes, o, a);
      assert o == outcomeId;
    }
  }

  lemma SupersededKeepsOrder(episodes: map<Id, Episode>, current: Option<Id>, decision: EpisodeDecision)
    requires Ordered(episodes) && (current.Some? ==> current.value in episodes)
    ensures Ordered(OneSuperseded(episodes, current, decision))
  {
  }

  lemma StageKeepsOrderIff(t: Tables, maxGap: Time, a: Arrival, resolver: Option<EpisodeDecision>, ids: NewIds,
                           outcomeId: Id, current: Option<Id>, stage: Stage)
    requires TablesOk(t) && Ordered(t.episodes) && FreshIds(t, ids) && Located(t, a, ids, outcomeId, current)
    ensures Ordered(AfterStage(t, maxGap, a, resolver, ids, outcomeId, current, stage).episodes)
       <==> !(Settled(stage) && OpensLate(t, a))
  {
    if Settled(stage) {
      SettledKeepsOrderIff(t, maxGap, a, resolver, ids, outcomeId, current);
    } else {
      SupersededKeepsOrder(t.episodes, current, DecisionOn(t, maxGap, a, resolver, current));
    }
  }

  lemma SettledKeepsOrderIff(t: Tables, maxGap: Time, a: Arrival, resolver: Option<EpisodeDecision>, ids: NewIds,
                             outcomeId: Id, current: Option<Id>)
    requires TablesOk(t) && Ordered(t.episodes) && FreshIds(t, ids) && Located(t, a, ids, outcomeId, current)
    ensures Ordered(Accepted(t, maxGap, a, resolver, ids, outcomeId, current).0.episodes) <==> !OpensLate(t, a)
  {
    AcceptedSettles(t, maxGap, a, resolver, ids, outcomeId, current);
    EpisodeStepKeepsOrderIff(t.episodes, maxGap, a, resolver, ids, outcomeId, current,
                             DecisionOn(t, maxGap, a, resolver, current));
    LateIffOpensLate(t, a, ids, outcomeId, current);
  }

  /** A call, whole or cut short anywhere, leaves the episodes in order exactly unless it gets to open
      one, for a known opportunity with none active, at a time before an earlier one ended. */
  lemma CallKeepsOrderIff(maxGap: Time, t: Tables, c: Call, t': Tables)
    requires TablesOk(t) && Ordered(t.episodes) && CallTo(maxGap, t, c, t')
    ensures Ordered(t'.episodes)
       <==> !(Writes(t, c.s) && (c.died.Some? ==> Settled(c.died.value)) && OpensLate(t, c.s.a))
  {
    if c.died.None? || !Writes(t, c.s) {
      if Writes(t, c.s) { WholeKeepsOrderIff(maxGap, t, c.s, t'); }
    } else {
      var outcomeId: Id, current: Option<Id> :| Located(t, c.s.a, c.s.ids, outcomeId, current)
        && t' == AfterStage(t, maxGap, c.s.a, c.s.resolver, c.s.ids, outcomeId, current, c.died.value);
      StageKeepsOrderIff(t, maxGap, c.s.a, c.s.resolver, c.s.ids, outcomeId, current, c.died.value);
    }
  }

  /** A call that is neither refused nor a repeat is an acceptance. */
  lemma WholeCase(maxGap: Time, t: Tables, s: Step, t': Tables) returns (outcomeId: Id, current: Option<Id>)
    requires StepTo(maxGap, t, s, t') && Writes(t, s)
    ensures FreshIds(t, s.ids) && Located(t, s.a, s.ids, outcomeId, current)
    ensures t' == Accepted(t, maxGap, s.a, s.resolver, s.ids, outcomeId, current).0
  {
    var r :| Ingests(t, maxGap, s.a, s.resolver, s.ids, t', r);
    outcomeId, current :| Located(t, s.a, s.ids, outcomeId, current)
      && (t', r) == Accepted(t, maxGap, s.a, s.resolver, s.ids, outcomeId, current);
  }

  lemma WholeKeepsOrderIff(maxGap: Time, t: Tables, s: Step, t': Tables)
    requires TablesOk(t) && Ordered(t.episodes) && StepTo(maxGap, t, s, t') && Writes(t, s)
    ensures Ordered(t'.episodes) <==> !OpensLate(t, s.a)
  {
    var outcomeId, current := WholeCase(maxGap, t, s, t');
    SettledKeepsOrderIff(t, maxGap, s.a, s.resolver, s.ids, outcomeId, current);
  }

  lemma {:induction false} CallTraceKeeps(maxGap: Time, calls: seq<Call>, ts: seq<Tables>, n: nat)
    requires CallTrace(maxGap, calls, ts) && n <= |calls|
    ensures TablesOk(ts[n])
    ensures (forall i | 0 <= i < n :: !OpensLate(ts[i], calls[i].s.a)) ==> Ordered(ts[n].episodes)
  {
    if n > 0 {
      CallTraceKeeps(maxGap, calls, ts, n - 1);
      CallKeepsTables(maxGap, ts[n - 1], calls[n - 1], ts[n]);
      if forall i | 0 <= i < n :: !OpensLate(ts[i], calls[i].s.a) {
        CallKeepsOrderIff(maxGap, ts[n - 1], calls[n - 1], ts[n]);
      }
    }
  }

  /** After any calls, however many of them cut short: no opportunity has two active episodes, every
      stored observation belongs to a stored episode of a stored outcome of its own identity, no
      observation is stored twice, and unless one was opened late the episodes take turns. */
  lemma CutEpisodesTakeTurns(maxGap: Time, calls: seq<Call>, ts: seq<Tables>)
    requires CallTrace(maxGap, calls, ts)
    ensures var t := ts[|calls|];
      && (forall o: Id, e: Id, f: Id | IsActive(t.episodes, o, e) && IsActive(t.episodes, o, f) :: e == f)
      && ObservationsOk(t.observations, t.episodes, t.outcomes)
      && ((forall i | 0 <= i < |calls| :: !OpensLate(ts[i], calls[i].s.a)) ==> Ordered(t.episodes))
  {
    CallTraceKeeps(maxGap, calls, ts, |calls|);
  }

  // ------------------------------------------------------------- who stays active

  lemma SettledIsActive(episodes: map<Id, Episode>, outcomeId: Id, current: Option<Id>, decision: EpisodeDecision,
                        a: Arrival, ids: NewIds)
    requires ids.episode !in episodes
    requires current.Some? ==> IsActive(episodes, outcomeId, current.value)
                               && episodes[current.value].episodeId == current.value
    ensures var (after, id) := EpisodesAfter(episodes, outcomeId, current, decision, a, ids);
      && IsActive(after, outcomeId, id)
      && (forall o: Id, e: Id | o != outcomeId :: IsActive(after, o, e) <==> IsActive(episodes, o, e))
  {
  }

  /** A cut leaves its opportunity without an active episode exactly between closing one and storing
      the next, or before the first is stored; other opportunities keep theirs. */
  lemma CutLeavesDormantIff(t: Tables, maxGap: Time, a: Arrival, resolver: Option<EpisodeDecision>, ids: NewIds,
                            outcomeId: Id, current: Option<Id>, stage: Stage)
    requires TablesOk(t) && FreshIds(t, ids) && Located(t, a, ids, outcomeId, current)
    ensures var after := AfterStage(t, maxGap, a, resolver, ids, outcomeId, current, stage).episodes;
      && (Dormant(after, outcomeId) <==>
            if current.None? then !Settled(stage)
            else stage.EpisodeClosed? && DecisionOn(t, maxGap, a, resolver, current) == EpisodeDecision.NewEpisode)
      && (forall o: Id, e: Id | o != outcomeId :: IsActive(after, o, e) <==> IsActive(t.episodes, o, e))
  {
    var decision := DecisionOn(t, maxGap, a, resolver, current);
    AcceptedSettles(t, maxGap, a, resolver, ids, outcomeId, current);
    if Settled(stage) {
      SettledIsActive(t.episodes, outcomeId, current, decision, a, ids);
    } else if current.Some? && !(stage.EpisodeClosed? && decision == EpisodeDecision.NewEpisode) {
      assert IsActive(t.episodes, outcomeId, current.value);
    }
  }

  /** An accepted observation leaves its own opportunity active and the others as they were. */
  lemma AcceptedIsActive(t: Tables, maxGap: Time, s: Step, outcomeId: Id, current: Option<Id>)
    requires TablesOk(t) && FreshIds(t, s.ids) && Located(t, s.a, s.ids, outcomeId, current)
    ensures var t' := Accepted(t, maxGap, s.a, s.resolver, s.ids, outcomeId, current).0;
      && IsOutcome(t'.outcomes, s.a.intent.outcome, outcomeId) && !Dormant(t'.episodes, outcomeId)
      && t'.outcomes.Keys == t.outcomes.Keys + {outcomeId}
      && (forall o: Id, e: Id | o != outcomeId :: IsActive(t'.episodes, o, e) <==> IsActive(t.episodes, o, e))
  {
    var t' := Accepted(t, maxGap, s.a, s.resolver, s.ids, outcomeId, current).0;
    AcceptedSettles(t, maxGap, s.a, s.resolver, s.ids, outcomeId, current);
    var decision := DecisionOn(t, maxGap, s.a, s.resolver, current);
    EpisodeStepKeepsActive(t.episodes, t.outcomes, t'.outcomes, maxGap, s.a, s.resolver, s.ids, outcomeId, current, decision);
    assert IsActive(t'.episodes, outcomeId, EpisodesAfter(t.episodes, outcomeId, current, decision, s.a, s.ids).1);
  }

  /** Whatever cuts left behind, the next accepted observation of an opportunity leaves it exactly one
      active episode, and every other opportunity as many as it had. */
  lemma NextIngestRestores(maxGap: Time, t: Tables, s: Step, t': Tables)
    requires TablesOk(t) && StepTo(maxGap, t, s, t') && Writes(t, s)
    ensures TablesOk(t')
    ensures exists o: Id :: IsOutcome(t'.outcomes, s.a.intent.outcome, o) && !Dormant(t'.episodes, o)
    ensures forall o: Id | !Dormant(t.episodes, o) :: !Dormant(t'.episodes, o)
  {
    var outcomeId, current := WholeCase(maxGap, t, s, t');
    CallKeepsTables(maxGap, t, Call(s, None), t');
    AcceptedIsActive(t, maxGap, s, outcomeId, current);
    forall o: Id | !Dormant(t.episodes, o) ensures !Dormant(t'.episodes, o) {
      var e: Id :| IsActive(t.episodes, o, e);
      assert o != outcomeId ==> IsActive(t'.episodes, o, e);
    }
  }

  // ---------------------------------------------------------------- trying again

  lemma InvNeverLate(t: Tables, a: Arrival, ids: NewIds, outcomeId: Id, current: Option<Id>)
    requires Inv(t) && FreshIds(t, ids) && Located(t, a, ids, outcomeId, current)
    ensures !OpensLate(t, a)
    ensures current.None? ==> forall id | id in t.episodes :: t.episodes[id].outcomeId != outcomeId
  {
    OnlyNewOpens(t, a, ids, outcomeId, current);
    LateIffOpensLate(t, a, ids, outcomeId, current);
  }

  /** A decision for a new episode is about an observation no older than the active one. */
  lemma NewIsNotOlder(t: Tables, maxGap: Time, a: Arrival, resolver: Option<EpisodeDecision>, outcomeId: Id, current: Id,
                      id: Id)
    requires Ordered(t.episodes) && IsActive(t.episodes, outcomeId, current)
    requires Decide(maxGap, a, t.episodes[current], resolver) == EpisodeDecision.NewEpisode
    requires id in t.episodes && t.episodes[id].outcomeId == outcomeId
    ensures t.episodes[id].lastObservedAt <= a.observedAt
  {
    assert id != current ==> Before(t.episodes[id], t.episodes[current]);
  }

  /** What the crash left can be opened by the same observation without being late. */
  lemma RetryIsNotLate(t: Tables, maxGap: Time, a: Arrival, resolver: Option<EpisodeDecision>, ids: NewIds,
                       outcomeId: Id, current: Option<Id>, stage: Stage)
    requires Inv(t) && FreshIds(t, ids) && Located(t, a, ids, outcomeId, current)
    requires OutcomesOk(AfterStage(t, maxGap, a, resolver, ids, outcomeId, current, stage).outcomes)
    ensures var t1 := AfterStage(t, maxGap, a, resolver, ids, outcomeId, current, stage);
      !OpensLate(t1, a) && forall o: Id | IsOutcome(t1.outcomes, a.intent.outcome, o) :: o == outcomeId
  {
    var t1 := AfterStage(t, maxGap, a, resolver, ids, outcomeId, current, stage);
    AcceptedSettles(t, maxGap, a, resolver, ids, outcomeId, current);
    assert IsOutcome(t1.outcomes, a.intent.outcome, outcomeId);
    if Dormant(t1.episodes, outcomeId) && EndedAfter(t1.episodes, outcomeId, a) {
      CutLeavesDormantIff(t, maxGap, a, resolver, ids, outcomeId, current, stage);
      InvNeverLate(t, a, ids, outcomeId, current);
      var id :| id in t1.episodes && t1.episodes[id].outcomeId == outcomeId
                && a.observedAt < t1.episodes[id].lastObservedAt;
      NewIsNotOlder(t, maxGap, a, resolver, outcomeId, current.value, id);
    }
  }

  /** Outcomes whose episodes the cut did not touch keep an active one. */
  lemma OthersStayActive(t: Tables, maxGap: Time, a: Arrival, resolver: Option<EpisodeDecision>, ids: NewIds,
                         outcomeId: Id, current: Option<Id>, stage: Stage, o: Id)
    requires Inv(t) && FreshIds(t, ids) && Located(t, a, ids, outcomeId, current)
    requires o in AfterStage(t, maxGap, a, resolver, ids, outcomeId, current, stage).outcomes && o != outcomeId
    ensures exists e: Id :: IsActive(AfterStage(t, maxGap, a, resolver, ids, outcomeId, current, stage).episodes, o, e)
  {
    CutLeavesDormantIff(t, maxGap, a, resolver, ids, outcomeId, current, stage);
    var e: Id :| IsActive(t.episodes, o, e);
  }

  lemma RetryActive(t1: Tables, s: Step, t2: Tables, maxGap: Time, outcomeId: Id)
    requires TablesOk(t1) && StepTo(maxGap, t1, s, t2) && Writes(t1, s)
    requires IsOutcome(t1.outcomes, s.a.intent.outcome, outcomeId)
    requires forall o | o in t1.outcomes && o != outcomeId :: exists e: Id :: IsActive(t1.episodes, o, e)
    ensures HasActive(t2.outcomes, t2.episodes)
  {
    var located, current := WholeCase(maxGap, t1, s, t2);
    AcceptedIsActive(t1, maxGap, s, located, current);
    assert located == outcomeId;
    forall o | o in t2.outcomes ensures exists e: Id :: IsActive(t2.episodes, o, e) {
      if o != outcomeId {
        var e: Id :| IsActive(t1.episodes, o, e);
        assert IsActive(t2.episodes, o, e);
      }
    }
  }

  /** Everything but an active episode for its own opportunity is as it should be after a cut. */
  lemma CutNearlyInv(t: Tables, maxGap: Time, a: Arrival, resolver: Option<EpisodeDecision>, ids: NewIds,
                     outcomeId: Id, current: Option<Id>, stage: Stage)
    requires Inv(t) && FreshIds(t, ids) && Located(t, a, ids, outcomeId, current) && !Known(t, a)
    ensures var t1 := AfterStage(t, maxGap, a, resolver, ids, outcomeId, current, stage);
      && TablesOk(t1) && Ordered(t1.episodes) && IsOutcome(t1.outcomes, a.intent.outcome, outcomeId)
      && (forall o | o in t1.outcomes && o != outcomeId :: exists e: Id :: IsActive(t1.episodes, o, e))
  {
    var t1 := AfterStage(t, maxGap, a, resolver, ids, outcomeId, current, stage);
    assert TablesOk(t1) by { StageKeepsTables(t, maxGap, a, resolver, ids, outcomeId, current, stage); }
    assert Ordered(t1.episodes) by {
      InvNeverLate(t, a, ids, outcomeId, current);
      StageKeepsOrderIff(t, maxGap, a, resolver, ids, outcomeId, current, stage);
    }
    OutcomeStored(t, maxGap, a, resolver, ids, outcomeId, current, stage);
    forall o | o in t1.outcomes && o != outcomeId ensures exists e: Id :: IsActive(t1.episodes, o, e) {
      OthersStayActive(t, maxGap, a, resolver, ids, outcomeId, current, stage, o);
    }
  }

  lemma AcceptedRetryHeals(t1: Tables, again: Step, t2: Tables, maxGap: Time, outcomeId: Id)
    requires TablesOk(t1) && Ordered(t1.episodes) && IsOutcome(t1.outcomes, again.a.intent.outcome, outcomeId)
    requires forall o | o in t1.outcomes && o != outcomeId :: exists e: Id :: IsActive(t1.episodes, o, e)
    requires StepTo(maxGap, t1, again, t2) && Writes(t1, again) && !OpensLate(t1, again.a)
    ensures Inv(t2)
  {
    assert TablesOk(t2) by { CallKeepsTables(maxGap, t1, Call(again, None), t2); }
    assert Ordered(t2.episodes) by { WholeKeepsOrderIff(maxGap, t1, again, t2); }
    RetryActive(t1, again, t2, maxGap, outcomeId);
  }

  /** Wherever an ingest died, sending the same observation again heals the tables: one active
      episode for every opportunity, and episodes that take turns. */
  lemma RetryHeals(maxGap: Time, t: Tables, c: Call, t1: Tables, again: Step, t2: Tables)
    requires Inv(t) && CallTo(maxGap, t, c, t1) && c.died.Some? && Writes(t, c.s)
    requires again.a == c.s.a && StepTo(maxGap, t1, again, t2)
    ensures Inv(t2)
  {
    var a, stage := c.s.a, c.died.value;
    var outcomeId: Id, current: Option<Id> :| Located(t, a, c.s.ids, outcomeId, current)
      && t1 == AfterStage(t, maxGap, a, c.s.resolver, c.s.ids, outcomeId, current, stage);
    CutNearlyInv(t, maxGap, a, c.s.resolver, c.s.ids, outcomeId, current, stage);
    if Known(t1, a) {
      assert !Dormant(t1.episodes, outcomeId) by {
        RepeatedCut(t, maxGap, a, c.s.resolver, c.s.ids, outcomeId, current, stage);
      }
      RepeatedRetryHeals(t1, again, t2, maxGap, outcomeId);
    } else {
      assert !OpensLate(t1, a) by {
        RetryIsNotLate(t, maxGap, a, c.s.resolver, c.s.ids, outcomeId, current, stage);
      }
      AcceptedRetryHeals(t1, again, t2, maxGap, outcomeId);
    }
  }

  lemma RepeatedRetryHeals(t1: Tables, again: Step, t2: Tables, maxGap: Time, outcomeId: Id)
    requires TablesOk(t1) && Ordered(t1.episodes) && !Dormant(t1.episodes, outcomeId)
    requires forall o | o in t1.outcomes && o != outcomeId :: exists e: Id :: IsActive(t1.episodes, o, e)
    requires StepTo(maxGap, t1, again, t2) && Known(t1, again.a)
    ensures Inv(t2)
  {
    assert t2 == t1;
  }

  lemma OutcomeStored(t: Tables, maxGap: Time, a: Arrival, resolver: Option<EpisodeDecision>, ids: NewIds,
                      outcomeId: Id, current: Option<Id>, stage: Stage)
    requires TablesOk(t) && FreshIds(t, ids) && Located(t, a, ids, outcomeId, current)
    ensures IsOutcome(AfterStage(t, maxGap, a, resolver, ids, outcomeId, current, stage).outcomes, a.intent.outcome, outcomeId)
  {
    AcceptedSettles(t, maxGap, a, resolver, ids, outcomeId, current);
  }

  /** The observation is answered from the store only if it was stored, and then its episode was too. */
  lemma RepeatedCut(t: Tables, maxGap: Time, a: Arrival, resolver: Option<EpisodeDecision>, ids: NewIds,
                    outcomeId: Id, current: Option<Id>, stage: Stage)
    requires TablesOk(t) && FreshIds(t, ids) && Located(t, a, ids, outcomeId, current) && !Known(t, a)
    requires Known(AfterStage(t, maxGap, a, resolver, ids, outcomeId, current, stage), a)
    ensures stage.ObservationStored?
    ensures !Dormant(AfterStage(t, maxGap, a, resolver, ids, outcomeId, current, stage).episodes, outcomeId)
  {
    CutLeavesDormantIff(t, maxGap, a, resolver, ids, outcomeId, current, stage);
  }

  /** The failing family: an active episode is superseded, the process dies, and an observation made
      before that episode ended comes next; the episode it opens overlaps the superseded one. */
  lemma LateArrivalOverlaps(maxGap: Time, t: Tables, c: Call, t1: Tables, late: Step, t2: Tables, o: Id, e: Id)
    requires Inv(t) && CallTo(maxGap, t, c, t1) && c.died == Some(EpisodeClosed) && Writes(t, c.s)
    requires IsOutcome(t.outcomes, c.s.a.intent.outcome, o) && IsActive(t.episodes, o, e)
    requires Decide(maxGap, c.s.a, t.episodes[e], c.s.resolver) == EpisodeDecision.NewEpisode
    requires late.a.intent.outcome == c.s.a.intent.outcome && late.a.observedAt < t.episodes[e].lastObservedAt
    requires StepTo(maxGap, t1, late, t2) && Writes(t1, late)
    ensures !Ordered(t2.episodes)
  {
    var outcomeId: Id, current: Option<Id> :| Located(t, c.s.a, c.s.ids, outcomeId, current)
      && t1 == AfterStage(t, maxGap, c.s.a, c.s.resolver, c.s.ids, outcomeId, current, EpisodeClosed);
    assert outcomeId == o && current == Some(e);
    CutNearlyInv(t, maxGap, c.s.a, c.s.resolver, c.s.ids, outcomeId, current, EpisodeClosed);
    CutLeavesDormantIff(t, maxGap, c.s.a, c.s.resolver, c.s.ids, outcomeId, current, EpisodeClosed);
    assert IsOutcome(t1.outcomes, late.a.intent.outcome, o) && EndedAfter(t1.episodes, o, late.a) by {
      assert t1.episodes[e].lastObservedAt == t.episodes[e].lastObservedAt;
    }
    WholeKeepsOrderIff(maxGap, t1, late, t2);
  }
}
