/** Trade intake: observations, broad outcomes and their time-relevant episodes. */
module Intake {
  import opened Domain
  import opened Store

  // ----------------------------------------------------------- relevance policy

  predicate SameContext(a: EpisodeIdentity, b: EpisodeIdentity) {
    a.contextKey.Some? && a.contextKey.value != "" && a.contextKey == b.contextKey
  }

  /** Older is stale, too late is new, the same manifestation or context is the same episode; what
      remains is ambiguous and goes to the resolver, if one is connected. */
  function Decide(maxGap: Time, a: Arrival, current: Episode, resolver: Option<EpisodeDecision>): EpisodeDecision {
    var gap := a.observedAt - current.lastObservedAt;
    if gap < 0 then StaleObservation
    else if gap > maxGap then NewEpisode
    else if a.intent.episode == current.signature || SameContext(a.intent.episode, current.signature) then SameEpisode
    else if resolver.Some? then resolver.value
    else NewEpisode
  }

  // ------------------------------------------------------------------ one ingest

  function UpperChar(c: char): char { if 'a' <= c <= 'z' then (c as int - 32) as char else c }

  function Upper(text: string): string { seq(|text|, i requires 0 <= i < |text| => UpperChar(text[i])) }

  /** The deduplication key; the program's hash of it is taken to be injective. */
  function DedupeKey(a: Arrival): Arrival { a.(source := Upper(a.source)) }

  datatype Tables = Tables(
    outcomes: map<Id, OutcomeRecord>, episodes: map<Id, Episode>, observations: map<Id, SourceObservation>)

  /** The ids a call would generate. */
  datatype NewIds = NewIds(outcome: Id, observation: Id, episode: Id)

  datatype Disposition = NewOutcome | NewEpisodeOpened | UpdatedEpisode | DuplicateObservation | StaleRecorded

  datatype IntakeResult = IntakeResult(
    disposition: Disposition, observation: SourceObservation, outcome: OutcomeRecord, episode: Episode)

  predicate IsDuplicate(observations: map<Id, SourceObservation>, a: Arrival, id: Id) {
    id in observations && observations[id].arrival == DedupeKey(a)
  }

  predicate IsOutcome(outcomes: map<Id, OutcomeRecord>, identity: OutcomeIdentity, id: Id) {
    id in outcomes && outcomes[id].identity == identity
  }

  predicate IsActive(episodes: map<Id, Episode>, outcomeId: Id, id: Id) {
    id in episodes && episodes[id].outcomeId == outcomeId && episodes[id].status == EpisodeActive
  }

  function Opened(id: Id, outcomeId: Id, a: Arrival, observationId: Id): Episode {
    Episode(id, outcomeId, a.intent.episode, EpisodeActive, a.observedAt, a.observedAt, observationId)
  }

  function Continued(e: Episode, a: Arrival, observationId: Id): Episode {
    e.(lastObservedAt := if a.observedAt > e.lastObservedAt then a.observedAt else e.lastObservedAt,
       latestObservationId := observationId, signature := a.intent.episode)
  }

  /** The episodes after an observation whose outcome has the active episode `current`, and the
      episode the observation then belongs to. */
  function EpisodesAfter(episodes: map<Id, Episode>, outcomeId: Id, current: Option<Id>, decision: EpisodeDecision,
                         a: Arrival, ids: NewIds): (map<Id, Episode>, Id)
    requires current.Some? ==> current.value in episodes
  {
    var next := Opened(ids.episode, outcomeId, a, ids.observation);
    if current.None? then (episodes[ids.episode := next], ids.episode)
    else
      var e := episodes[current.value];
      match decision
      case SameEpisode => (episodes[e.episodeId := Continued(e, a, ids.observation)], e.episodeId)
      case StaleObservation => (episodes, e.episodeId)
      case NewEpisode => (episodes[e.episodeId := e.(status := EpisodeSuperseded)][ids.episode := next], ids.episode)
  }

  function DispositionOf(newOutcome: bool, current: Option<Id>, decision: EpisodeDecision): Disposition {
    if current.None? then (if newOutcome then NewOutcome else NewEpisodeOpened)
    else match decision
         case SameEpisode => UpdatedEpisode
         case StaleObservation => StaleRecorded
         case NewEpisode => NewEpisodeOpened
  }

  function OutcomeBefore(outcomes: map<Id, OutcomeRecord>, id: Id, a: Arrival): OutcomeRecord {
    if id in outcomes then outcomes[id] else OutcomeRecord(id, a.intent.outcome, a.observedAt, a.observedAt)
  }

  /** What accepting a new observation writes, given its outcome's id and active episode. */
  function Accepted(t: Tables, maxGap: Time, a: Arrival, resolver: Option<EpisodeDecision>, ids: NewIds,
                    outcomeId: Id, current: Option<Id>): (Tables, IntakeResult)
    requires current.Some? ==> current.value in t.episodes && t.episodes[current.value].episodeId == current.value
  {
    var outcome := OutcomeBefore(t.outcomes, outcomeId, a).(updatedAt := a.observedAt);
    var decision := if current.Some? then Decide(maxGap, a, t.episodes[current.value], resolver) else NewEpisode;
    var (episodes, episodeId) := EpisodesAfter(t.episodes, outcomeId, current, decision, a, ids);
    var observation := SourceObservation(ids.observation, DedupeKey(a), outcomeId, episodeId);
    (Tables(t.outcomes[outcomeId := outcome], episodes, t.observations[ids.observation := observation]),
     IntakeResult(DispositionOf(outcomeId !in t.outcomes, current, decision), observation, outcome, episodes[episodeId]))
  }

  // ------------------------------------------------------------ table invariants

  predicate OutcomesOk(outcomes: map<Id, OutcomeRecord>) {
    && (forall id | id in outcomes :: outcomes[id].outcomeId == id)
    && (forall i, j | i in outcomes && j in outcomes && outcomes[i].identity == outcomes[j].identity :: i == j)
  }

  predicate EpisodesOk(episodes: map<Id, Episode>, outcomes: map<Id, OutcomeRecord>) {
    && (forall id | id in episodes :: episodes[id].episodeId == id && episodes[id].outcomeId in outcomes)
    && (forall i, j | i in episodes && j in episodes && episodes[i].outcomeId == episodes[j].outcomeId
          && episodes[i].status == EpisodeActive && episodes[j].status == EpisodeActive :: i == j)
  }

  predicate ObservationsOk(observations: map<Id, SourceObservation>, episodes: map<Id, Episode>,
                           outcomes: map<Id, OutcomeRecord>)
  {
    && (forall id | id in observations ::
          && observations[id].observationId == id
          && observations[id].outcomeId in outcomes && observations[id].episodeId in episodes
          && episodes[observations[id].episodeId].outcomeId == observations[id].outcomeId
          && outcomes[observations[id].outcomeId].identity == observations[id].arrival.intent.outcome)
    && (forall i, j | i in observations && j in observations && observations[i].arrival == observations[j].arrival
          :: i == j)
  }

  predicate TablesOk(t: Tables) {
    OutcomesOk(t.outcomes) && EpisodesOk(t.episodes, t.outcomes) && ObservationsOk(t.observations, t.episodes, t.outcomes)
  }

  predicate FreshIds(t: Tables, ids: NewIds) {
    ids.outcome !in t.outcomes && ids.observation !in t.observations && ids.episode !in t.episodes
  }

  /** `r` is what ingesting `a` into `t` leads to. */
  ghost predicate Ingests(t: Tables, maxGap: Time, a: Arrival, resolver: Option<EpisodeDecision>, ids: NewIds,
                          t': Tables, r: IntakeResult)
  {
    if exists id :: IsDuplicate(t.observations, a, id) then
      && t' == t
      && IsDuplicate(t.observations, a, r.observation.observationId)
      && r.observation == t.observations[r.observation.observationId]
      && r.observation.outcomeId in t.outcomes && r.observation.episodeId in t.episodes
      && r == IntakeResult(DuplicateObservation, r.observation, t.outcomes[r.observation.outcomeId],
                           t.episodes[r.observation.episodeId])
    else
      exists outcomeId: Id, current: Option<Id> {:trigger Located(t, a, ids, outcomeId, current)} ::
        Located(t, a, ids, outcomeId, current) && (t', r) == Accepted(t, maxGap, a, resolver, ids, outcomeId, current)
  }

  /** The outcome an observation belongs to (a new one when unknown) and its active episode. */
  ghost predicate Located(t: Tables, a: Arrival, ids: NewIds, outcomeId: Id, current: Option<Id>) {
    && (if exists id :: IsOutcome(t.outcomes, a.intent.outcome, id) then IsOutcome(t.outcomes, a.intent.outcome, outcomeId)
        else outcomeId == ids.outcome)
    && (if current.Some? then IsActive(t.episodes, outcomeId, current.value)
        else forall id: Id :: !IsActive(t.episodes, outcomeId, id))
    && (current.Some? ==> t.episodes[current.value].episodeId == current.value)
  }

  // ----------------------------------------------------------------- the manager

  class TradeIntakeManager {
    const repository: Repository
    const maxGap: Time

    constructor (repository: Repository, maxGap: Time)
      ensures this.repository == repository && this.maxGap == maxGap
    {
      this.repository, this.maxGap := repository, maxGap;
    }

    ghost function View(): Tables
      reads repository
    {
      Tables(repository.intakeOutcomes, repository.intakeEpisodes, repository.sourceObservations)
    }

    method FindDuplicate(a: Arrival) returns (found: Option<Id>)
      ensures match found
        case Some(id) => IsDuplicate(repository.sourceObservations, a, id)
        case None => forall id: Id :: !IsDuplicate(repository.sourceObservations, a, id)
    {
      var observations := repository.sourceObservations;
      var matches := set id | id in observations && IsDuplicate(observations, a, id);
      if matches == {} {
        assert forall id: Id | IsDuplicate(observations, a, id) :: id in matches;
        return None;
      }
      var id :| id in matches;
      return Some(id);
    }

    method FindOutcome(identity: OutcomeIdentity) returns (found: Option<Id>)
      ensures match found
        case Some(id) => IsOutcome(repository.intakeOutcomes, identity, id)
        case None => forall id: Id :: !IsOutcome(repository.intakeOutcomes, identity, id)
    {
      var outcomes := repository.intakeOutcomes;
      var matches := set id | id in outcomes && IsOutcome(outcomes, identity, id);
      if matches == {} {
        assert forall id: Id | IsOutcome(outcomes, identity, id) :: id in matches;
        return None;
      }
      var id :| id in matches;
      return Some(id);
    }

    method FindActive(outcomeId: Id) returns (found: Option<Id>)
      ensures match found
        case Some(id) => IsActive(repository.intakeEpisodes, outcomeId, id)
        case None => forall id: Id :: !IsActive(repository.intakeEpisodes, outcomeId, id)
    {
      var episodes := repository.intakeEpisodes;
      var matches := set id | id in episodes && IsActive(episodes, outcomeId, id);
      if matches == {} {
        assert forall id: Id | IsActive(episodes, outcomeId, id) :: id in matches;
        return None;
      }
      var id :| id in matches;
      return Some(id);
    }

    /** Blank provenance is refused; an exact repeat is answered from the store; anything else is
        saved under its outcome and the episode the relevance policy decides on. */
    method Ingest(a: Arrival, resolver: Option<EpisodeDecision>, ids: NewIds) returns (r: Outcome<IntakeResult>)
      requires TablesOk(View()) && FreshIds(View(), ids)
      modifies repository`intakeOutcomes, repository`intakeEpisodes, repository`sourceObservations
      ensures r.Returned? <==> !Blank(a.srcId) && !Blank(a.source)
      ensures r.Raised? ==> View() == old(View())
      ensures r.Returned? ==> Ingests(old(View()), maxGap, a, resolver, ids, View(), r.value)
    {
      if Blank(a.srcId) { return Raised; }
      if Blank(a.source) { return Raised; }
      ghost var before := View();
      var duplicate := FindDuplicate(a);
      if duplicate.Some? {
        var observation := repository.sourceObservations[duplicate.value];
        return Returned(IntakeResult(DuplicateObservation, observation, repository.intakeOutcomes[observation.outcomeId],
                                     repository.intakeEpisodes[observation.episodeId]));
      }
      var known := FindOutcome(a.intent.outcome);
      var outcome := OutcomeRecord(ids.outcome, a.intent.outcome, a.observedAt, a.observedAt);
      if known.Some? {
        outcome := repository.intakeOutcomes[known.value];
      } else {
        repository.intakeOutcomes := repository.intakeOutcomes[ids.outcome := outcome];
      }
      var current := FindActive(outcome.outcomeId);
      var episodeId, disposition := SettleEpisode(a, outcome.outcomeId, known.None?, current, resolver, ids);
      var observation := SourceObservation(ids.observation, DedupeKey(a), outcome.outcomeId, episodeId);
      repository.sourceObservations := repository.sourceObservations[ids.observation := observation];
      outcome := outcome.(updatedAt := a.observedAt);
      repository.intakeOutcomes := repository.intakeOutcomes[outcome.outcomeId := outcome];
      r := Returned(IntakeResult(disposition, observation, outcome, repository.intakeEpisodes[episodeId]));
      assert Located(before, a, ids, outcome.outcomeId, current);
      assert View().outcomes == Accepted(before, maxGap, a, resolver, ids, outcome.outcomeId, current).0.outcomes;
    }

    /** Opens, continues, keeps or replaces the outcome's active episode. */
    method SettleEpisode(a: Arrival, outcomeId: Id, newOutcome: bool, current: Option<Id>,
                         resolver: Option<EpisodeDecision>, ids: NewIds) returns (episodeId: Id, disposition: Disposition)
      requires current.Some? ==> IsActive(repository.intakeEpisodes, outcomeId, current.value)
                                 && repository.intakeEpisodes[current.value].episodeId == current.value
      modifies repository`intakeEpisodes
      ensures var decision := if current.Some? then Decide(maxGap, a, old(repository.intakeEpisodes)[current.value], resolver)
                              else NewEpisode;
        && (repository.intakeEpisodes, episodeId)
             == EpisodesAfter(old(repository.intakeEpisodes), outcomeId, current, decision, a, ids)
        && disposition == DispositionOf(newOutcome, current, decision)
      ensures episodeId in repository.intakeEpisodes
    {
      if current.None? {
        var episode := Opened(ids.episode, outcomeId, a, ids.observation);
        repository.intakeEpisodes := repository.intakeEpisodes[ids.episode := episode];
        return ids.episode, if newOutcome then NewOutcome else NewEpisodeOpened;
      }
      var episode := repository.intakeEpisodes[current.value];
      match Decide(maxGap, a, episode, resolver) {
        case SameEpisode =>
          var updated := Continued(episode, a, ids.observation);
          repository.intakeEpisodes := repository.intakeEpisodes[episode.episodeId := updated];
          return episode.episodeId, UpdatedEpisode;
        case StaleObservation =>
          return episode.episodeId, StaleRecorded;
        case NewEpisode =>
          repository.intakeEpisodes :=
            repository.intakeEpisodes[episode.episodeId := episode.(status := EpisodeSuperseded)];
          repository.intakeEpisodes :=
            repository.intakeEpisodes[ids.episode := Opened(ids.episode, outcomeId, a, ids.observation)];
          return ids.episode, NewEpisodeOpened;
      }
    }
  }
}
