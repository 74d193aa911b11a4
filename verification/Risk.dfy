/** The entry Risk gate and the versioned Risk profile. */
module Risk {
  import opened Domain
  import opened Store

  // ------------------------------------------------------------------- metrics

  function Price(p: Position): real {
    if p.facts.lastPrice.Some? then p.facts.lastPrice.value else p.facts.averagePrice
  }

  function OpenCount(positions: seq<Position>): nat {
    if positions == [] then 0
    else OpenCount(positions[..|positions| - 1]) + if positions[|positions| - 1].IsOpen() then 1 else 0
  }

  /** Sum of |quantity| times price over the open positions, MANAGED or not. */
  function Exposure(positions: seq<Position>): real {
    if positions == [] then 0.0
    else
      var p := positions[|positions| - 1];
      Exposure(positions[..|positions| - 1])
      + if p.IsOpen() then (Abs(p.facts.quantity) as real) * Price(p) else 0.0
  }

  // ---------------------------------------------------------------- the decision

  /** Broker truth was reconciled in this runtime and nothing marked it stale since. */
  predicate TruthCurrent(ctx: BrokerContext) {
    ctx.status == BrokerReconciled && ctx.observedAt.Some? && ctx.runtimeReconciled
  }

  predicate Exceeds(value: real, limit: Option<real>) { limit.Some? && value > limit.value }

  function LossReasons(profile: RiskProfile, proposal: RiskProposal): seq<RiskReason> {
    if profile.maxTradeLoss.None? then []
    else if proposal.plannedMaxLoss.None? then [PlannedMaxLossUnknown]
    else if proposal.plannedMaxLoss.value > profile.maxTradeLoss.value then [MaxTradeLossExceeded]
    else []
  }

  function If(condition: bool, reason: RiskReason): seq<RiskReason> { if condition then [reason] else [] }

  function Reasons(profile: RiskProfile, proposal: RiskProposal, openCount: nat, exposure: real, ctx: BrokerContext)
    : seq<RiskReason>
  {
    If(!TruthCurrent(ctx), BrokerTruthNotCurrent)
    + If(Exceeds(proposal.Value(), profile.maxPositionValue), MaxPositionValueExceeded)
    + LossReasons(profile, proposal)
    + If(profile.maxOpenPositions.Some? && openCount >= profile.maxOpenPositions.value, MaxOpenPositionsReached)
    + If(Exceeds(exposure + proposal.Value(), profile.maxTotalExposure), MaxTotalExposureExceeded)
  }

  /** Risk passes an entry exactly when broker truth is current and the entry, added to what is
      open now, stays inside every configured limit; an unknown loss fails a configured loss limit. */
  lemma PassIffWithinLimits(profile: RiskProfile, proposal: RiskProposal, openCount: nat, exposure: real, ctx: BrokerContext)
    ensures Reasons(profile, proposal, openCount, exposure, ctx) == [] <==>
      && TruthCurrent(ctx)
      && (profile.maxPositionValue.Some? ==> proposal.Value() <= profile.maxPositionValue.value)
      && (profile.maxTradeLoss.Some? ==>
            proposal.plannedMaxLoss.Some? && proposal.plannedMaxLoss.value <= profile.maxTradeLoss.value)
      && (profile.maxOpenPositions.Some? ==> openCount < profile.maxOpenPositions.value)
      && (profile.maxTotalExposure.Some? ==> exposure + proposal.Value() <= profile.maxTotalExposure.value)
  {
  }

  function Decide(id: Id, profile: RiskProfile, proposal: RiskProposal, positions: seq<Position>, ctx: BrokerContext,
                  at: Time): RiskDecision
  {
    RiskDecision(id, proposal.intentId, profile.version, at,
                 Reasons(profile, proposal, OpenCount(positions), Exposure(positions), ctx),
                 OpenCount(positions), Exposure(positions) + proposal.Value(),
                 ctx.broker, ctx.observedAt, ctx.token, proposal)
  }

  function StateAfterRisk(d: RiskDecision): EntryState { if d.Pass() then RiskApproved else RiskBlocked }

  /** Versions 1, 2, ...: the last profile is the active one. */
  predicate ProfilesOk(profiles: seq<RiskProfile>) {
    forall i | 0 <= i < |profiles| :: profiles[i].version == i + 1 && profiles[i].Valid()
  }

  const BOOTSTRAP := RiskProfile(1, None, None, None, None)

  function WithBootstrap(profiles: seq<RiskProfile>): (r: seq<RiskProfile>)
    ensures |r| > 0
  {
    if profiles == [] then [BOOTSTRAP] else profiles
  }

  function ActiveProfile(profiles: seq<RiskProfile>): RiskProfile
    requires |profiles| > 0
  {
    profiles[|profiles| - 1]
  }

  /** Greatest evaluation time, then greatest id, among the decisions of one intent. */
  predicate IsLatestDecision(decisions: map<Id, RiskDecision>, intentId: Id, id: Id) {
    && id in decisions && decisions[id].intentId == intentId
    && (forall other | other in decisions && decisions[other].intentId == intentId ::
          NotAfter(decisions[other].evaluatedAt, other, decisions[id].evaluatedAt, id))
  }

  predicate NotAfter(t: Time, i: Id, t': Time, i': Id) { t < t' || (t == t' && i <= i') }

  lemma LatestDecisionUnique(decisions: map<Id, RiskDecision>, intentId: Id, i: Id, j: Id)
    requires IsLatestDecision(decisions, intentId, i) && IsLatestDecision(decisions, intentId, j)
    ensures i == j
  {
    assert NotAfter(decisions[i].evaluatedAt, i, decisions[j].evaluatedAt, j);
    assert NotAfter(decisions[j].evaluatedAt, j, decisions[i].evaluatedAt, i);
  }

  // ------------------------------------------------------------------ the engine

  class RiskEngine {
    const repository: Repository

    constructor (repository: Repository)
      ensures this.repository == repository
    {
      this.repository := repository;
    }

    method EnsureProfile() returns (profile: RiskProfile)
      modifies repository`riskProfiles
      ensures repository.riskProfiles == WithBootstrap(old(repository.riskProfiles))
      ensures profile == ActiveProfile(repository.riskProfiles)
    {
      if repository.riskProfiles == [] { repository.riskProfiles := [BOOTSTRAP]; }
      profile := repository.riskProfiles[|repository.riskProfiles| - 1];
    }

    /** `_risk_metrics`: one pass over the positions. */
    static method RiskMetrics(positions: seq<Position>) returns (count: nat, exposure: real)
      ensures count == OpenCount(positions) && exposure == Exposure(positions)
    {
      count, exposure := 0, 0.0;
      for i := 0 to |positions|
        invariant count == OpenCount(positions[..i]) && exposure == Exposure(positions[..i])
      {
        assert positions[..i + 1][..i] == positions[..i];
        if positions[i].IsOpen() {
          count := count + 1;
          exposure := exposure + (Abs(positions[i].facts.quantity) as real) * Price(positions[i]);
        }
      }
      assert positions[..|positions|] == positions;
    }

    /** Appends the reason of every limit that fails, in the gate's order. */
    static method CollectReasons(profile: RiskProfile, proposal: RiskProposal, count: nat, exposure: real,
                                 ctx: BrokerContext) returns (reasons: seq<RiskReason>)
      ensures reasons == Reasons(profile, proposal, count, exposure, ctx)
    {
      reasons := [];
      if ctx.status != BrokerReconciled || ctx.observedAt.None? || !ctx.runtimeReconciled {
        reasons := reasons + [BrokerTruthNotCurrent];
      }
      ghost var truth := If(!TruthCurrent(ctx), BrokerTruthNotCurrent);
      assert reasons == truth;
      if profile.maxPositionValue.Some? && proposal.Value() > profile.maxPositionValue.value {
        reasons := reasons + [MaxPositionValueExceeded];
      }
      ghost var value := truth + If(Exceeds(proposal.Value(), profile.maxPositionValue), MaxPositionValueExceeded);
      assert reasons == value;
      if profile.maxTradeLoss.Some? {
        if proposal.plannedMaxLoss.None? {
          reasons := reasons + [PlannedMaxLossUnknown];
        } else if proposal.plannedMaxLoss.value > profile.maxTradeLoss.value {
          reasons := reasons + [MaxTradeLossExceeded];
        }
      }
      ghost var loss := value + LossReasons(profile, proposal);
      assert reasons == loss;
      if profile.maxOpenPositions.Some? && count >= profile.maxOpenPositions.value {
        reasons := reasons + [MaxOpenPositionsReached];
      }
      ghost var open := loss + If(profile.maxOpenPositions.Some? && count >= profile.maxOpenPositions.value,
                                  MaxOpenPositionsReached);
      assert reasons == open;
      if profile.maxTotalExposure.Some? && exposure + proposal.Value() > profile.maxTotalExposure.value {
        reasons := reasons + [MaxTotalExposureExceeded];
      }
    }

    /** The gate: the decision is saved first, then the intent it moves. */
    method EvaluateEntry(intent: EntryIntent, proposal: RiskProposal, positions: seq<Position>, ctx: BrokerContext,
                         decisionId: Id, at: Time) returns (r: Outcome<RiskDecision>)
      requires decisionId !in repository.riskDecisions
      modifies repository`riskProfiles, repository`riskDecisions, repository`entryIntents
      ensures r.Returned? <==> intent.state == ReadyForRisk && proposal.intentId == intent.intentId
      ensures r.Returned? ==>
        && repository.riskProfiles == WithBootstrap(old(repository.riskProfiles))
        && r.value == Decide(decisionId, ActiveProfile(repository.riskProfiles), proposal, positions, ctx, at)
        && repository.riskDecisions == old(repository.riskDecisions)[decisionId := r.value]
        && repository.entryIntents ==
             old(repository.entryIntents)[intent.intentId := intent.(state := StateAfterRisk(r.value), updatedAt := at)]
      ensures r.Raised? ==>
        && repository.riskProfiles == old(repository.riskProfiles)
        && repository.riskDecisions == old(repository.riskDecisions)
        && repository.entryIntents == old(repository.entryIntents)
    {
      if intent.state != ReadyForRisk || proposal.intentId != intent.intentId { return Raised; }
      var profile := EnsureProfile();
      var count, exposure := RiskMetrics(positions);
      var reasons := CollectReasons(profile, proposal, count, exposure, ctx);
      var decision := RiskDecision(decisionId, intent.intentId, profile.version, at, reasons, count,
                                   exposure + proposal.Value(), ctx.broker, ctx.observedAt, ctx.token, proposal);
      repository.riskDecisions := repository.riskDecisions[decisionId := decision];
      var updated := intent.(state := if reasons == [] then RiskApproved else RiskBlocked, updatedAt := at);
      repository.entryIntents := repository.entryIntents[intent.intentId := updated];
      return Returned(decision);
    }

    method RearmBlockedEntry(id: Id, at: Time, reason: string) returns (r: Outcome<EntryIntent>)
      modifies repository`entryIntents
      ensures r.Returned? <==>
        !Blank(reason) && id in old(repository.entryIntents) && old(repository.entryIntents)[id].state == RiskBlocked
      ensures repository.entryIntents ==
        if r.Returned?
        then old(repository.entryIntents)[id := old(repository.entryIntents)[id].(state := ReadyForRisk, updatedAt := at)]
        else old(repository.entryIntents)
    {
      if Blank(reason) { return Raised; }
      if id !in repository.entryIntents { return Raised; }
      if repository.entryIntents[id].state != RiskBlocked { return Raised; }
      var updated := repository.entryIntents[id].(state := ReadyForRisk, updatedAt := at);
      repository.entryIntents := repository.entryIntents[id := updated];
      return Returned(updated);
    }

    /** A proposed change is stored and changes nothing else. */
    method ProposeProfileChange(limits: RiskProfile, reason: string, changeId: Id) returns (r: Outcome<ProfileChange>)
      requires changeId !in repository.profileChanges
      modifies repository`profileChanges
      ensures r.Returned? <==> !Blank(reason) && limits.(version := 1).Valid()
      ensures repository.profileChanges ==
        if r.Returned? then old(repository.profileChanges)[changeId := ProfileChange(changeId, false, limits, None)]
        else old(repository.profileChanges)
    {
      if Blank(reason) || !limits.(version := 1).Valid() { return Raised; }
      var change := ProfileChange(changeId, false, limits, None);
      repository.profileChanges := repository.profileChanges[changeId := change];
      return Returned(change);
    }

    /** A pending change is activated once, as the next version. */
    method ConfirmProfileChange(changeId: Id, confirmation: string) returns (r: Outcome<RiskProfile>)
      requires ProfilesOk(repository.riskProfiles)
      requires changeId in repository.profileChanges ==> repository.profileChanges[changeId].limits.(version := 1).Valid()
      modifies repository`profileChanges, repository`riskProfiles
      ensures r.Returned? <==>
        && confirmation == "CONFIRM"
        && changeId in old(repository.profileChanges) && !old(repository.profileChanges)[changeId].confirmed
      ensures r.Returned? ==>
        var before := WithBootstrap(old(repository.riskProfiles));
        && r.value == old(repository.profileChanges)[changeId].limits.(version := |before| + 1)
        && repository.riskProfiles == before + [r.value]
        && repository.profileChanges == old(repository.profileChanges)
             [changeId := old(repository.profileChanges)[changeId]
                .(confirmed := true, resultingVersion := Some(r.value.version))]
      ensures r.Raised? ==>
        repository.riskProfiles == old(repository.riskProfiles) && repository.profileChanges == old(repository.profileChanges)
      ensures ProfilesOk(repository.riskProfiles)
    {
      if confirmation != "CONFIRM" { return Raised; }
      if changeId !in repository.profileChanges { return Raised; }
      var change := repository.profileChanges[changeId];
      if change.confirmed { return Raised; }
      var current := EnsureProfile();
      var profile := change.limits.(version := current.version + 1);
      repository.riskProfiles := repository.riskProfiles + [profile];
      repository.profileChanges :=
        repository.profileChanges[changeId := change.(confirmed := true, resultingVersion := Some(profile.version))];
      return Returned(profile);
    }
  }
}
