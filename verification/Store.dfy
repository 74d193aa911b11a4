/** The durable repository: one table per record kind, each a map with upsert. */
module Store {
  import opened Domain

  class Repository {
    var executionRequests: map<Id, ExecutionRequest>
    var positions: map<Id, Position>
    var managementProfiles: map<Id, ManagementProfile>
    var managementRules: map<Id, ManagementRule>
    var exitProposals: map<Id, ExitProposal>
    var exitReviews: map<Id, Review>
    var entryIntents: map<Id, EntryIntent>
    var entryReviews: map<Id, Review>
    var riskProfiles: seq<RiskProfile>  // versions 1, 2, ... in order; the last one is active
    var riskDecisions: map<Id, RiskDecision>
    var profileChanges: map<Id, ProfileChange>
    var executionApprovals: map<Id, ExecutionApproval>
    var intakeOutcomes: map<Id, OutcomeRecord>
    var intakeEpisodes: map<Id, Episode>
    var sourceObservations: map<Id, SourceObservation>

    constructor ()
      ensures executionRequests == map[]
      ensures positions == map[] && managementProfiles == map[] && managementRules == map[]
      ensures exitProposals == map[] && exitReviews == map[]
      ensures entryIntents == map[] && entryReviews == map[]
      ensures riskProfiles == [] && riskDecisions == map[] && profileChanges == map[]
      ensures executionApprovals == map[]
      ensures intakeOutcomes == map[] && intakeEpisodes == map[] && sourceObservations == map[]
    {
      executionRequests := map[];
      positions, managementProfiles, managementRules := map[], map[], map[];
      exitProposals, exitReviews := map[], map[];
      entryIntents, entryReviews := map[], map[];
      riskProfiles, riskDecisions, profileChanges := [], map[], map[];
      executionApprovals := map[];
      intakeOutcomes, intakeEpisodes, sourceObservations := map[], map[], map[];
    }
  }
}
