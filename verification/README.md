# TradeMonitor: model and proofs

TradeMonitor is a control plane between trading decisions and brokers. Its code is a durable
store plus a coordinating core whose calls hold one lock. What it promises is about whole runs:
what retries, crashes, restarts, stale broker snapshots and competing triggers can never do.
This project models that core in Dafny and proves those promises for every run.

The parts and how they fit:

| file | part |
|---|---|
| `Domain.dfy`, `Store.dfy` | records, enums and the repository's tables |
| `BrokerSimulator.dfy`, `Engine.dfy` | the faulty broker and Module M, as classes over fields and as protocol steps |
| `ExecutionRuns.dfy`, `Convergence.dfy` | every interleaving of deploy, reconcile, cancel, faults and crashes; convergence |
| `Positions.dfy`, `BrokerTruth.dfy` | the two-pass position merge; which snapshots count |
| `Rules.dfy`, `RuleRefinement.dfy` | the rule engine; trailing stop and profit lock against their offline definitions |
| `ExitMonitor.dfy`, `Reviews.dfy`, `ExitReview.dfy`, `ExitRuns.dfy` | exit proposals, their reviews, and runs of the position side |
| `ExitFailures.dfy`, `ExitAuthority.dfy`, `ExitCalls.dfy` | two runs in which an exit goes wrong; under which authority an EXIT order is sent; Core's exit calls as steps of those runs |
| `Entry.dfy`, `Risk.dfy`, `Requests.dfy` | monitoring, entry review, the Risk gate, handoff to Module M |
| `CoreRuns.dfy`, `CoreSafety.dfy`, `MisledEntry.dfy` | runs of the entry side; how many orders, under which authority; the run in which that authority fails |
| `ProfileRuns.dfy` | Risk administration: how often a change becomes the active profile |
| `Approval.dfy`, `ApprovalRuns.dfy` | SEMI_AUTO approvals and what it takes to reach a real broker |
| `Intake.dfy`, `IntakeRuns.dfy`, `IntakeCuts.dfy` | observations, outcomes and episodes; the same when ingests die half-way |
| `CoreManager.dfy` | Core's calls and gates, proved to be steps of the run models |

How things are modelled. A component whose methods write the store is a class over the repository.
Each method is proved equal to a specification function of the old state, and the run models are
state machines over exactly those functions. Generated identifiers and the clock are parameters;
identifiers are assumed fresh. Timestamps are integers, decimals are reals, hashes are the hashed
tuple itself. Core's lock makes Core calls atomic
with respect to each other but not to crashes. Deploy, reconcile and cancel of an order are split
at every durable write and broker call; entry evaluation, entry review, the Risk gate, the broker
reconcile, rule evaluation, exit proposals, adoption, ingest and the confirmation of a profile change
can be cut short between any two of their writes. The loops of the classes keep exactly the
intermediate stores the cuts describe as their invariants. Histories (calls a broker received, what a Risk decision was made on, the ids of rules
as they trigger, what cuts wrote or left behind) are recorded beside the state and never read by it.

## What the proofs brought out

Where a promise does not hold as it stands, the code is kept as it is, the condition under which it
holds is proved in both directions, and a run shows that the other case happens.

- A broker reconcile cut short leaves some keys of the book at the newer snapshot while the context
  describes the older one. A replay of the older one then makes Core call itself reconciled. The
  book is right if and only if what the cut saved changed nothing that was open
  (`BrokerTruth.ReplayRightIff`, over whole histories `BrokerTruth.LastWriterWins`).
- An ENTRY order sent in that state goes out on holdings Risk never judged, past the open-position
  limit (`MisledEntry.EntrySentOnUnseenHoldings`). It is sent on the holdings Risk judged if and only
  if the cuts, before the decision and since the last snapshot, amount to the same
  (`CoreSafety.SubmissionIsAuthorised`); while no reconcile is cut short it always is
  (`CoreSafety.WholeReconcilesKeepAuthority`).
- The reconcile saves positions before it satisfies the exits of those it closed. Cut between, an
  approved exit stays active on a closed position; exits stay on open positions if and only if each
  exit of a closed one had been satisfied (`ExitRuns.CutKeepsExitsOpenIff`). The next whole reconcile
  settles it if and only if its snapshot does not show the position open again
  (`ExitRuns.NextReconcileSettles`); if it does, the old exit stands over the new exposure
  (`ExitFailures.StaleExitStandsOverNewExposure`).
- A rule is saved as TRIGGERED before its exit proposal is. After a crash with `saved` rules and
  `consumed` proposals written, a trigger is proposed, then or ever, if and only if it was among the
  consumed; a rule not yet saved stays live (`ExitRuns.TriggerSurvivesIff`).
- Adoption saves the MANAGED position before its profile. Cut between, the position stays MANAGED
  without a profile for good: no rule can be put on it and it cannot be adopted again
  (`ExitRuns.CutAdoptionIsForGood`).
- Resolving a User decision on an exit does not look at the proposal's status again, so it can revive
  a superseded proposal and put two exit paths on one position
  (`ExitFailures.LateApprovalRevives`, call by call), both of which Core may hand over
  (`ExitAuthority.RevivedExitCompetes`). It keeps one path exactly when `SafeToResolve`
  holds before the call (`ExitReview.ResolveKeepsExitsIffSafe`).
- The exit deploy gate checks size and not side. A gated exit reduces the position if and only if
  the position kept its sign since the request was built (`Requests.GatedExitReducesIffSignKept`).
- The tick that arms a trailing stop triggers it if and only if the premium is not positive
  (`RuleRefinement.ArmingTickTriggersIff`).
- Broker truth whose observation time went back is never recorded, however often it is read
  (`Convergence.ConvergesIffNotStale`).
- Intake supersedes an episode before it stores the next one. Cut between, the opportunity has no
  active episode, and an observation made before the superseded one ended opens one that overlaps it.
  A call keeps the episodes in order if and only if it does not open one that late
  (`IntakeCuts.CallKeepsOrderIff`); sending the same observation again heals the tables
  (`IntakeCuts.RetryHeals`).
- A confirmed profile change is stored as a version before it is marked confirmed. A change is
  activated once for each confirmation cut between the two and once for the completed one
  (`ProfileRuns.ActivationsCounted`), so old limits can return (`ProfileRuns.PendingChangeReturns`).
- A resolver that calls a newer observation stale is the one way an episode's time can fall behind
  (`IntakeRuns.EpisodeStepTakesMaximum`).

## Model

| member | source | states |
|---|---|---|
| `BrokerSimulator.SimulatedExecutionBroker.SubmitOrder` | src/trademonitor/brokers/execution_simulator.py:109-142 | a known client id is answered with its existing order and consumes no fault; a new one is refused before acceptance, accepted with the answer lost, or accepted and answered, as the fault script says |
| `BrokerSimulator.SimulatedExecutionBroker.FetchOrderByClientId` | src/trademonitor/brokers/execution_simulator.py:155-163 | a pending failure raises and is used up, a pending delay hides the order and is used up, otherwise the order is shown |
| `BrokerSimulator.SimulatedExecutionBroker.FetchOrder` | src/trademonitor/brokers/execution_simulator.py:150-153 | a read by broker id is subject to failures but not to visibility delays |
| `BrokerSimulator.SimulatedExecutionBroker.MaybeFailFetch` | src/trademonitor/brokers/execution_simulator.py:144-148 | every fetch is counted; exactly one pending failure is consumed by a failing one |
| `BrokerSimulator.SimulatedExecutionBroker.CancelOrder` | src/trademonitor/brokers/execution_simulator.py:165-178 | a terminal order is reported unchanged, an open one becomes CANCELLED, an unknown one raises |
| `BrokerSimulator.SimulatedExecutionBroker.SetOrderTruth` | src/trademonitor/brokers/execution_simulator.py:180-203 | a later broker transition keeps omitted fields and refuses fills outside the order |
| `Engine.ExecutionEngine.Deploy` | src/trademonitor/execution/engine.py:37-114 | READY goes through a durable SUBMITTING write, one broker call and a final write; anything past READY is only reconciled; an unresolvable instrument or a foreign broker changes nothing |
| `Engine.ExecutionEngine.Reconcile` | src/trademonitor/execution/engine.py:116-187 | terminal requests are left alone, failure and absence become UNCERTAIN, older observations are ignored, anything else is the mapped broker truth |
| `Engine.ExecutionEngine.CancelRequest` | src/trademonitor/execution/engine.py:189-216 | only a known broker order is cancelled; the answer is applied like any broker truth |
| `ExecutionRuns.SubmittedAtMostOnce` | src/trademonitor/execution/engine.py:40-114 | in every interleaving with crashes at every boundary and under every fault script, no idempotency key is submitted twice and the broker never holds two orders for one client id |
| `ExecutionRuns.EngineAgreesWithBroker` | src/trademonitor/execution/engine.py:116-216 | over any continuation of any run: terminal requests never change, READY is never re-entered, broker time never goes back, identity is frozen, and every recorded fact, a terminal status above all, was reported by the broker in one snapshot |
| `ExecutionRuns.RecordedFillsAreMonotone` | src/trademonitor/execution/engine.py:236-263 | when broker fills and times only grow, recorded fills never shrink and never exceed the broker's fill or the requested quantity |
| `ExecutionRuns.EngineDeployIsARun` | src/trademonitor/execution/engine.py:37-114 | an uninterrupted deploy is a run of the protocol steps, so the run theorems cover it |
| `ExecutionRuns.EngineReadsAreRuns` | src/trademonitor/execution/engine.py:116-216 | so are an uninterrupted reconcile and cancel |
| `ExecutionRuns.StepKeeps` | src/trademonitor/execution/engine.py:37-216 | every step, fault and crash keeps the protocol invariant and only lets requests evolve |
| `Convergence.ReconcilesConverge` | src/trademonitor/execution/engine.py:116-187 | with f fetch failures and d visibility delays left, the first f + d reconciles at most end UNCERTAIN and learn nothing; from reconcile f + d + 1 on the request is exactly the mapped broker truth and stays so |
| `Convergence.ConvergesIffNotStale` | src/trademonitor/execution/engine.py:159-170 | that truth lands if and only if its observation is not older than the last accepted one |
| `Positions.PositionManager.Reconcile` | src/trademonitor/positions/manager.py:37-148 | the two loops over a broker's stored positions equal the merge, touch no other broker's positions, keep the store coherent, and raise exactly the events of rows that materially changed or closed |
| `Positions.MergeIsSimple` | src/trademonitor/positions/manager.py:44-148 | the two-pass merge is the simple map: rows present overwrite, open positions absent are closed, unknown rows are added UNMANAGED |
| `Positions.MergePreserves` | src/trademonitor/positions/manager.py:71-89 | a known position keeps id, origin, management status and first-seen time; it is OPEN exactly when its quantity is not zero |
| `Positions.MergeIdempotent` | src/trademonitor/positions/manager.py:44-148 | merging the same snapshot again gives the same book |
| `Positions.SecondMergeIsSilent` | src/trademonitor/positions/manager.py:258-283 | and raises no events |
| `Positions.RowSavesAreCuts` | src/trademonitor/positions/manager.py:44-109 | between any two row saves the store is coherent and holds the cut merge of the rows saved |
| `Positions.ClosingSavesAreCuts` | src/trademonitor/positions/manager.py:110-148 | between any two closing saves it holds the cut merge of all rows and the keys closed so far |
| `Positions.PositionManager.Adopt` | src/trademonitor/positions/manager.py:162-224 | only an open UNMANAGED position with a valid profile is adopted; status and profile are written together |
| `BrokerTruth.LastWriterWins` | src/trademonitor/core/manager.py:818-866 | after any deliveries in any order, with duplicates, outages, restarts and reconciles cut short, the context describes the newest accepted snapshot, and the open positions are exactly its non-zero rows if and only if no cut since left a key otherwise |
| `BrokerTruth.LatestIsGreatest` | src/trademonitor/core/recovery.py:28-37 | the snapshot that counts is one that was delivered, and none delivered is newer |
| `BrokerTruth.DeliveryOrderIrrelevant` | src/trademonitor/core/manager.py:824-846 | two histories of the same snapshots end with the same Risk token, and with the same open book unless a cut disturbed one of them |
| `BrokerTruth.NextAcceptRepairs` | src/trademonitor/core/manager.py:818-866 | however much of a reconcile a crash lost, the next accepted snapshot makes the account describe it |
| `BrokerTruth.ReplayRightIff` | src/trademonitor/core/manager.py:824-830 | whatever was lost, a replay of the snapshot before leaves the right book if and only if the rows and closings saved before the crash changed nothing that was open |
| `BrokerTruth.ReplayAfterCrashMisleads` | src/trademonitor/core/manager.py:824-830 | three deliveries after which Core is reconciled with a book its own token contradicts |
| `Rules.ManagementRuleEngine.Evaluate` | src/trademonitor/positions/rules.py:162-175 | every live rule of one open MANAGED position is evaluated once, in some order; all other rules stay |
| `Rules.EvaluationTriggersOnce` | src/trademonitor/positions/rules.py:184-229 | a rule reports a trigger exactly when it becomes TRIGGERED; a TRIGGERED or CANCELLED rule never changes or reports again |
| `Rules.ManagementRuleEngine.InstallPolicy` | src/trademonitor/positions/rules.py:85-127 | the whole batch is validated before anything is stored |
| `Rules.PolicyIsItsRules` | src/trademonitor/positions/rules.py:102-114 | an installed policy is each of its rules under its own id and the policy's name, beside all earlier rules |
| `Rules.ManagementRuleEngine.CancelRule` | src/trademonitor/positions/rules.py:129-160 | any rule of an open MANAGED position can be cancelled, a triggered one too; cancelling twice changes nothing |
| `RuleRefinement.TrailingStopRefines` | src/trademonitor/positions/rules.py:231-278 | for one sign and positive premiums, gaps included, the incremental rule triggers exactly at the first tick past the offline stop computed from the best premium since activation |
| `RuleRefinement.BestIsExtreme` | src/trademonitor/positions/rules.py:247-262 | that best premium is one that was seen, and none seen since activation is better |
| `RuleRefinement.StopOnlyRatchets` | src/trademonitor/positions/rules.py:250-266 | the stop only moves in the favourable direction |
| `RuleRefinement.ArmingTickTriggersIff` | src/trademonitor/positions/rules.py:413-421 | an arming or ratcheting tick triggers if and only if the premium is not positive |
| `RuleRefinement.ProfitLockRefines` | src/trademonitor/positions/rules.py:280-313 | the profit lock triggers exactly at the first tick at or below the floor after one at or above activation, and never on the arming tick |
| `RuleRefinement.TrailingRun` | src/trademonitor/positions/rules.py:184-229 | the offline trailing definition is what the stored rule does over whole tick sequences |
| `RuleRefinement.ProfitLockRun` | src/trademonitor/positions/rules.py:184-229 | and so is the profit-lock one |
| `ExitMonitor.ExitMonitor.ProposeExit` | src/trademonitor/positions/exit.py:100-240 | on any store, an admissible proposal is suppressed or coalesced by the first listed full exit, or created; a created full exit supersedes partial ones |
| `ExitMonitor.ExitMonitor.ConsumeRuleEvaluations` | src/trademonitor/positions/exit.py:59-98 | every trigger of a batch becomes a full-exit proposal, in order |
| `ExitMonitor.ExitMonitor.DayEndReview` | src/trademonitor/positions/exit.py:242-257 | a DAY position at or past its cut-off gets a deterministic full exit, nothing else does |
| `ExitMonitor.ExitMonitor.ConvertPosition` | src/trademonitor/positions/exit.py:259-293 | a conversion is accepted exactly when position and resulting profile are valid, and changes holding intent only |
| `ExitMonitor.ExitMonitor.ReconcileWithBroker` | src/trademonitor/positions/exit.py:295-312 | when broker exposure is gone every active proposal of the position, and no other, is satisfied |
| `ExitMonitor.ProposedKeepsOnePath` | src/trademonitor/positions/exit.py:119-207 | a proposal leaves one exit path, answers with an active proposal, and touches no other position |
| `ExitMonitor.ProposedNeverDemotes` | src/trademonitor/positions/exit.py:138-191 | no later proposal demotes a class, withdraws an approval, or drops a reason or trigger |
| `ExitMonitor.BatchGathers` | src/trademonitor/positions/exit.py:59-98 | a batch with a trigger leaves one active full exit of the greatest class, with the union of reasons and rule ids, APPROVED exactly when its class is not strategic or it was approved before |
| `ExitMonitor.BatchOrderIrrelevant` | src/trademonitor/positions/exit.py:59-98 | as sets, what the batch leaves does not depend on its order |
| `Reviews.FindLatest` | src/trademonitor/persistence/repository.py:565-572 | the latest review of a subject by time, then id, when there is one |
| `ExitReview.ExitReviewCoordinator.RequestReview` | src/trademonitor/positions/review.py:43-188 | only a matching APPROVE approves the proposal; silence, a wrong review id or another verdict leave it pending |
| `ExitReview.ExitReviewCoordinator.ResolveUserDecision` | src/trademonitor/positions/review.py:190-234 | the User's answer to the latest review becomes the proposal's status, whatever its status was |
| `ExitReview.ResolveKeepsExitsIffSafe` | src/trademonitor/positions/review.py:198-224 | the resolution keeps one path and open positions if and only if it does not approve, or the proposal is still active, or nothing competes with it |
| `ExitReview.ResolveCanReviveSuperseded` | src/trademonitor/positions/review.py:198-224 | in any store, approving an inactive proposal beside an active one of its position, either of them an exit of everything, breaks the one path |
| `ExitFailures.LateApprovalRevives` | src/trademonitor/positions/review.py:198-224 | from an empty store, by accepted calls only: a strategic exit is proposed, the Agent is silent, a stop-loss supersedes it, the User approves the open review, and the position has two exit paths |
| `ExitRuns.OneExitPathPerPosition` | src/trademonitor/positions/exit.py:119-207 | in every run whose User resolutions were safe, whatever is cut short, the active proposals of a position are one full exit and nothing else, or only partial ones; their position is MANAGED, and open unless a reconcile cut short left the proposal behind and no whole one of its broker followed |
| `ExitRuns.SafeStepKeepsPaths` | src/trademonitor/positions/exit.py:100-312 | every step, whole or cut short, and every safe resolution keeps one path and leaves no exit on a closed position but those a cut left behind |
| `ExitRuns.NoTriggerIsLost` | src/trademonitor/core/manager.py:1025-1042 | in every run every rule that ever triggered did so once and is done for good; a stored proposal names it unless a crash inside an evaluation lost it, nothing is lost without one, and proposals name no other rule |
| `ExitRuns.TriggerSurvivesIff` | src/trademonitor/core/manager.py:1031-1039 | after a crash with some rules saved and some evaluations consumed, on any desk and whatever happens later: a saved trigger is named by a proposal if and only if it was consumed or named before; a rule not yet saved stays live |
| `ExitRuns.CutKeepsExitsOpenIff` | src/trademonitor/core/manager.py:848-873 | wherever a reconcile dies, exits stay on open positions if and only if each active exit of a position it closed was already satisfied |
| `ExitRuns.NextReconcileSettles` | src/trademonitor/core/manager.py:870-873 | the next whole reconcile of the broker leaves an active exit active, and untouched, if and only if its snapshot shows exposure under the key of the position; none is left behind after it |
| `ExitRuns.LeftBehindStays` | src/trademonitor/core/manager.py:824-846 | until then nothing but a reconcile or the User's own decision changes an exit left behind |
| `ExitFailures.StaleExitStandsOverNewExposure` | src/trademonitor/core/manager.py:848-873 | a run after which an approved exit of everything, decided for a position since closed, stands over a new exposure |
| `ExitFailures.ShownByBroker` | src/trademonitor/positions/manager.py:37-148 | the broker steps of that run are reconciles of three snapshots: ten long, nothing, four short |
| `ExitRuns.ManagementBoundary` | src/trademonitor/positions/manager.py:162-207 | only adoption, whole or cut short, manages a position; it stays MANAGED through every reconcile, close and reopen; it has a profile exactly when its adoption was not cut short, every rule belongs to such a position and every proposal to a MANAGED one |
| `ExitRuns.CutAdoptionIsForGood` | src/trademonitor/positions/manager.py:206-207 | a position whose adoption was cut short never gets a profile, never takes a rule and can never be adopted again |
| `ExitRuns.ReconcileIsBrokerMove` | src/trademonitor/positions/manager.py:37-148 | the position manager's reconcile is the broker step of these runs |
| `ExitRuns.CutIsBrokerMove` | src/trademonitor/positions/manager.py:37-148 | and so is every store it passes through |
| `Entry.EntryMonitor.CreateIntent` | src/trademonitor/entry/monitor.py:28-35 | a taken id is an error; an episode with an active intent keeps it; otherwise the intent is stored |
| `Entry.EntryMonitor.Evaluate` | src/trademonitor/entry/monitor.py:40-118 | one tick, through its intermediate saves, ends in the state the conditions call for |
| `Entry.ReadyIffEverythingHolds` | src/trademonitor/entry/monitor.py:40-118 | an intent becomes ready for review exactly when it is monitored, in its horizon, not invalidated, and trigger, confirmation and premium zone all hold |
| `Entry.EvaluationStaysInMonitoring` | src/trademonitor/entry/monitor.py:40-118 | no record a tick saves enters a state owned by a later gate |
| `Entry.EntryMonitor.Rearm` | src/trademonitor/entry/monitor.py:120-126 | only a retreating intent returns to monitoring |
| `Entry.EntryReviewCoordinator.RequestReview` | src/trademonitor/entry/review.py:33-180 | the review record and the intent after any answer, exactly: only a matching APPROVE moves the intent to Risk, everything else waits for the User |
| `Entry.EntryReviewCoordinator.ResolveUserDecision` | src/trademonitor/entry/review.py:182-225 | the User's answer is recorded on the latest review and moves a waiting intent accordingly |
| `Risk.PassIffWithinLimits` | src/trademonitor/risk/engine.py:67-111 | an entry passes exactly when broker truth is current and no configured limit is exceeded; an unknown loss fails a loss limit |
| `Risk.RiskEngine.EvaluateEntry` | src/trademonitor/risk/engine.py:48-142 | the decision is stored with the facts it was made on, then the intent becomes RISK_APPROVED or RISK_BLOCKED |
| `Risk.RiskEngine.RiskMetrics` | src/trademonitor/risk/engine.py:271-290 | count and exposure run over open positions, MANAGED or not |
| `Risk.RiskEngine.CollectReasons` | src/trademonitor/risk/engine.py:67-111 | one reason for each limit that fails, in the gate's order |
| `Risk.RiskEngine.RearmBlockedEntry` | src/trademonitor/risk/engine.py:144-170 | only a blocked intent returns to Risk, with a reason |
| `Risk.RiskEngine.ConfirmProfileChange` | src/trademonitor/risk/engine.py:222-270 | a whole call activates a pending change once, as the next version; earlier versions stay |
| `Risk.RiskEngine.ProposeProfileChange` | src/trademonitor/risk/engine.py:178-220 | a proposed change leaves the active profile alone |
| `ProfileRuns.ActivationsCounted` | src/trademonitor/risk/engine.py:222-259 | in every run a change is activated exactly once for each confirmation that died between its two saves and once more if confirmed, never after that, always with its own limits; versions count up and none is dropped |
| `ProfileRuns.PendingChangeReturns` | src/trademonitor/risk/engine.py:252-259 | a run in which a change activated by a cut confirmation, and since replaced, becomes active again |
| `ProfileRuns.ConfirmIsAStep` | src/trademonitor/risk/engine.py:222-270 | a whole confirmation is one step of those runs |
| `Risk.LatestDecisionUnique` | src/trademonitor/persistence/repository.py:854-860 | latest by time, then id, names one decision |
| `Requests.ExecutionRequestBuilder.FromEntry` | src/trademonitor/execution/requests.py:40-101 | exactly an approved intent with its latest PASS under the active profile yields a request, sized and priced by the decision, stored once per key |
| `Requests.ExecutionRequestBuilder.FromExit` | src/trademonitor/execution/requests.py:103-154 | exactly an approved proposal on open MANAGED exposure of this broker yields a request, stored once per key |
| `Requests.ExitQuantityInRange` | src/trademonitor/execution/requests.py:156-168 | an exit is sized between one and the whole exposure or refused; EXIT_ALL is the whole |
| `Requests.PercentExitsShareExposure` | src/trademonitor/execution/requests.py:156-168 | percent exits adding up to at most 100 never ask for more than the exposure together |
| `Requests.GatedExitReducesIffSignKept` | src/trademonitor/core/manager.py:1392-1406 | a fill of a gated exit moves the position towards zero without crossing it, to zero for a filled EXIT_ALL, if and only if the position kept its sign |
| `CoreSafety.EpisodeEntersOnce` | src/trademonitor/risk/engine.py:62-123 | in every run from an empty store every ENTRY request and submission belongs to a stored intent, no two ENTRY requests and no two ENTRY submissions belong to one episode, and recorded and broker fills stay within the quantity planned in the intent's latest decision, a PASS |
| `CoreSafety.SubmissionIsAuthorised` | src/trademonitor/core/manager.py:1361-1390 | whenever an order reaches the broker it was durably SUBMITTING, and an ENTRY order is sent under the latest decision, a PASS, of the active profile, in a usable market, on reconciled truth; and on the very holdings Risk judged, with the open-position limit kept, if and only if what reconciles cut short wrote agrees with what Risk saw |
| `CoreSafety.WholeReconcilesKeepAuthority` | src/trademonitor/core/manager.py:1361-1390 | in runs in which no reconcile is cut short, every ENTRY order is sent on the very holdings Risk judged, with the limit kept |
| `MisledEntry.EntrySentOnUnseenHoldings` | src/trademonitor/core/manager.py:824-846 | a run that ends with an ENTRY order sent on holdings Risk never saw, past the open-position limit |
| `CoreSafety.SameTokenSameHoldings` | src/trademonitor/core/manager.py:1408-1431 | two snapshots with one Risk token have the same open keys, quantities and average prices |
| `CoreSafety.ListingCounts` | src/trademonitor/risk/engine.py:271-273 | Risk's open count is the size of the open book |
| `CoreSafety.LockedKeeps` | src/trademonitor/core/manager.py:232-616 | every step of the entry side, broker deliveries and calls cut short included, keeps its invariant |
| `CoreRuns.CompletedEntryCallsAreSteps` | src/trademonitor/core/manager.py:232-296 | uncut evaluation and review calls are steps of the entry-side runs |
| `Approval.SemiAutoApprovalCoordinator.Request` | src/trademonitor/execution/approval.py:37-63 | a READY request gets one open decision at a time |
| `Approval.SemiAutoApprovalCoordinator.Decide` | src/trademonitor/execution/approval.py:65-96 | only the open decision of the same order is taken, and only on explicit confirmation |
| `Approval.SemiAutoApprovalCoordinator.AssertCurrentApproval` | src/trademonitor/execution/approval.py:98-110 | passes exactly on a latest, APPROVED, unexpired approval of this very order |
| `Approval.LatestApprovalUnique` | src/trademonitor/persistence/repository.py:927-933 | latest by time, then id, names one approval |
| `ApprovalRuns.RealWritesAreGranted` | src/trademonitor/core/manager.py:578-594 | over restarts and mode changes, an order reaches a real broker only armed and outside PAPER, and in SEMI_AUTO only if the User's last word on it is an APPROVE at most one TTL old at the gate; a newer PENDING or REJECTED cuts it off |
| `ApprovalRuns.ApprovalSpentOnce` | src/trademonitor/execution/approval.py:98-110 | one approval yields at most one submission |
| `ApprovalRuns.PaperNeverReachesRealBroker` | src/trademonitor/core/manager.py:1234-1244 | a PAPER run never submits to a real broker |
| `ApprovalRuns.WriteIsLatest` | src/trademonitor/persistence/repository.py:927-933 | with times that increase, the record just written is the latest of its request and no other request's latest changes |
| `Intake.TradeIntakeManager.Ingest` | src/trademonitor/candidates/manager.py:58-154 | blank provenance is refused, an exact repeat is answered from the store, anything else is stored under its outcome and the episode the policy decides on |
| `Intake.TradeIntakeManager.SettleEpisode` | src/trademonitor/candidates/manager.py:123-150 | an episode is opened, continued, left alone or superseded by a new one |
| `IntakeRuns.EpisodesTakeTurns` | src/trademonitor/candidates/manager.py:72-154 | after any whole ingests every outcome has exactly one active episode, its episodes are ordered and do not overlap, every observation refers to a stored outcome and episode of its own, and, unless a resolver answers STALE, the active episode's time is the greatest ever observed |
| `IntakeRuns.EpisodeStepTakesMaximum` | src/trademonitor/candidates/relevance.py:39-72 | one observation leaves the episode's time at the maximum, except exactly when a resolver calls a newer one stale |
| `IntakeRuns.ReplayChangesNothing` | src/trademonitor/candidates/manager.py:72-96 | an exact replay, however late and whatever a resolver would say, changes nothing in the store |
| `IntakeRuns.EpisodeStepKeepsOrderIff` | src/trademonitor/candidates/manager.py:123-150 | one observation keeps the episodes in order if and only if it does not open one, with none active, before an earlier one ended |
| `IntakeCuts.CutEpisodesTakeTurns` | src/trademonitor/candidates/manager.py:98-154 | after any ingests, however many of them cut short, no opportunity has two active episodes, every observation refers to a stored outcome and episode of its own, and the episodes take turns unless one was opened late |
| `IntakeCuts.CallKeepsOrderIff` | src/trademonitor/candidates/manager.py:98-154 | a call, whole or cut anywhere, keeps the episodes in order if and only if it does not get to open one for a known opportunity with none active before an earlier one ended |
| `IntakeCuts.CutLeavesDormantIff` | src/trademonitor/candidates/manager.py:123-150 | a cut leaves its opportunity without an active episode exactly before its first is stored or between closing one and storing the next; other opportunities are untouched |
| `IntakeCuts.NextIngestRestores` | src/trademonitor/candidates/manager.py:123-150 | the next accepted observation of an opportunity leaves it an active episode again |
| `IntakeCuts.RetryHeals` | src/trademonitor/candidates/manager.py:72-154 | wherever an ingest died, the same observation sent again restores one active episode each and their order |
| `IntakeCuts.LateArrivalOverlaps` | src/trademonitor/candidates/manager.py:144-148 | after a cut between closing and opening, an observation older than the closed episode opens one that overlaps it |
| `IntakeCuts.LastSaveCompletes` | src/trademonitor/candidates/manager.py:152-154 | the stages of a cut end in what a whole ingest writes |
| `CoreManager.CoreTMManager.ReconcileBrokerTruth` | src/trademonitor/core/manager.py:802-944 | a failed or foreign reading suspends, a replay confirms, an older snapshot is ignored, a newer one replaces the broker's book and satisfies the exits of positions it closed |
| `CoreManager.CoreTMManager.EvaluatePositionManagement` | src/trademonitor/core/manager.py:1025-1042 | rules first, then one proposal per trigger: exactly the tick step of the position-side runs |
| `CoreManager.CoreTMManager.EvaluateEntryRisk` | src/trademonitor/core/manager.py:327-380 | Risk judges all open positions and the broker context of this moment |
| `CoreManager.CoreTMManager.PrepareEntryExecutionRequest` | src/trademonitor/core/manager.py:447-494 | an entry request is handed over exactly while market, broker truth and permission are current |
| `CoreManager.CoreTMManager.PrepareExitExecutionRequest` | src/trademonitor/core/manager.py:496-523 | an exit request is handed over exactly on current truth of its own broker, for an authorised proposal with its limit price or an existing request |
| `ExitAuthority.ExitSubmissionIsAuthorised` | src/trademonitor/core/manager.py:1392-1406 | whenever an EXIT order reaches the broker, broker truth is current, its stored proposal is APPROVED, its position open and MANAGED, and its size at most the exposure, all of it for an exit of everything |
| `ExitAuthority.ProposalExitsOnce` | src/trademonitor/execution/requests.py:128-134 | every exit submitted is of a stored proposal, and no proposal is submitted twice |
| `ExitAuthority.SentExitDoesNotCompete` | src/trademonitor/positions/exit.py:119-207 | while User resolutions are safe, an EXIT order that reaches the broker is of the only active exit of its position, or it and all other active ones are partial |
| `ExitAuthority.RevivedExitCompetes` | src/trademonitor/positions/review.py:198-224 | once a User has revived an exit beside an approved one that excludes it, both may be handed over |
| `ExitCalls.DeployIsAJointRun` | src/trademonitor/core/manager.py:571-594 | a deploy the exit gate lets through is a run of the exit-side steps |
| `ExitCalls.ExitHandoffIsAJointStep` | src/trademonitor/core/manager.py:496-523 | an exit handoff, new or repeated, is one of those steps |
| `ExitCalls.AcceptIsAJointRun` | src/trademonitor/core/manager.py:848-873 | an accepted snapshot is two of them: the position tables with the exits it closes, then the context |
| `CoreManager.CoreTMManager.DeployExecutionRequest` | src/trademonitor/core/manager.py:571-594 | Module M runs exactly when mode, approval and authorisation gates all allow it; otherwise neither store nor broker is touched |
| `CoreManager.CoreTMManager.WriteEnabled` | src/trademonitor/core/manager.py:1234-1244 | the mode's write gate, with the User's current approval in SEMI_AUTO |
| `CoreManager.DeployIsACoreRun` | src/trademonitor/core/manager.py:571-594 | a deploy let through is a run of the entry-side steps |
| `CoreManager.AcceptIsACoreStep` | src/trademonitor/core/manager.py:848-866 | an accepted snapshot is one step of the entry-side runs |
| `CoreManager.CutIsACoreStep` | src/trademonitor/core/manager.py:848-866 | the store between any two saves of the merge is what an interrupted delivery of the entry-side runs leaves |
| `CoreManager.AcceptIsADeskStep` | src/trademonitor/core/manager.py:870-873 | an accepted snapshot is one step of the position-side runs, exits of closed positions and those left behind earlier included |
| `CoreManager.LoopCutIsSatisfied` | src/trademonitor/core/manager.py:870-873 | wherever the loop over closed positions dies, at any position and with any number of its exits saved, the store is that of the cut step of those runs |
| `CoreManager.RiskIsACoreStep` | src/trademonitor/core/manager.py:327-350 | a Risk evaluation is one step of the entry-side runs |
| `CoreManager.EntryHandoffIsACoreStep` | src/trademonitor/core/manager.py:447-494 | a handoff, new or repeated, is one step of the entry-side runs |
| `CoreManager.ExitHandoffIsACoreStep` | src/trademonitor/core/manager.py:496-523 | so is an exit handoff |
| `CoreManager.ListingIsOpenBook` | src/trademonitor/core/manager.py:343-349 | with one broker, the open positions Core lists are the open book |

## Left out

- SQLite, JSON records and WAL: the repository is a set of maps with upsert.
- Identifiers, the clock, the Agents service and the ambiguity resolver: parameters with any value, identifiers fresh.
- Decimal rounding, string forms of decimals in the Risk token, time zones: decimals are reals and times integers, so equal values with different text count as equal.
- Order of listings and dictionaries: any order; what depends on it is proved for all.
- Names of brokers and position keys: interned numbers, only ever compared.
- Rows of a snapshot that carry another broker's name: every row is taken to carry the snapshot's broker, as both adapters do.
- Several brokers in one context: the freshness guard remembers one broker, so runs have one; the entry-side runs also take snapshots to list each key once.
- Event payloads and all events except those of the position merge; context summaries, attention, health and console output.
- The existing-exposure label of intake results: it changes nothing in the store.
- Normalisation of intake text and case folding beyond ASCII: intents arrive normalised.
- AUTO readiness evidence: one boolean that may change at every deploy.
- The User's typed confirmation of an approval: one boolean.
- `EntryMonitor.cancel`: Core does not expose it.
- Creation of an intent in a state other than MONITORING: the record allows it, Core's runs do not use it.
- Context patches other than broker and market status: they could set any field by hand.
- Crashes between the saves of an exit review: they change no proposal.
- Two processes on one database: the code relies on its in-process lock.
- Zerodha, token, sheet-reader and feeder code: network clients.
- ExitRuns.OneExitPathPerPosition: says nothing of runs with a User resolution that is not `SafeToResolve`, because the property fails there; the other theorems over these runs cover them.
- ExitAuthority.SentExitDoesNotCompete: the same, for the same reason.
- ExitAuthority.ExitSubmissionIsAuthorised: says nothing about the side of an exit, because the exit gate does not check it.
- Several partial exits of one position may be active at once, and their total is not bounded.
