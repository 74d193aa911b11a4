/** Two runs in which an exit outlives what it was decided for: a User's late approval revives a
    superseded exit, and a crash inside a reconcile leaves one standing over a new exposure. */
module ExitFailures {
  import opened Domain
  import opened Store
  import opened Reviews
  import opened Positions
  import opened ExitMonitor
  import opened ExitReview
  import D = ExitRuns

  const FACTS := Facts("NSE", "NIFTY", "MIS", 10, 1.0, None, None, None, None)
  const LONG := AccountSnapshot(0, 1, [BrokerRow(7, FACTS, 1)], None, None, None)
  const PROFILE := ManagementProfile(1, Cash, Day, 100, None, 1, "User", "adopted")

  /** Half of the position, on strategic grounds: it needs a review. */
  const TRIM := ExitOrder(Strategic, ExitPercent, None, Some(50.0), "User", Text("trim"), None)

  /** A stop-loss rule that triggered: it needs none. */
  const STOP := Evaluation(1, 1, HardSl, true, Unavailable, 4, None)

  lemma ProfileIsValid()
    ensures PROFILE.Valid()
  {
    assert PROFILE.activatedBy[0] == 'U' && PROFILE.reason[0] == 'a';
  }

  lemma TrimIsAdmissible(positions: map<Id, Position>)
    requires OpenManaged(positions, 1)
    ensures Admissible(positions, 1, TRIM)
  {
    assert TRIM.createdBy[0] == 'U' && TRIM.reason.text[0] == 't';
  }

  /** The first reconcile discovers the position. */
  lemma Discovery(book: map<PositionKey, Position>, positions: map<Id, Position>)
    requires Coherent(positions) && 7 !in book && ByKey(positions, 0) == Merge(book, LONG, [1])
    ensures 1 in positions && positions[1] == Discovered(LONG, LONG.rows[0], 1)
  {
    MergeIsSimple(book, LONG, [1], 7);
    assert LastRow(LONG.rows, 1, 7) == Some(0) && FirstRow(LONG.rows, 1, 7) == Some(0);
    assert At(Merge(book, LONG, [1]), 7) == Some(Discovered(LONG, LONG.rows[0], 1));
    ByKeyIndexes(positions, 0);
    assert positions[ByKey(positions, 0)[7].positionId] == ByKey(positions, 0)[7];
  }

  lemma NoFull(proposals: map<Id, ExitProposal>)
    requires forall id | id in proposals :: proposals[id].action != ExitAll
    ensures FullOf(proposals, 1) == None
  {
  }

  lemma NoPositions(positions: map<Id, Position>)
    requires positions == map[]
    ensures Coherent(positions) && Fresh([1], positions) && 7 !in ByKey(positions, 0)
  {
    ByKeyIndexes(positions, 0);
  }

  method ShowLong(repository: Repository)
    requires repository.positions == map[]
    modifies repository`positions
    ensures Coherent(repository.positions)
    ensures 1 in repository.positions && repository.positions[1] == Discovered(LONG, LONG.rows[0], 1)
  {
    NoPositions(repository.positions);
    var positions := new PositionManager(repository);
    ghost var book := ByKey(repository.positions, 0);
    var events, order := positions.Reconcile(LONG, [1]);
    Discovery(book, repository.positions);
  }

  /** The broker shows the position and the User adopts it. */
  method AdoptLong(repository: Repository)
    requires repository.positions == map[]
    modifies repository`positions, repository`managementProfiles
    ensures OpenManaged(repository.positions, 1)
  {
    ShowLong(repository);
    ProfileIsValid();
    var positions := new PositionManager(repository);
    var adopted := positions.Adopt(PROFILE);
  }

  /** A strategic trim is proposed; the Agent is silent, so the User must decide. */
  method ProposeTrim(repository: Repository)
    requires OpenManaged(repository.positions, 1)
    requires repository.exitProposals == map[] && repository.exitReviews == map[]
    modifies repository`exitProposals, repository`exitReviews
    ensures repository.exitProposals == map[1 := Created(1, 1, TRIM, 2)]
    ensures repository.exitReviews == map[1 := Review(1, 1, ReviewFailed, None, None, 3, 3)]
  {
    var exits := new ExitMonitor(repository);
    NoFull(repository.exitProposals);
    TrimIsAdmissible(repository.positions);
    var trim := exits.ProposeExit(1, TRIM, 1, 2);
    assert repository.exitProposals == map[1 := Created(1, 1, TRIM, 2)];
    var reviews := new ExitReviewCoordinator(repository);
    var review := reviews.RequestReview(1, NoAnswer, 1, 3, 3);
  }

  /** Strategic trim proposed, Agent silent, stop-loss supersedes it with a full exit, User approves
      the open review after all: each call is accepted, and the position ends with two exit paths. */
  method LateApprovalRevives() returns (repository: Repository)
    ensures fresh(repository)
    ensures OpenManaged(repository.positions, 1)
    ensures 1 in repository.exitProposals && 2 in repository.exitProposals
    ensures ActiveOn(repository.exitProposals, 1, 1) && FullOn(repository.exitProposals, 1, 2)
    ensures !OnePath(repository.exitProposals)
  {
    repository := new Repository();
    AdoptLong(repository);
    ProposeTrim(repository);
    StopSupersedes();
    var exits := new ExitMonitor(repository);
    var consumed := exits.ConsumeRuleEvaluations(1, [STOP], 2, 4);
    assert repository.exitProposals[1].status == ExitSuperseded && FullOn(repository.exitProposals, 1, 2);
    TrimAwaitsUser(repository.exitReviews);
    var reviews := new ExitReviewCoordinator(repository);
    var resolved := reviews.ResolveUserDecision(1, Approve, 5);
    assert resolved.Returned?;
    assert FullOn(repository.exitProposals, 1, 2) && ActiveOn(repository.exitProposals, 1, 1);
  }

  lemma TrimAwaitsUser(reviews: map<Id, Review>)
    requires reviews == map[1 := Review(1, 1, ReviewFailed, None, None, 3, 3)]
    ensures IsLatest(reviews, 1, 1) && UserMustDecide(reviews[1])
  {
  }

  lemma StopSupersedes()
    ensures var before := map[1 := Created(1, 1, TRIM, 2)];
      && FreshIfNeeded(before, 1, 2)
      && Consumed(before, 1, [STOP], 2, 4, 1)
           == map[1 := Superseded(before[1], 4), 2 := Created(2, 1, OrderFor(STOP), 4)]
  {
    var before := map[1 := Created(1, 1, TRIM, 2)];
    NoFull(before);
    assert Consumed(before, 1, [STOP], 2, 4, 0) == before;
    assert Proposed(before, 1, OrderFor(STOP), 2, 4).0
        == map[1 := Superseded(before[1], 4), 2 := Created(2, 1, OrderFor(STOP), 4)];
  }

  // ------------------------------------------------------------- a reopened position

  const EXIT_NOW := ExitOrder(Protective, ExitAll, None, None, "User", Text("out"), None)

  /** The broker shows ten long, then nothing, then four short. */
  const GONE := AccountSnapshot(0, 3, [], None, None, None)
  const SHORT := AccountSnapshot(0, 4, [BrokerRow(7, FACTS.(quantity := -4), 4)], None, None, None)

  function Shown(quantity: int, management: ManagementStatus, at: Time): map<Id, Position> {
    map[1 := Position(1, 0, 7, FACTS.(quantity := quantity), StateFor(quantity), management,
                      if management == Managed then BrokerAdopted else BrokerExternal, 1, at)]
  }

  /** Discovered, adopted, an exit of everything approved; then broker truth shows it gone, the
      process dies before the exit is satisfied, and the next snapshot shows a new exposure. */
  const REOPENED := [
    D.BrokerMoved(0, Shown(10, Unmanaged, 1), LONG.observedAt),
    D.Adopt(PROFILE),
    D.ExitProposed(1, EXIT_NOW, 1, 2),
    D.BrokerMoveCut(0, Shown(0, Managed, 3), {}, GONE.observedAt),
    D.BrokerMoved(0, Shown(-4, Managed, 4), SHORT.observedAt)]

  lemma OneIsCoherent(positions: map<Id, Position>, p: Position)
    requires positions == map[p.positionId := p] && p.state == StateFor(p.facts.quantity)
    ensures Coherent(positions)
  {
  }

  lemma SameBook(a: map<PositionKey, Position>, b: map<PositionKey, Position>)
    requires forall key :: At(a, key) == At(b, key)
    ensures a == b
  {
    assert forall key :: key in a <==> At(a, key).Some?;
    assert forall key :: key in b <==> At(b, key).Some?;
  }

  lemma OneOthersKept(before: map<Id, Position>, after: map<Id, Position>, p: Position, p': Position)
    requires (before == map[] || before == map[p.positionId := p]) && after == map[p.positionId := p']
    requires p.broker == p'.broker
    ensures OthersKept(p.broker, before, after)
  {
  }

  lemma OneMerged(before: map<Id, Position>, after: map<Id, Position>, p: Position, p': Position,
                  s: AccountSnapshot, ids: seq<Id>, key: PositionKey)
    requires before == map[p.positionId := p] && after == map[p'.positionId := p']
    requires Coherent(before) && Coherent(after) && p.broker == p'.broker == s.broker && p'.key == p.key
    requires if s.rows == [] then p' == Absent(p, s.observedAt) && ids == []
             else |s.rows| == |ids| == 1 && s.rows[0].key == p.key && p' == Refreshed(p, s.rows[0].facts, s.observedAt)
    ensures At(ByKey(after, s.broker), key) == At(Merge(ByKey(before, s.broker), s, ids), key)
  {
    OneEntry(before, p, key);
    OneEntry(after, p', key);
    MergeIsSimple(ByKey(before, s.broker), s, ids, key);
  }

  lemma OneBook(before: map<Id, Position>, after: map<Id, Position>, p: Position, p': Position, s: AccountSnapshot,
                ids: seq<Id>)
    requires before == map[p.positionId := p] && after == map[p'.positionId := p']
    requires Coherent(before) && Coherent(after) && p.broker == p'.broker == s.broker && p'.key == p.key
    requires if s.rows == [] then p' == Absent(p, s.observedAt) && ids == []
             else |s.rows| == |ids| == 1 && s.rows[0].key == p.key && p' == Refreshed(p, s.rows[0].facts, s.observedAt)
    ensures ByKey(after, s.broker) == Merge(ByKey(before, s.broker), s, ids)
  {
    forall key ensures At(ByKey(after, s.broker), key) == At(Merge(ByKey(before, s.broker), s, ids), key) {
      OneMerged(before, after, p, p', s, ids, key);
    }
    SameBook(ByKey(after, s.broker), Merge(ByKey(before, s.broker), s, ids));
  }

  lemma OneUnused(positions: map<Id, Position>, p: Position, ids: seq<Id>)
    requires positions == map[] || positions == map[p.positionId := p]
    requires ids == [] || (|ids| == 1 && (positions == map[] || ids[0] != p.positionId))
    ensures Fresh(ids, positions)
  {
  }

  lemma Reconciles(before: map<Id, Position>, after: map<Id, Position>, s: AccountSnapshot, ids: seq<Id>)
    requires Coherent(before) && Coherent(after) && |s.rows| <= |ids| && Fresh(ids, before)
    requires ByKey(after, s.broker) == Merge(ByKey(before, s.broker), s, ids) && OthersKept(s.broker, before, after)
    ensures D.ReconcileResult(before, after, s, ids)
  {
  }

  /** One stored position reconciled against a snapshot of its row alone, or of nothing. */
  lemma OnePositionReconciled(before: map<Id, Position>, after: map<Id, Position>, p: Position, p': Position,
                              s: AccountSnapshot, ids: seq<Id>)
    requires before == map[p.positionId := p] && after == map[p.positionId := p']
    requires p.state == StateFor(p.facts.quantity) && p.broker == s.broker && p.positionId !in ids
    requires if s.rows == [] then p' == Absent(p, s.observedAt) && ids == []
             else |s.rows| == |ids| == 1 && s.rows[0].key == p.key && p' == Refreshed(p, s.rows[0].facts, s.observedAt)
    ensures D.ReconcileResult(before, after, s, ids)
  {
    OneIsCoherent(before, p);
    OneIsCoherent(after, p');
    OneOthersKept(before, after, p, p');
    OneBook(before, after, p, p', s, ids);
    OneUnused(before, p, ids);
    Reconciles(before, after, s, ids);
  }

  lemma FirstMerged(book: map<PositionKey, Position>, s: AccountSnapshot, id: Id, key: PositionKey)
    requires key !in book && |s.rows| == 1
    ensures At(Merge(book, s, [id]), key) == if key == s.rows[0].key then Some(Discovered(s, s.rows[0], id)) else None
  {
    MergeIsSimple(book, s, [id], key);
  }

  lemma FirstBook(none: map<Id, Position>, after: map<Id, Position>, p: Position, s: AccountSnapshot)
    requires none == map[] && after == map[p.positionId := p] && Coherent(none) && Coherent(after)
    requires |s.rows| == 1 && p == Discovered(s, s.rows[0], p.positionId)
    ensures ByKey(after, s.broker) == Merge(ByKey(none, s.broker), s, [p.positionId])
  {
    var book := ByKey(none, s.broker);
    ByKeyIndexes(none, s.broker);
    forall key ensures At(ByKey(after, s.broker), key) == At(Merge(book, s, [p.positionId]), key) {
      OneEntry(after, p, key);
      FirstMerged(book, s, p.positionId, key);
    }
    SameBook(ByKey(after, s.broker), Merge(book, s, [p.positionId]));
  }

  lemma OneDiscovered(none: map<Id, Position>, after: map<Id, Position>, p: Position, s: AccountSnapshot, ids: seq<Id>)
    requires none == map[] && after == map[p.positionId := p]
    requires |s.rows| == 1 && ids == [p.positionId] && p == Discovered(s, s.rows[0], p.positionId)
    ensures D.ReconcileResult(none, after, s, ids)
  {
    OneIsCoherent(after, p);
    OneOthersKept(none, after, p, p);
    FirstBook(none, after, p, s);
    OneUnused(none, p, ids);
    Reconciles(none, after, s, ids);
  }

  /** The three broker steps are reconciles of those snapshots. */
  lemma ShownByBroker()
    ensures D.ReconcileResult(map[], Shown(10, Unmanaged, 1), LONG, [1])
    ensures D.ReconcileResult(Shown(10, Managed, 1), Shown(0, Managed, 3), GONE, [])
    ensures D.ReconcileResult(Shown(0, Managed, 3), Shown(-4, Managed, 4), SHORT, [2])
  {
    OneDiscovered(map[], Shown(10, Unmanaged, 1), Shown(10, Unmanaged, 1)[1], LONG, [1]);
    OnePositionReconciled(Shown(10, Managed, 1), Shown(0, Managed, 3), Shown(10, Managed, 1)[1], Shown(0, Managed, 3)[1],
                          GONE, []);
    OnePositionReconciled(Shown(0, Managed, 3), Shown(-4, Managed, 4), Shown(0, Managed, 3)[1], Shown(-4, Managed, 4)[1],
                          SHORT, [2]);
  }

  lemma LongMoves()
    ensures D.BrokerMoves(0, map[], Shown(10, Unmanaged, 1))
  {
    ShownByBroker();
    D.ReconcileIsBrokerMove(map[], Shown(10, Unmanaged, 1), LONG, [1]);
  }

  lemma GoneMoves()
    ensures D.BrokerMoves(0, Shown(10, Managed, 1), Shown(0, Managed, 3))
  {
    ShownByBroker();
    D.ReconcileIsBrokerMove(Shown(10, Managed, 1), Shown(0, Managed, 3), GONE, []);
  }

  lemma ShortMoves()
    ensures D.BrokerMoves(0, Shown(0, Managed, 3), Shown(-4, Managed, 4))
  {
    ShownByBroker();
    D.ReconcileIsBrokerMove(Shown(0, Managed, 3), Shown(-4, Managed, 4), SHORT, [2]);
  }

  lemma Opened()
    ensures var d := D.Next(D.Next(D.EMPTY_DESK, REOPENED[0]), REOPENED[1]);
      && d.positions == Shown(10, Managed, 1) && d.profiles == map[1 := PROFILE] && d.proposals == map[]
  {
    ProfileIsValid();
    LongMoves();
    assert D.ClosedSatisfied(map[], Shown(10, Unmanaged, 1), 0, 1) == map[];
    assert Adopted(Shown(10, Unmanaged, 1)[1], 1) == Shown(10, Managed, 1)[1];
    assert Shown(10, Unmanaged, 1)[1 := Shown(10, Managed, 1)[1]] == Shown(10, Managed, 1);
  }

  lemma ExitApprovedFor(d: D.Desk)
    requires d.positions == Shown(10, Managed, 1) && d.proposals == map[]
    ensures D.Next(d, REOPENED[2]) == d.(proposals := map[1 := Created(1, 1, EXIT_NOW, 2)])
  {
    assert EXIT_NOW.createdBy[0] == 'U' && EXIT_NOW.reason.text[0] == 'o';
    NoFull(map[]);
    assert AllSuperseded(map[], 1, 2) == map[];
  }

  lemma LeftOver(d: D.Desk)
    requires d.positions == Shown(10, Managed, 1) && d.proposals == map[1 := Created(1, 1, EXIT_NOW, 2)]
    ensures var cut := D.Next(d, REOPENED[3]);
      && cut.positions == Shown(0, Managed, 3) && cut.proposals == d.proposals
  {
    GoneMoves();
    assert D.Satisfied(d.proposals, Shown(0, Managed, 3), {}, 0, 3) == d.proposals;
  }

  lemma ReopenedUnder(d: D.Desk)
    requires d.positions == Shown(0, Managed, 3) && d.proposals == map[1 := Created(1, 1, EXIT_NOW, 2)]
    ensures var d' := D.Next(d, REOPENED[4]);
      d'.positions == Shown(-4, Managed, 4) && d'.proposals == d.proposals
  {
    ShortMoves();
    assert D.ClosedSatisfied(d.proposals, Shown(-4, Managed, 4), 0, 4) == d.proposals;
  }

  /** The exit of ten long stands, APPROVED and untouched, over four short. */
  lemma StaleExitStandsOverNewExposure()
    ensures var long, gone, d := D.Run(D.EMPTY_DESK, REOPENED[..3]), D.Run(D.EMPTY_DESK, REOPENED[..4]),
                                 D.Run(D.EMPTY_DESK, REOPENED);
      && long.positions == Shown(10, Managed, 1) && gone.positions == Shown(0, Managed, 3)
      && d.positions == Shown(-4, Managed, 4) && OpenManaged(d.positions, 1)
      && d.proposals == gone.proposals == long.proposals == map[1 := Created(1, 1, EXIT_NOW, 2)]
      && d.proposals[1].status == ExitApproved && d.proposals[1].action == ExitAll
  {
    Opened();
    var d2 := D.Next(D.Next(D.EMPTY_DESK, REOPENED[0]), REOPENED[1]);
    ExitApprovedFor(d2);
    var d3 := D.Next(d2, REOPENED[2]);
    LeftOver(d3);
    ReopenedUnder(D.Next(d3, REOPENED[3]));
    RunOfFive(D.EMPTY_DESK, REOPENED);
  }

  lemma RunOfThree(d: D.Desk, steps: seq<D.Step>)
    requires |steps| >= 3
    ensures D.Run(d, steps) == D.Run(D.Next(D.Next(D.Next(d, steps[0]), steps[1]), steps[2]), steps[3..])
  {
    assert D.Run(d, steps) == D.Run(D.Next(d, steps[0]), steps[1..]);
    assert steps[1..][1..] == steps[2..] && steps[2..][1..] == steps[3..];
    assert D.Run(D.Next(d, steps[0]), steps[1..]) == D.Run(D.Next(D.Next(d, steps[0]), steps[1]), steps[2..]);
  }

  lemma RunOfTwo(d: D.Desk, steps: seq<D.Step>)
    requires |steps| == 2
    ensures D.Run(d, steps[..1]) == D.Next(d, steps[0])
    ensures D.Run(d, steps) == D.Next(D.Next(d, steps[0]), steps[1])
  {
    assert steps[..1][1..] == [] && steps[1..][1..] == [];
    assert D.Run(D.Next(d, steps[0]), steps[1..]) == D.Run(D.Next(D.Next(d, steps[0]), steps[1]), []);
  }

  lemma RunOfFive(d: D.Desk, steps: seq<D.Step>)
    requires |steps| == 5
    ensures var third := D.Next(D.Next(D.Next(d, steps[0]), steps[1]), steps[2]);
      && D.Run(d, steps[..3]) == third
      && D.Run(d, steps[..4]) == D.Next(third, steps[3])
      && D.Run(d, steps) == D.Next(D.Next(third, steps[3]), steps[4])
  {
    RunOfThree(d, steps[..3]);
    RunOfThree(d, steps[..4]);
    RunOfThree(d, steps);
    assert steps[..3][3..] == [] && steps[..4][3..] == steps[3..][..1];
    RunOfTwo(D.Next(D.Next(D.Next(d, steps[0]), steps[1]), steps[2]), steps[3..]);
  }
}
