/** A run of Core in which an ENTRY order goes out on holdings Risk never saw: a reconcile is cut
    short after its first row, and a replay of the snapshot before it makes Core call itself
    reconciled again. */
module MisledEntry {
  import opened Domain
  import opened BrokerSimulator
  import opened Engine
  import opened Entry
  import opened Risk
  import opened Requests
  import opened BrokerTruth
  import opened CoreRuns
  import opened CoreSafety
  import P = Positions
  import X = ExecutionRuns

  const INTENT := EntryIntent(1, 1, "NIFTY", None, 100, None, PriceCondition(AtOrAbove, 0.0), None, None, None, None,
                              Monitoring, 0, None, None)
  const TICK := EntrySnapshot(1, 0, 1.0, None, None)
  const LIMITS := RiskProfile(1, None, None, Some(1), None)
  const PROPOSAL := RiskProposal(1, 10, 1.0, None)
  const ROUTE := OrderRoute(0, "NSE", "MIS", Buy, Market, 4)
  const FLAT := AccountSnapshot(0, 1, [], None, None, None)
  const HOLDING := Facts("NSE", "BANKNIFTY", "MIS", 5, 1.0, None, None, None, None)
  const LONG := AccountSnapshot(0, 2, [BrokerRow(7, HOLDING, 2)], None, None, None)

  const APPROVED_BY_AGENT := [
    ProfileConfirmed(LIMITS),
    IntentCreated(INTENT),
    IntentEvaluated(1, TICK, 2),
    ReviewRequested(1, Answer(1, Approve, 2), 1, 2, 2, 2)]

  const HANDED_OVER := [
    BrokerDelivered(Snapshot(FLAT, 1)),
    RiskEvaluated(1, PROPOSAL, 1, [], 3, 2),
    EntryPrepared(1, 1, 1, ROUTE)]

  const CUT_AND_REPLAYED := [
    BrokerDelivered(Interrupted(LONG, 1, P.Cut(1, {}))),
    BrokerDelivered(Snapshot(FLAT, 1)),
    DeployStarted(1, 5)]

  lemma {:induction false} RunConcat(c: Core, steps: seq<Step>, more: seq<Step>)
    ensures Run(c, steps + more) == Run(Run(c, steps), more)
    decreases |steps|
  {
    if steps == [] {
      assert steps + more == more;
    } else {
      assert (steps + more)[1..] == steps[1..] + more;
      RunConcat(Next(c, steps[0]), steps[1..], more);
    }
  }

  lemma RunOfThree(c: Core, steps: seq<Step>)
    requires |steps| == 3
    ensures Run(c, steps) == Next(Next(Next(c, steps[0]), steps[1]), steps[2])
  {
    assert Run(c, steps) == Run(Next(c, steps[0]), steps[1..]);
    assert steps[1..][1..] == [steps[2]] && [steps[2]][1..] == [];
    assert Run(Next(Next(c, steps[0]), steps[1]), [steps[2]]) == Next(Next(Next(c, steps[0]), steps[1]), steps[2]);
  }

  /** The intent is ready for Risk under a profile that allows one open position. */
  predicate ReadyCore(c: Core) {
    && c.intents == map[1 := INTENT.(state := ReadyForRisk, updatedAt := 2, lastSpot := Some(1.0))]
    && c.decisions == map[] && c.profiles == [BOOTSTRAP, LIMITS.(version := 2)]
    && c.exec == X.Initial(0, OrderStatus.Acknowledged)
    && c.account == Account(map[], EMPTY_CONTEXT) && c.market == MarketFresh
    && c.last == None && c.touches == map[] && c.saw == map[]
  }

  lemma Watched(c: Core)
    requires c == EmptyCore(0, OrderStatus.Acknowledged).(profiles := [BOOTSTRAP, LIMITS.(version := 2)])
    ensures Next(Next(c, APPROVED_BY_AGENT[1]), APPROVED_BY_AGENT[2])
         == c.(intents := map[1 := Moved(INTENT, ReadyForReview, TICK)])
  {
    assert Next(c, APPROVED_BY_AGENT[1]) == c.(intents := map[1 := INTENT]);
    assert EntryPath(INTENT, TICK) == [Moved(INTENT, Triggered, TICK), Moved(INTENT, ReadyForReview, TICK)];
  }

  lemma ApprovedByAgent(c: Core)
    requires c == EmptyCore(0, OrderStatus.Acknowledged).(
                    profiles := [BOOTSTRAP, LIMITS.(version := 2)], intents := map[1 := Moved(INTENT, ReadyForReview, TICK)])
    ensures ReadyCore(Next(c, APPROVED_BY_AGENT[3]))
  {
  }

  lemma Reviewed()
    ensures ReadyCore(Run(EmptyCore(0, OrderStatus.Acknowledged), APPROVED_BY_AGENT))
  {
    var c0 := EmptyCore(0, OrderStatus.Acknowledged);
    var c1 := Next(c0, APPROVED_BY_AGENT[0]);
    assert c1 == c0.(profiles := [BOOTSTRAP, LIMITS.(version := 2)]);
    Watched(c1);
    RunOfThree(c0, APPROVED_BY_AGENT[..3]);
    var c3 := Run(c0, APPROVED_BY_AGENT[..3]);
    ApprovedByAgent(c3);
    RunOfOne(c3, APPROVED_BY_AGENT[3]);
    RunConcat(c0, APPROVED_BY_AGENT[..3], APPROVED_BY_AGENT[3..]);
    assert APPROVED_BY_AGENT[..3] + APPROVED_BY_AGENT[3..] == APPROVED_BY_AGENT;
  }

  lemma RunOfOne(c: Core, step: Step)
    ensures Run(c, [step]) == Next(c, step)
  {
    assert [step][1..] == [];
    assert Run(Next(c, step), []) == Next(c, step);
  }

  const DECISION := RiskDecision(1, 1, 2, 3, [], 0, 10.0, Some(0), Some(1), Some(TokenOf(FLAT)), PROPOSAL)

  function Handoff(): ExecutionRequest { EntryRequest(1, INTENT, DECISION, ROUTE) }

  /** Risk passed the entry on a flat account, and its request is READY. */
  predicate HandedCore(c: Core) {
    && c.intents.Keys == {1} && c.intents[1].state == RiskApproved
    && c.decisions == map[1 := DECISION] && c.profiles == [BOOTSTRAP, LIMITS.(version := 2)]
    && c.exec == X.Initial(0, OrderStatus.Acknowledged).(requests := map[1 := Handoff()])
    && c.account == Account(map[], AcceptedContext(FLAT)) && c.market == MarketFresh
    && c.last == Some(FLAT) && c.touches == map[] && c.saw == map[1 := Sight(Some(FLAT), map[], map[])]
  }

  lemma Reconciled(c: Core)
    requires ReadyCore(c)
    ensures Next(c, HANDED_OVER[0]) == c.(account := Account(map[], AcceptedContext(FLAT)), last := Some(FLAT))
  {
    assert P.Merge(map[], FLAT, IdRange(1, 0)) == map[];
  }

  lemma Judged(c: Core)
    requires ReadyCore(c.(account := Account(map[], EMPTY_CONTEXT), last := None))
    requires c.account == Account(map[], AcceptedContext(FLAT)) && c.last == Some(FLAT)
    ensures Next(c, HANDED_OVER[1])
         == c.(decisions := map[1 := DECISION], saw := map[1 := Sight(Some(FLAT), map[], map[])],
               intents := map[1 := c.intents[1].(state := RiskApproved, updatedAt := 3)])
  {
    assert OpenListing([], c.account.book) && OpenBook(c.account.book) == map[];
    PassIffWithinLimits(LIMITS.(version := 2), PROPOSAL, 0, 0.0, c.account.ctx);
    assert Decide(1, LIMITS.(version := 2), PROPOSAL, [], c.account.ctx, 3) == DECISION;
  }

  lemma HandedTo(c: Core)
    requires c.intents.Keys == {1} && c.intents[1].state == RiskApproved
    requires c.intents[1] == INTENT.(state := RiskApproved, updatedAt := 3, lastSpot := Some(1.0))
    requires c.decisions == map[1 := DECISION] && c.profiles == [BOOTSTRAP, LIMITS.(version := 2)]
    requires c.exec == X.Initial(0, OrderStatus.Acknowledged)
    requires c.account.ctx == AcceptedContext(FLAT) && c.market == MarketFresh
    ensures Next(c, HANDED_OVER[2]) == c.(exec := c.exec.(requests := map[1 := Handoff()]))
  {
    assert IsLatestDecision(c.decisions, 1, 1);
    assert EntryRequest(1, c.intents[1], DECISION, ROUTE) == Handoff();
    assert X.Keys(c.exec) == {};
  }

  lemma Handed(c: Core)
    requires ReadyCore(c)
    ensures HandedCore(Run(c, HANDED_OVER))
  {
    Reconciled(c);
    var c1 := Next(c, HANDED_OVER[0]);
    Judged(c1);
    HandedTo(Next(c1, HANDED_OVER[1]));
    RunOfThree(c, HANDED_OVER);
  }

  lemma CutBookOfLong()
    ensures P.CutFits(LONG, P.Cut(1, {}))
    ensures OpenBook(P.CutBook(map[], LONG, IdRange(1, 1), P.Cut(1, {}))) == map[7 := HOLDING]
  {
    var book := P.CutBook(map[], LONG, IdRange(1, 1), P.Cut(1, {}));
    assert P.RowsApplied(map[], LONG, IdRange(1, 1), 1) == map[7 := P.Discovered(LONG, LONG.rows[0], 1)];
    assert book == map[7 := P.Discovered(LONG, LONG.rows[0], 1)];
  }

  lemma CutShort(c: Core)
    requires HandedCore(c)
    ensures var c' := Next(c, CUT_AND_REPLAYED[0]);
      && c' == c.(account := Account(c'.account.book, Restarted(AcceptedContext(FLAT))), touches := c'.touches)
      && OpenBook(c'.account.book) == map[7 := HOLDING]
  {
    CutBookOfLong();
  }

  lemma Replayed(c: Core)
    requires c.exec.pending.Idle? && c.exec.sim.name == 0 && c.account.ctx == Restarted(AcceptedContext(FLAT))
    ensures Next(c, CUT_AND_REPLAYED[1]) == c.(account := c.account.(ctx := AcceptedContext(FLAT)))
  {
    assert P.DistinctRows(FLAT.rows);
  }

  lemma Started(c: Core)
    requires c.exec == X.Initial(0, OrderStatus.Acknowledged).(requests := map[1 := Handoff()])
    requires c.decisions == map[1 := DECISION] && c.profiles == [BOOTSTRAP, LIMITS.(version := 2)]
    requires c.account.ctx == AcceptedContext(FLAT) && c.market == MarketFresh
    ensures Next(c, CUT_AND_REPLAYED[2])
         == c.(exec := c.exec.(requests := map[1 := MarkSubmitting(Handoff(), 5)], pending := Sending(1)))
  {
    assert IsLatestDecision(c.decisions, 1, 1);
    assert EntryGate(c.account.ctx, c.market, c.decisions, c.profiles, Handoff());
    assert Handoff().exchange[0] == 'N' && Handoff().symbol[0] == 'N' && Handoff().product[0] == 'M';
    assert Resolvable(Handoff()) && Addressed(c.exec, 1);
  }

  lemma Misled(c: Core)
    requires HandedCore(c)
    ensures var c' := Run(c, CUT_AND_REPLAYED);
      && c'.exec == c.exec.(requests := map[1 := MarkSubmitting(Handoff(), 5)], pending := Sending(1))
      && OpenBook(c'.account.book) == map[7 := HOLDING]
      && c'.saw == c.saw && c'.profiles == c.profiles
  {
    CutShort(c);
    var c1 := Next(c, CUT_AND_REPLAYED[0]);
    Replayed(c1);
    Started(Next(c1, CUT_AND_REPLAYED[1]));
    RunOfThree(c, CUT_AND_REPLAYED);
  }

  /** The order is sent, the account holds what Risk never saw, and the one open position the active
      profile allows is already there. */
  lemma EntrySentOnUnseenHoldings()
    ensures var c := Run(EmptyCore(0, OrderStatus.Acknowledged), APPROVED_BY_AGENT + HANDED_OVER + CUT_AND_REPLAYED);
      && Next(c, Execution(X.CallBroker(6))).exec.sim.calls == c.exec.sim.calls + [EntryKey(1, 1)]
      && c.exec.pending == Sending(1) && 1 in c.exec.requests && c.exec.requests[1].purpose == Purpose.Entry
      && !Authorised(c, c.exec.requests[1])
      && |c.profiles| == 2 && c.profiles[1].maxOpenPositions == Some(1) && |OpenBook(c.account.book)| == 1
  {
    var c0 := EmptyCore(0, OrderStatus.Acknowledged);
    RunConcat(c0, APPROVED_BY_AGENT + HANDED_OVER, CUT_AND_REPLAYED);
    RunConcat(c0, APPROVED_BY_AGENT, HANDED_OVER);
    Reviewed();
    var c1 := Run(c0, APPROVED_BY_AGENT);
    Handed(c1);
    SentUnseen(Run(c1, HANDED_OVER));
  }

  lemma SentUnseen(c: Core)
    requires HandedCore(c)
    ensures var c' := Run(c, CUT_AND_REPLAYED);
      && Next(c', Execution(X.CallBroker(6))).exec.sim.calls == c'.exec.sim.calls + [EntryKey(1, 1)]
      && c'.exec.pending == Sending(1) && 1 in c'.exec.requests && c'.exec.requests[1].purpose == Purpose.Entry
      && !Authorised(c', c'.exec.requests[1])
      && |c'.profiles| == 2 && c'.profiles[1].maxOpenPositions == Some(1) && |OpenBook(c'.account.book)| == 1
  {
    Misled(c);
    X.CallAppends(Run(c, CUT_AND_REPLAYED).exec, 6);
  }
}
