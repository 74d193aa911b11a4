/** Which broker snapshots Core accepts, and what the open book is after any sequence of
    deliveries, outages, restarts and deliveries cut short by a crash. */
module BrokerTruth {
  import opened Domain
  import opened Positions

  function RowOf(row: BrokerRow): TokenRow {
    TokenRow(row.key, row.facts.exchange, row.facts.symbol, row.facts.product, row.facts.quantity,
             row.facts.averagePrice)
  }

  function TokenRows(rows: seq<BrokerRow>): multiset<TokenRow> {
    if rows == [] then multiset{} else TokenRows(rows[..|rows| - 1]) + multiset{RowOf(rows[|rows| - 1])}
  }

  function TokenOf(s: AccountSnapshot): RiskToken {
    RiskToken(s.broker, TokenRows(s.rows), s.funds, s.orderCount, s.fillCount)
  }

  datatype Freshness = First | Newer | Replay | Older

  function CompareTime(incoming: Time, previous: Option<Time>): Freshness {
    if previous.None? then First
    else if incoming > previous.value then Newer
    else if incoming == previous.value then Replay
    else Older
  }

  function LastObserved(ctx: BrokerContext, broker: BrokerName): Option<Time> {
    if ctx.broker != Some(broker) then None else ctx.observedAt
  }

  function Lost(ctx: BrokerContext): BrokerContext {
    ctx.(status := BrokerUnavailable, runtimeReconciled := false)
  }

  function Restarted(ctx: BrokerContext): BrokerContext { ctx.(runtimeReconciled := false) }

  function AcceptedContext(s: AccountSnapshot): BrokerContext {
    BrokerContext(BrokerReconciled, Some(s.broker), Some(s.observedAt), Some(TokenOf(s)), true)
  }

  /** Core's picture of the broker account. */
  datatype Account = Account(book: map<PositionKey, Position>, ctx: BrokerContext)

  /** `Interrupted`: the process dies within the reconcile, before the context is saved. */
  datatype Delivery =
    | Snapshot(s: AccountSnapshot, firstId: Id)
    | Interrupted(s: AccountSnapshot, firstId: Id, cut: Cut)
    | Outage
    | Restart

  predicate OfSnapshot(d: Delivery) { d.Snapshot? || d.Interrupted? }

  function IdRange(first: Id, n: nat): seq<Id> { seq(n, i requires 0 <= i < n => first + i) }

  function NewIds(d: Delivery): seq<Id>
    requires OfSnapshot(d)
  {
    IdRange(d.firstId, |d.s.rows|)
  }

  /** The freshness guard: only a first or newer snapshot of the adapter's own account counts. */
  predicate Timely(ctx: BrokerContext, name: BrokerName, s: AccountSnapshot) {
    s.broker == name && CompareTime(s.observedAt, LastObserved(ctx, name)) in {First, Newer}
  }

  predicate Accepts(ctx: BrokerContext, name: BrokerName, d: Delivery) { d.Snapshot? && Timely(ctx, name, d.s) }

  /** The guard let the snapshot through and some saves of its merge happened. */
  predicate Cuts(ctx: BrokerContext, name: BrokerName, d: Delivery) {
    d.Interrupted? && CutFits(d.s, d.cut) && Timely(ctx, name, d.s)
  }

  function ContextAfter(ctx: BrokerContext, name: BrokerName, d: Delivery): BrokerContext {
    match d
    case Outage => Lost(ctx)
    case Restart => Restarted(ctx)
    case Interrupted(_, _, _) => Restarted(ctx)
    case Snapshot(s, _) =>
      if s.broker != name then Lost(ctx)
      else
        match CompareTime(s.observedAt, LastObserved(ctx, name))
        case Replay => ctx.(runtimeReconciled := true)
        case Older => ctx
        case _ => AcceptedContext(s)
  }

  /** `reconcile_broker_truth` against the adapter called `name`, and what else can happen to the context. */
  function Deliver(a: Account, name: BrokerName, d: Delivery): Account {
    Account(if Accepts(a.ctx, name, d) then Merge(a.book, d.s, NewIds(d))
            else if Cuts(a.ctx, name, d) then CutBook(a.book, d.s, NewIds(d), d.cut)
            else a.book,
            ContextAfter(a.ctx, name, d))
  }

  function Deliveries(a: Account, name: BrokerName, ds: seq<Delivery>): Account {
    if ds == [] then a else Deliver(Deliveries(a, name, ds[..|ds| - 1]), name, ds[|ds| - 1])
  }

  // ------------------------------------------------------------- the open book

  predicate BookOk(book: map<PositionKey, Position>) {
    forall key | key in book :: book[key].state == StateFor(book[key].facts.quantity)
  }

  function OpenBook(book: map<PositionKey, Position>): map<PositionKey, Facts> {
    map key | key in book && book[key].IsOpen() :: book[key].facts
  }

  function RowKeys(s: AccountSnapshot): set<PositionKey> { set i | 0 <= i < |s.rows| :: s.rows[i].key }

  function NonZeroRows(s: AccountSnapshot): map<PositionKey, Facts> {
    map key | key in RowKeys(s) && LastRow(s.rows, |s.rows|, key).Some?
              && LastFacts(s, key).quantity != 0 :: LastFacts(s, key)
  }

  function LastFacts(s: AccountSnapshot, key: PositionKey): Facts
    requires LastRow(s.rows, |s.rows|, key).Some?
  {
    RowsFound(s.rows, |s.rows|, key);
    s.rows[LastRow(s.rows, |s.rows|, key).value].facts
  }

  /** Accepting a snapshot makes the open book its non-zero rows, whatever the book held before. */
  lemma AcceptedBook(book: map<PositionKey, Position>, s: AccountSnapshot, ids: seq<Id>)
    requires |s.rows| <= |ids| && BookOk(book)
    ensures BookOk(Merge(book, s, ids))
    ensures OpenBook(Merge(book, s, ids)) == NonZeroRows(s)
  {
    var open, rows := OpenBook(Merge(book, s, ids)), NonZeroRows(s);
    forall key
      ensures key in open <==> key in rows
      ensures key in open ==> open[key] == rows[key]
      ensures key in Merge(book, s, ids) ==>
                Merge(book, s, ids)[key].state == StateFor(Merge(book, s, ids)[key].facts.quantity)
    {
      MergeIsSimple(book, s, ids, key);
      RowsFound(s.rows, |s.rows|, key);
      if Mentions(s, key) { assert key in RowKeys(s); }
    }
  }

  /** What a book holds open under a key, and what a snapshot says is open there. */
  function FactsAt(open: map<PositionKey, Facts>, key: PositionKey): Option<Facts> {
    if key in open then Some(open[key]) else None
  }

  function RowAt(s: AccountSnapshot, key: PositionKey): Option<Facts> { FactsAt(NonZeroRows(s), key) }

  function OpenFacts(facts: Facts): Option<Facts> { if facts.quantity != 0 then Some(facts) else None }

  lemma RowAtLast(s: AccountSnapshot, key: PositionKey)
    ensures match LastRow(s.rows, |s.rows|, key)
      case Some(i) => i < |s.rows| && RowAt(s, key) == OpenFacts(s.rows[i].facts)
      case None => RowAt(s, key) == None
  {
    RowsFound(s.rows, |s.rows|, key);
    if LastRow(s.rows, |s.rows|, key).Some? {
      assert s.rows[LastRow(s.rows, |s.rows|, key).value].key in RowKeys(s);
    }
  }

  lemma SameFactsSameBook(open: map<PositionKey, Facts>, open': map<PositionKey, Facts>)
    ensures open == open' <==> forall key :: FactsAt(open, key) == FactsAt(open', key)
  {
    if forall key :: FactsAt(open, key) == FactsAt(open', key) {
      assert forall key :: key in open <==> FactsAt(open, key).Some?;
      assert forall key :: key in open' <==> FactsAt(open', key).Some?;
      assert forall key | key in open :: FactsAt(open, key) == Some(open[key]);
    }
  }

  // --------------------------------------------------------- what a cut leaves open

  /** The keys a cut merge may have written. */
  function Written(s: AccountSnapshot, cut: Cut): set<PositionKey>
    requires CutFits(s, cut)
  {
    (set i | 0 <= i < cut.rows :: s.rows[i].key) + cut.closed
  }

  /** What it leaves open under each of them: the last row saved for the key, or nothing. */
  function Touched(s: AccountSnapshot, cut: Cut): map<PositionKey, Option<Facts>>
    requires CutFits(s, cut)
  {
    map key | key in Written(s, cut) :: LeftOpen(s, cut, key)
  }

  function LeftOpen(s: AccountSnapshot, cut: Cut, key: PositionKey): Option<Facts>
    requires CutFits(s, cut)
  {
    RowsFound(s.rows, cut.rows, key);
    match LastRow(s.rows, cut.rows, key)
    case Some(i) => OpenFacts(s.rows[i].facts)
    case None => None
  }

  lemma CutBookFacts(book: map<PositionKey, Position>, s: AccountSnapshot, ids: seq<Id>, cut: Cut, key: PositionKey)
    requires |s.rows| <= |ids| && CutFits(s, cut) && BookOk(book)
    ensures var after := CutBook(book, s, ids, cut);
      && (key in after ==> after[key].state == StateFor(after[key].facts.quantity))
      && FactsAt(OpenBook(after), key) ==
           if key in Touched(s, cut) then Touched(s, cut)[key] else FactsAt(OpenBook(book), key)
  {
    CutBookAt(book, s, ids, cut, key);
    RowsFound(s.rows, cut.rows, key);
    if LastRow(s.rows, cut.rows, key).Some? {
      assert s.rows[LastRow(s.rows, cut.rows, key).value].key in Written(s, cut);
    }
  }

  lemma CutKeepsBookOk(book: map<PositionKey, Position>, s: AccountSnapshot, ids: seq<Id>, cut: Cut)
    requires |s.rows| <= |ids| && CutFits(s, cut) && BookOk(book)
    ensures BookOk(CutBook(book, s, ids, cut))
  {
    forall key | key in CutBook(book, s, ids, cut)
      ensures CutBook(book, s, ids, cut)[key].state == StateFor(CutBook(book, s, ids, cut)[key].facts.quantity)
    {
      CutBookFacts(book, s, ids, cut, key);
    }
  }

  // ---------------------------------------- the book as snapshot and what touched it

  /** What snapshot `s` says, except where later cuts wrote. */
  function Overlay(s: AccountSnapshot, touches: map<PositionKey, Option<Facts>>, key: PositionKey): Option<Facts> {
    if key in touches then touches[key] else RowAt(s, key)
  }

  ghost predicate BookIs(open: map<PositionKey, Facts>, s: AccountSnapshot, touches: map<PositionKey, Option<Facts>>) {
    forall key :: FactsAt(open, key) == Overlay(s, touches, key)
  }

  /** No cut since the snapshot changed an open fact for good. */
  predicate Undisturbed(s: AccountSnapshot, touches: map<PositionKey, Option<Facts>>) {
    forall key | key in touches :: touches[key] == RowAt(s, key)
  }

  /** What the cuts since the last accepted snapshot wrote, the last write to each key. */
  function TouchesAfter(touches: map<PositionKey, Option<Facts>>, ctx: BrokerContext, name: BrokerName, d: Delivery)
    : map<PositionKey, Option<Facts>>
  {
    if Accepts(ctx, name, d) then map[]
    else if Cuts(ctx, name, d) then touches + Touched(d.s, d.cut)
    else touches
  }

  predicate ContextDescribes(ctx: BrokerContext, name: BrokerName, s: AccountSnapshot) {
    ctx.broker == Some(name) && ctx.observedAt == Some(s.observedAt) && ctx.token == Some(TokenOf(s))
  }

  /** The account describes snapshot `s` of the adapter `name`. */
  predicate Describes(a: Account, name: BrokerName, s: AccountSnapshot) {
    OpenBook(a.book) == NonZeroRows(s) && ContextDescribes(a.ctx, name, s)
  }

  /** The book describes the snapshot if and only if nothing disturbed it. */
  lemma BookRightIffUndisturbed(open: map<PositionKey, Facts>, s: AccountSnapshot, touches: map<PositionKey, Option<Facts>>)
    requires BookIs(open, s, touches)
    ensures open == NonZeroRows(s) <==> Undisturbed(s, touches)
  {
    SameFactsSameBook(open, NonZeroRows(s));
    if open == NonZeroRows(s) {
      forall key | key in touches ensures touches[key] == RowAt(s, key) {
        assert FactsAt(open, key) == Overlay(s, touches, key);
      }
    }
  }

  /** One delivery: an accepted snapshot becomes the book, a cut writes what it touched, and
      nothing else changes what is open. */
  lemma DeliveredBook(a: Account, name: BrokerName, d: Delivery, key: PositionKey)
    requires BookOk(a.book)
    ensures var open := FactsAt(OpenBook(Deliver(a, name, d).book), key);
      if Accepts(a.ctx, name, d) then open == RowAt(d.s, key)
      else if Cuts(a.ctx, name, d) && key in Touched(d.s, d.cut) then open == Touched(d.s, d.cut)[key]
      else open == FactsAt(OpenBook(a.book), key)
  {
    if Accepts(a.ctx, name, d) {
      AcceptedBook(a.book, d.s, NewIds(d));
    } else if Cuts(a.ctx, name, d) {
      CutBookFacts(a.book, d.s, NewIds(d), d.cut, key);
    }
  }

  lemma DeliveryKeepsBookOk(a: Account, name: BrokerName, d: Delivery)
    requires BookOk(a.book)
    ensures BookOk(Deliver(a, name, d).book)
  {
    if Accepts(a.ctx, name, d) { AcceptedBook(a.book, d.s, NewIds(d)); }
    if Cuts(a.ctx, name, d) { CutKeepsBookOk(a.book, d.s, NewIds(d), d.cut); }
  }

  /** The snapshot last accepted, with what cuts wrote since, stays the whole truth about the account. */
  lemma DeliveryDescribes(a: Account, name: BrokerName, latest: Option<AccountSnapshot>,
                          touches: map<PositionKey, Option<Facts>>, d: Delivery)
    requires BookOk(a.book)
    requires if latest.Some? then ContextDescribes(a.ctx, name, latest.value) && BookIs(OpenBook(a.book), latest.value, touches)
             else a.ctx.broker != Some(name)
    ensures var a', latest' := Deliver(a, name, d), if Accepts(a.ctx, name, d) then Some(d.s) else latest;
      && BookOk(a'.book)
      && (Accepts(a.ctx, name, d) <==>
            d.Snapshot? && d.s.broker == name && (latest.None? || d.s.observedAt > latest.value.observedAt))
      && if latest'.Some?
         then ContextDescribes(a'.ctx, name, latest'.value)
              && BookIs(OpenBook(a'.book), latest'.value, TouchesAfter(touches, a.ctx, name, d))
         else a'.ctx.broker == a.ctx.broker
  {
    DeliveryKeepsBookOk(a, name, d);
    forall key
      ensures var open := FactsAt(OpenBook(Deliver(a, name, d).book), key);
        if Accepts(a.ctx, name, d) then open == RowAt(d.s, key)
        else if Cuts(a.ctx, name, d) && key in Touched(d.s, d.cut) then open == Touched(d.s, d.cut)[key]
        else open == FactsAt(OpenBook(a.book), key)
    {
      DeliveredBook(a, name, d, key);
    }
  }

  // ------------------------------------------------------------- whole histories

  /** The accepted snapshot with the greatest observation time, the first delivered among equals. */
  function Latest(name: BrokerName, ds: seq<Delivery>): Option<AccountSnapshot> {
    if ds == [] then None
    else
      var earlier, d := Latest(name, ds[..|ds| - 1]), ds[|ds| - 1];
      if d.Snapshot? && NewerThan(earlier, name, d.s) then Some(d.s) else earlier
  }

  predicate NewerThan(earlier: Option<AccountSnapshot>, name: BrokerName, s: AccountSnapshot) {
    s.broker == name && (earlier.None? || s.observedAt > earlier.value.observedAt)
  }

  /** The cuts since then, read off the history alone: the last write to each key. */
  function Touches(name: BrokerName, ds: seq<Delivery>): map<PositionKey, Option<Facts>> {
    if ds == [] then map[]
    else
      var earlier, before, d := Latest(name, ds[..|ds| - 1]), Touches(name, ds[..|ds| - 1]), ds[|ds| - 1];
      if d.Snapshot? && NewerThan(earlier, name, d.s) then map[]
      else if d.Interrupted? && CutFits(d.s, d.cut) && NewerThan(earlier, name, d.s) then before + Touched(d.s, d.cut)
      else before
  }

  lemma {:induction false} BookAfterDeliveries(a: Account, name: BrokerName, ds: seq<Delivery>)
    requires BookOk(a.book) && a.ctx.broker != Some(name)
    ensures var a' := Deliveries(a, name, ds);
      && BookOk(a'.book)
      && match Latest(name, ds)
         case None => a'.ctx.broker == a.ctx.broker
         case Some(s) => ContextDescribes(a'.ctx, name, s) && BookIs(OpenBook(a'.book), s, Touches(name, ds))
  {
    if ds == [] {
    } else {
      var n := |ds| - 1;
      BookAfterDeliveries(a, name, ds[..n]);
      OneMoreDelivery(Deliveries(a, name, ds[..n]), name, Latest(name, ds[..n]), Touches(name, ds[..n]), ds[n]);
    }
  }

  lemma OneMoreDelivery(a: Account, name: BrokerName, latest: Option<AccountSnapshot>,
                        touches: map<PositionKey, Option<Facts>>, d: Delivery)
    requires BookOk(a.book)
    requires if latest.Some? then ContextDescribes(a.ctx, name, latest.value) && BookIs(OpenBook(a.book), latest.value, touches)
             else a.ctx.broker != Some(name)
    ensures var a' := Deliver(a, name, d);
      && BookOk(a'.book)
      && if d.Snapshot? && NewerThan(latest, name, d.s)
         then ContextDescribes(a'.ctx, name, d.s) && BookIs(OpenBook(a'.book), d.s, map[])
         else if latest.Some? then
           && ContextDescribes(a'.ctx, name, latest.value)
           && BookIs(OpenBook(a'.book), latest.value,
                     if d.Interrupted? && CutFits(d.s, d.cut) && NewerThan(latest, name, d.s)
                     then touches + Touched(d.s, d.cut) else touches)
         else a'.ctx.broker == a.ctx.broker
  {
    DeliveryDescribes(a, name, latest, touches, d);
  }

  /** Last writer wins: after any deliveries in any order, with duplicates, outages, restarts and
      reconciles cut short between them, the context describes the newest accepted snapshot, and the
      open positions are its non-zero rows if and only if no cut since then left a key otherwise. */
  lemma LastWriterWins(a: Account, name: BrokerName, ds: seq<Delivery>)
    requires BookOk(a.book) && a.ctx.broker != Some(name)
    ensures match Latest(name, ds)
      case None => Deliveries(a, name, ds).ctx.broker == a.ctx.broker
      case Some(s) =>
        && ContextDescribes(Deliveries(a, name, ds).ctx, name, s)
        && (Describes(Deliveries(a, name, ds), name, s) <==> Undisturbed(s, Touches(name, ds)))
  {
    BookAfterDeliveries(a, name, ds);
    if Latest(name, ds).Some? {
      BookRightIffUndisturbed(OpenBook(Deliveries(a, name, ds).book), Latest(name, ds).value, Touches(name, ds));
    }
  }

  predicate Uninterrupted(ds: seq<Delivery>) { forall i | 0 <= i < |ds| :: !ds[i].Interrupted? }

  lemma {:induction false} NothingTouched(name: BrokerName, ds: seq<Delivery>)
    requires Uninterrupted(ds)
    ensures Touches(name, ds) == map[]
  {
    if ds != [] { NothingTouched(name, ds[..|ds| - 1]); }
  }

  predicate Delivered(name: BrokerName, ds: seq<Delivery>, s: AccountSnapshot) {
    s.broker == name && exists i :: 0 <= i < |ds| && ds[i].Snapshot? && ds[i].s == s
  }

  lemma {:induction false} LatestIsGreatest(name: BrokerName, ds: seq<Delivery>)
    ensures Latest(name, ds).Some? ==> Delivered(name, ds, Latest(name, ds).value)
    ensures forall i | 0 <= i < |ds| && ds[i].Snapshot? && ds[i].s.broker == name ::
              Latest(name, ds).Some? && ds[i].s.observedAt <= Latest(name, ds).value.observedAt
  {
    if ds == [] {
    } else {
      var n := |ds| - 1;
      LatestIsGreatest(name, ds[..n]);
      assert forall i | 0 <= i < n :: ds[..n][i] == ds[i];
      assert ds[n] == ds[n];
    }
  }

  /** Equal observation times carry equal content. */
  predicate Consistent(ds: seq<Delivery>) {
    forall i, j | 0 <= i < |ds| && 0 <= j < |ds| && ds[i].Snapshot? && ds[j].Snapshot?
                  && ds[i].s.observedAt == ds[j].s.observedAt :: ds[i].s == ds[j].s
  }

  /** Two delivery histories of the same snapshots have the same latest one, however reordered,
      repeated or interrupted. */
  lemma SameLatest(name: BrokerName, ds: seq<Delivery>, ds': seq<Delivery>)
    requires Consistent(ds)
    requires forall s :: Delivered(name, ds, s) <==> Delivered(name, ds', s)
    ensures Latest(name, ds) == Latest(name, ds')
  {
    LatestIsGreatest(name, ds);
    LatestIsGreatest(name, ds');
    if Latest(name, ds).Some? || Latest(name, ds').Some? {
      assert Latest(name, ds).Some? && Latest(name, ds').Some? by {
        if Latest(name, ds).Some? { assert Delivered(name, ds', Latest(name, ds).value); }
        if Latest(name, ds').Some? { assert Delivered(name, ds, Latest(name, ds').value); }
      }
      var s, s' := Latest(name, ds).value, Latest(name, ds').value;
      assert Delivered(name, ds, s') && Delivered(name, ds', s);
    }
  }

  /** Such histories end with the same Risk token, and with the same open book unless a cut in one
      of them disturbed it. */
  lemma DeliveryOrderIrrelevant(a: Account, name: BrokerName, ds: seq<Delivery>, ds': seq<Delivery>)
    requires BookOk(a.book) && a.ctx.broker != Some(name)
    requires Consistent(ds) && Latest(name, ds).Some?
    requires forall s :: Delivered(name, ds, s) <==> Delivered(name, ds', s)
    ensures Deliveries(a, name, ds).ctx.token == Deliveries(a, name, ds').ctx.token
    ensures Latest(name, ds) == Latest(name, ds')
    ensures var s := Latest(name, ds).value;
      Undisturbed(s, Touches(name, ds)) && Undisturbed(s, Touches(name, ds')) ==>
        OpenBook(Deliveries(a, name, ds).book) == OpenBook(Deliveries(a, name, ds').book)
    ensures Uninterrupted(ds) && Uninterrupted(ds') ==>
      OpenBook(Deliveries(a, name, ds).book) == OpenBook(Deliveries(a, name, ds').book)
  {
    SameLatest(name, ds, ds');
    LastWriterWins(a, name, ds);
    LastWriterWins(a, name, ds');
    if Uninterrupted(ds) { NothingTouched(name, ds); }
    if Uninterrupted(ds') { NothingTouched(name, ds'); }
  }

  // ------------------------------------------------- a replay after a crash

  /** The process dies within the reconcile of an accepted snapshot: the store keeps what was saved,
      the context still describes the snapshot before, and Core restarts. */
  function CrashedDuring(a: Account, lost: AccountSnapshot, firstId: Id, cut: Cut): Account
    requires CutFits(lost, cut)
  {
    Account(CutBook(a.book, lost, IdRange(firstId, |lost.rows|), cut), Restarted(a.ctx))
  }

  /** What a caller can look up before the call: each row saved says what its key already held open,
      and nothing closed was open. */
  predicate CutIsHarmless(book: map<PositionKey, Position>, lost: AccountSnapshot, cut: Cut)
    requires CutFits(lost, cut)
  {
    forall key | key in Written(lost, cut) :: LeftOpen(lost, cut, key) == FactsAt(OpenBook(book), key)
  }

  /** However much of a reconcile a crash lost, replaying the snapshot before it leaves the right book
      if and only if what was saved changed nothing that was open. */
  lemma ReplayRightIff(a: Account, name: BrokerName, s: AccountSnapshot, replayId: Id, lost: AccountSnapshot,
                       firstId: Id, cut: Cut)
    requires BookOk(a.book) && Describes(a, name, s) && s.broker == name && CutFits(lost, cut)
    ensures var b := Deliver(CrashedDuring(a, lost, firstId, cut), name, Snapshot(s, replayId));
      && b.ctx == a.ctx.(runtimeReconciled := true)
      && (Describes(b, name, s) <==> CutIsHarmless(a.book, lost, cut))
  {
    var b := Deliver(CrashedDuring(a, lost, firstId, cut), name, Snapshot(s, replayId));
    forall key
      ensures FactsAt(OpenBook(b.book), key) ==
        if key in Touched(lost, cut) then Touched(lost, cut)[key] else FactsAt(OpenBook(a.book), key)
    {
      CutBookFacts(a.book, lost, IdRange(firstId, |lost.rows|), cut, key);
    }
    SameFactsSameBook(OpenBook(b.book), OpenBook(a.book));
  }

  /** However much of a reconcile was lost, the next snapshot Core accepts repairs the book. */
  lemma NextAcceptRepairs(a: Account, name: BrokerName, lost: AccountSnapshot, firstId: Id, cut: Cut, next: Delivery)
    requires BookOk(a.book) && CutFits(lost, cut) && Accepts(a.ctx, name, next)
    ensures Describes(Deliver(CrashedDuring(a, lost, firstId, cut), name, next), name, next.s)
  {
    CutKeepsBookOk(a.book, lost, IdRange(firstId, |lost.rows|), cut);
    AcceptedBook(CrashedDuring(a, lost, firstId, cut).book, next.s, NewIds(next));
  }

  /** So a replay can mislead: Core calls itself reconciled while its open book is not what that
      snapshot, and its Risk token, say. */
  lemma ReplayAfterCrashMisleads() returns (before: AccountSnapshot, lost: AccountSnapshot)
    ensures |lost.rows| == 1 && before.broker == lost.broker && before.observedAt < lost.observedAt
    ensures var name, ds := before.broker, [Snapshot(before, 1), Interrupted(lost, 2, Cut(1, {})), Snapshot(before, 3)];
      var b := Deliveries(Account(map[], EMPTY_CONTEXT), name, ds);
      && b.ctx.runtimeReconciled && b.ctx.status == BrokerReconciled && b.ctx.token == Some(TokenOf(before))
      && OpenBook(b.book) != NonZeroRows(before)
  {
    var facts := Facts("", "", "", 5, 1.0, None, None, None, None);
    before := AccountSnapshot(0, 1, [BrokerRow(0, facts, 1)], None, None, None);
    lost := AccountSnapshot(0, 2, [BrokerRow(0, facts.(quantity := 7), 2)], None, None, None);
    var empty := Account(map[], EMPTY_CONTEXT);
    var a := Deliver(empty, 0, Snapshot(before, 1));
    DeliveriesOfThree(empty, 0, Snapshot(before, 1), Interrupted(lost, 2, Cut(1, {})), Snapshot(before, 3));
    AcceptedBook(map[], before, IdRange(1, 1));
    ReplayRightIff(a, 0, before, 3, lost, 2, Cut(1, {}));
    OneRow(before, facts);
    OneRow(lost, facts.(quantity := 7));
    assert LeftOpen(lost, Cut(1, {}), 0) != FactsAt(OpenBook(a.book), 0);
  }

  lemma OneRow(s: AccountSnapshot, facts: Facts)
    requires |s.rows| == 1 && s.rows[0].key == 0 && s.rows[0].facts == facts && facts.quantity != 0
    ensures RowAt(s, 0) == Some(facts) && LeftOpen(s, Cut(1, {}), 0) == Some(facts) && 0 in Written(s, Cut(1, {}))
  {
    assert LastRow(s.rows, 1, 0) == Some(0);
    RowAtLast(s, 0);
    assert s.rows[0].key in Written(s, Cut(1, {}));
  }

  lemma DeliveriesOfThree(a: Account, name: BrokerName, d: Delivery, e: Delivery, f: Delivery)
    ensures Deliveries(a, name, [d, e, f]) == Deliver(Deliver(Deliver(a, name, d), name, e), name, f)
  {
    assert [d, e, f][..2] == [d, e] && [d, e][..1] == [d] && [d][..0] == [];
    assert Deliveries(a, name, [d]) == Deliver(a, name, d);
    assert Deliveries(a, name, [d, e]) == Deliver(Deliver(a, name, d), name, e);
  }
}
