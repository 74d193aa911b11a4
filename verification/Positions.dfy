/** Broker-truth position reconciliation and the MANAGED/UNMANAGED boundary. */
module Positions {
  import opened Domain
  import opened Store

  // -------------------------------------------------------------- the position book

  function StateFor(quantity: int): PositionState { if quantity != 0 then Open else Closed }

  /** Stored under its id, one position per broker key, OPEN exactly when there is exposure. */
  predicate Coherent(positions: map<Id, Position>) {
    && (forall id | id in positions ::
          positions[id].positionId == id && positions[id].state == StateFor(positions[id].facts.quantity))
    && (forall i, j | i in positions && j in positions
          && positions[i].broker == positions[j].broker && positions[i].key == positions[j].key :: i == j)
  }

  /** The stored positions of one broker, by broker position key. */
  function ByKey(positions: map<Id, Position>, broker: BrokerName): map<PositionKey, Position>
    requires Coherent(positions)
  {
    map id | id in positions && positions[id].broker == broker :: positions[id].key := positions[id]
  }

  predicate OthersKept(broker: BrokerName, before: map<Id, Position>, after: map<Id, Position>) {
    && (forall id | id in before && before[id].broker != broker :: id in after && after[id] == before[id])
    && (forall id | id in after && after[id].broker != broker :: id in before && before[id] == after[id])
  }

  /** `book` is the table of one broker's stored positions. */
  predicate Indexes(book: map<PositionKey, Position>, positions: map<Id, Position>, broker: BrokerName) {
    && (forall key | key in book ::
          && book[key].key == key && book[key].broker == broker
          && book[key].positionId in positions && positions[book[key].positionId] == book[key])
    && (forall id | id in positions && positions[id].broker == broker ::
          positions[id].key in book && book[positions[id].key] == positions[id])
  }

  lemma ByKeyIndexes(positions: map<Id, Position>, broker: BrokerName)
    requires Coherent(positions)
    ensures Indexes(ByKey(positions, broker), positions, broker)
  {
  }

  lemma IndexIsByKey(book: map<PositionKey, Position>, positions: map<Id, Position>, broker: BrokerName)
    requires Coherent(positions) && Indexes(book, positions, broker)
    ensures book == ByKey(positions, broker)
  {
    var book' := ByKey(positions, broker);
    ByKeyIndexes(positions, broker);
    forall key | key in book ensures key in book' && book'[key] == book[key] {
      assert positions[book[key].positionId] == book[key];
    }
    forall key | key in book' ensures key in book {
      assert positions[book'[key].positionId] == book'[key];
    }
  }

  lemma OneIndexed(book: map<PositionKey, Position>, positions: map<Id, Position>, p: Position, key: PositionKey)
    requires positions == map[p.positionId := p] && Indexes(book, positions, p.broker)
    ensures key in book <==> key == p.key
    ensures key in book ==> book[key] == p
  {
    assert p.positionId in positions;
  }

  /** The book of a store that holds a single position. */
  lemma OneEntry(positions: map<Id, Position>, p: Position, key: PositionKey)
    requires positions == map[p.positionId := p] && Coherent(positions)
    ensures key in ByKey(positions, p.broker) <==> key == p.key
    ensures key in ByKey(positions, p.broker) ==> ByKey(positions, p.broker)[key] == p
  {
    ByKeyIndexes(positions, p.broker);
    OneIndexed(ByKey(positions, p.broker), positions, p, key);
  }

  /** Saving one position of a broker replaces its entry in that broker's book and no other. */
  lemma SavedPosition(book: map<PositionKey, Position>, positions: map<Id, Position>, p: Position)
    requires Coherent(positions) && Indexes(book, positions, p.broker)
    requires p.state == StateFor(p.facts.quantity)
    requires if p.key in book then p.positionId == book[p.key].positionId else p.positionId !in positions
    ensures var after := positions[p.positionId := p];
      Coherent(after) && Indexes(book[p.key := p], after, p.broker) && OthersKept(p.broker, positions, after)
  {
  }

  // ------------------------------------------------- the merge as a simple map

  /** The last row for a key among the first n: the one that counts. */
  function LastRow(rows: seq<BrokerRow>, n: nat, key: PositionKey): Option<nat>
    requires n <= |rows|
  {
    if n == 0 then None
    else if rows[n - 1].key == key then Some(n - 1)
    else LastRow(rows, n - 1, key)
  }

  /** The first row for a key among the first n: the one that discovers an unknown position. */
  function FirstRow(rows: seq<BrokerRow>, n: nat, key: PositionKey): Option<nat>
    requires n <= |rows|
  {
    if n == 0 then None
    else
      var earlier := FirstRow(rows, n - 1, key);
      if earlier.Some? then earlier
      else if rows[n - 1].key == key then Some(n - 1)
      else None
  }

  lemma {:induction false} RowsFound(rows: seq<BrokerRow>, n: nat, key: PositionKey)
    requires n <= |rows|
    ensures match (FirstRow(rows, n, key), LastRow(rows, n, key))
      case (Some(first), Some(last)) =>
        && first <= last < n && rows[first].key == key && rows[last].key == key
        && (forall j | 0 <= j < n && rows[j].key == key :: first <= j <= last)
      case (None, None) => forall j | 0 <= j < n :: rows[j].key != key
      case _ => false
  {
    if n > 0 { RowsFound(rows, n - 1, key); }
  }

  predicate DistinctRows(rows: seq<BrokerRow>) {
    forall i, j | 0 <= i < j < |rows| :: rows[i].key != rows[j].key
  }

  /** A position no row created before: external, and nobody manages it. */
  function Discovered(s: AccountSnapshot, row: BrokerRow, id: Id): Position {
    Position(id, s.broker, row.key, row.facts, StateFor(row.facts.quantity),
             Unmanaged, BrokerExternal, row.observedAt, row.observedAt)
  }

  /** The broker's word about a known position; identity and management stay. */
  function Refreshed(p: Position, facts: Facts, at: Time): Position {
    p.(facts := facts, state := StateFor(facts.quantity), updatedAt := at)
  }

  /** A key the snapshot omits: an open position is closed. */
  function Absent(p: Position, at: Time): Position {
    if p.state == Closed then p
    else p.(facts := p.facts.(quantity := 0), state := Closed, updatedAt := at)
  }

  function RowRecord(book: map<PositionKey, Position>, s: AccountSnapshot, row: BrokerRow, id: Id): Position {
    if row.key in book then Refreshed(book[row.key], row.facts, s.observedAt) else Discovered(s, row, id)
  }

  function RowApplied(book: map<PositionKey, Position>, s: AccountSnapshot, row: BrokerRow, id: Id): map<PositionKey, Position> {
    book[row.key := RowRecord(book, s, row, id)]
  }

  /** First pass: the first n rows applied in order. */
  function RowsApplied(book: map<PositionKey, Position>, s: AccountSnapshot, ids: seq<Id>, n: nat): map<PositionKey, Position>
    requires n <= |s.rows| <= |ids|
  {
    if n == 0 then book else RowApplied(RowsApplied(book, s, ids, n - 1), s, s.rows[n - 1], ids[n - 1])
  }

  predicate Mentions(s: AccountSnapshot, key: PositionKey) { LastRow(s.rows, |s.rows|, key).Some? }

  /** Second pass: what the snapshot does not mention is closed. */
  function OmittedClosed(book: map<PositionKey, Position>, s: AccountSnapshot): map<PositionKey, Position> {
    map key | key in book :: if Mentions(s, key) then book[key] else Absent(book[key], s.observedAt)
  }

  function Merge(book: map<PositionKey, Position>, s: AccountSnapshot, ids: seq<Id>): map<PositionKey, Position>
    requires |s.rows| <= |ids|
  {
    OmittedClosed(RowsApplied(book, s, ids, |s.rows|), s)
  }

  /** What a key holds once its rows are applied: existing positions take the last row's
      facts, unknown ones appear UNMANAGED from their first row. */
  function Present(known: Option<Position>, s: AccountSnapshot, ids: seq<Id>, first: nat, last: nat): Position
    requires first <= last < |s.rows| <= |ids|
  {
    if known.Some? then Refreshed(known.value, s.rows[last].facts, s.observedAt)
    else if first == last then Discovered(s, s.rows[last], ids[first])
    else Refreshed(Discovered(s, s.rows[first], ids[first]), s.rows[last].facts, s.observedAt)
  }

  function At(book: map<PositionKey, Position>, key: PositionKey): Option<Position> {
    if key in book then Some(book[key]) else None
  }

  lemma {:induction false} RowsAppliedAt(book: map<PositionKey, Position>, s: AccountSnapshot, ids: seq<Id>, n: nat, key: PositionKey)
    requires n <= |s.rows| <= |ids|
    ensures match (FirstRow(s.rows, n, key), LastRow(s.rows, n, key))
      case (Some(first), Some(last)) => first <= last < n
      case (None, None) => true
      case _ => false
    ensures At(RowsApplied(book, s, ids, n), key) ==
      if LastRow(s.rows, n, key).None? then At(book, key)
      else Some(Present(At(book, key), s, ids, FirstRow(s.rows, n, key).value, LastRow(s.rows, n, key).value))
  {
    if n == 0 {
    } else {
      RowsAppliedAt(book, s, ids, n - 1, key);
    }
  }

  /** The two-pass merge is the simple map: keys the snapshot reports are overwritten or
      discovered, keys it omits are closed, and there are no others. */
  lemma MergeIsSimple(book: map<PositionKey, Position>, s: AccountSnapshot, ids: seq<Id>, key: PositionKey)
    requires |s.rows| <= |ids|
    ensures var first, last := FirstRow(s.rows, |s.rows|, key), LastRow(s.rows, |s.rows|, key);
      && (first.Some? <==> last.Some?)
      && (first.Some? ==> first.value <= last.value < |s.rows|)
      && At(Merge(book, s, ids), key) ==
         if last.Some? then Some(Present(At(book, key), s, ids, first.value, last.value))
         else if key in book then Some(Absent(book[key], s.observedAt))
         else None
  {
    RowsAppliedAt(book, s, ids, |s.rows|, key);
  }

  // --------------------------------------------------- a merge that is cut short

  /** How far a merge got before the process died: `rows` row saves and, once every row was
      saved, the closings of the omitted keys in `closed`. */
  datatype Cut = Cut(rows: nat, closed: set<PositionKey>)

  predicate CutFits(s: AccountSnapshot, cut: Cut) {
    cut.rows <= |s.rows| && (cut.closed != {} ==> cut.rows == |s.rows|)
  }

  /** The book a cut leaves in the store. */
  function CutBook(book: map<PositionKey, Position>, s: AccountSnapshot, ids: seq<Id>, cut: Cut): map<PositionKey, Position>
    requires |s.rows| <= |ids| && CutFits(s, cut)
  {
    var saved := RowsApplied(book, s, ids, cut.rows);
    map key | key in saved ::
      if key in cut.closed && !Mentions(s, key) then Absent(saved[key], s.observedAt) else saved[key]
  }

  lemma CutBookAt(book: map<PositionKey, Position>, s: AccountSnapshot, ids: seq<Id>, cut: Cut, key: PositionKey)
    requires |s.rows| <= |ids| && CutFits(s, cut)
    ensures LastRow(s.rows, cut.rows, key).Some? ==>
      && FirstRow(s.rows, cut.rows, key).Some?
      && FirstRow(s.rows, cut.rows, key).value <= LastRow(s.rows, cut.rows, key).value < cut.rows
    ensures At(CutBook(book, s, ids, cut), key) ==
      if LastRow(s.rows, cut.rows, key).Some? then
        Some(Present(At(book, key), s, ids, FirstRow(s.rows, cut.rows, key).value, LastRow(s.rows, cut.rows, key).value))
      else if key in cut.closed && key in book then Some(Absent(book[key], s.observedAt))
      else At(book, key)
  {
    RowsAppliedAt(book, s, ids, cut.rows, key);
    RowsFound(s.rows, cut.rows, key);
    RowsFound(s.rows, |s.rows|, key);
  }

  /** A merge that was not cut short. */
  lemma WholeCutIsMerge(book: map<PositionKey, Position>, s: AccountSnapshot, ids: seq<Id>, closed: set<PositionKey>)
    requires |s.rows| <= |ids|
    requires forall key | key in book && !Mentions(s, key) :: key in closed
    ensures CutBook(book, s, ids, Cut(|s.rows|, closed)) == Merge(book, s, ids)
  {
    var cut, merged := CutBook(book, s, ids, Cut(|s.rows|, closed)), Merge(book, s, ids);
    forall key ensures At(cut, key) == At(merged, key) {
      RowsAppliedAt(book, s, ids, |s.rows|, key);
    }
    assert forall key :: key in cut <==> At(cut, key).Some?;
  }

  /** Whatever a cut saved of a known position, its identity, provenance and management stay;
      positions it discovered are UNMANAGED. */
  lemma CutPreserves(book: map<PositionKey, Position>, s: AccountSnapshot, ids: seq<Id>, cut: Cut, key: PositionKey)
    requires |s.rows| <= |ids| && CutFits(s, cut) && key in CutBook(book, s, ids, cut)
    ensures var p' := CutBook(book, s, ids, cut)[key];
      if key in book then
        var p := book[key];
        && p'.positionId == p.positionId && p'.broker == p.broker && p'.key == p.key
        && p'.management == p.management && p'.origin == p.origin && p'.firstSeenAt == p.firstSeenAt
      else
        p'.management == Unmanaged && p'.origin == BrokerExternal && p'.broker == s.broker
  {
    CutBookAt(book, s, ids, cut, key);
  }

  // ------------------------------------------------------------------- events

  datatype PositionEventName =
    | BrokerPositionDiscovered | BrokerPositionChanged | BrokerPositionClosed | BrokerPositionReopened

  datatype PositionEvent = PositionEvent(name: PositionEventName, positionId: Id)

  predicate MateriallyChanged(p: Position, p': Position) {
    (p.facts.exchange, p.facts.symbol, p.facts.product, p.facts.quantity, p.facts.averagePrice, p.state,
     p.facts.instrumentToken)
    != (p'.facts.exchange, p'.facts.symbol, p'.facts.product, p'.facts.quantity, p'.facts.averagePrice, p'.state,
        p'.facts.instrumentToken)
  }

  function ChangeName(p: Position, p': Position): PositionEventName {
    if p.state == Open && p'.state == Closed then BrokerPositionClosed
    else if p.state == Closed && p'.state == Open then BrokerPositionReopened
    else BrokerPositionChanged
  }

  function RowEvent(book: map<PositionKey, Position>, s: AccountSnapshot, row: BrokerRow, id: Id): seq<PositionEvent> {
    if row.key !in book then [PositionEvent(BrokerPositionDiscovered, id)]
    else
      var p, p' := book[row.key], Refreshed(book[row.key], row.facts, s.observedAt);
      if MateriallyChanged(p, p') then [PositionEvent(ChangeName(p, p'), p.positionId)] else []
  }

  function RowEvents(book: map<PositionKey, Position>, s: AccountSnapshot, ids: seq<Id>, n: nat): seq<PositionEvent>
    requires n <= |s.rows| <= |ids|
  {
    if n == 0 then []
    else RowEvents(book, s, ids, n - 1) + RowEvent(RowsApplied(book, s, ids, n - 1), s, s.rows[n - 1], ids[n - 1])
  }

  /** Each key once; a Python dict is iterated in such an order. */
  ghost predicate Enumerates(order: seq<PositionKey>, keys: set<PositionKey>) {
    && (forall key :: key in order <==> key in keys)
    && (forall i, j | 0 <= i < j < |order| :: order[i] != order[j])
  }

  lemma OneMoreKey(order: seq<PositionKey>, keys: set<PositionKey>, key: PositionKey)
    requires Enumerates(order, keys) && key !in keys
    ensures Enumerates(order + [key], keys + {key})
  {
  }

  predicate ToClose(book: map<PositionKey, Position>, s: AccountSnapshot, key: PositionKey) {
    key in book && !Mentions(s, key) && book[key].state != Closed
  }

  function ClosingEvent(book: map<PositionKey, Position>, s: AccountSnapshot, key: PositionKey): seq<PositionEvent> {
    if ToClose(book, s, key) then [PositionEvent(BrokerPositionClosed, book[key].positionId)] else []
  }

  function ClosingEvents(book: map<PositionKey, Position>, s: AccountSnapshot, order: seq<PositionKey>, n: nat): seq<PositionEvent>
    requires n <= |order|
  {
    if n == 0 then [] else ClosingEvents(book, s, order, n - 1) + ClosingEvent(book, s, order[n - 1])
  }

  /** If nothing the snapshot omits is open, the second pass is silent. */
  lemma {:induction false} NothingToClose(book: map<PositionKey, Position>, s: AccountSnapshot, order: seq<PositionKey>, n: nat)
    requires n <= |order| && (forall key | key in book && !Mentions(s, key) :: book[key].state == Closed)
    ensures ClosingEvents(book, s, order, n) == []
  {
    if n > 0 { NothingToClose(book, s, order, n - 1); }
  }

  // --------------------------------------------------------- what the merge means

  /** Identity, provenance, first sighting and the MANAGED/UNMANAGED mark of an existing
      position survive any snapshot; OPEN still means exposure; new positions are UNMANAGED. */
  lemma MergePreserves(book: map<PositionKey, Position>, s: AccountSnapshot, ids: seq<Id>, key: PositionKey)
    requires |s.rows| <= |ids| && key in Merge(book, s, ids)
    requires key in book ==> book[key].state == StateFor(book[key].facts.quantity)
    ensures var p' := Merge(book, s, ids)[key];
      && p'.state == StateFor(p'.facts.quantity)
      && (if key in book then
            var p := book[key];
            && p'.positionId == p.positionId && p'.broker == p.broker && p'.key == p.key
            && p'.management == p.management && p'.origin == p.origin && p'.firstSeenAt == p.firstSeenAt
          else
            && p'.management == Unmanaged && p'.origin == BrokerExternal
            && p'.broker == s.broker && p'.key == key && p'.positionId in ids)
  {
    MergeIsSimple(book, s, ids, key);
    RowsFound(s.rows, |s.rows|, key);
  }

  /** A second application changes at most timestamps. */
  lemma MergeIdempotent(book: map<PositionKey, Position>, s: AccountSnapshot, ids: seq<Id>, ids': seq<Id>, key: PositionKey)
    requires |s.rows| <= |ids| && |s.rows| <= |ids'|
    ensures var once := Merge(book, s, ids);
      var twice := Merge(once, s, ids');
      && (key in twice <==> key in once)
      && (key in once ==> twice[key] == once[key].(updatedAt := twice[key].updatedAt))
  {
    MergeIsSimple(book, s, ids, key);
    MergeIsSimple(Merge(book, s, ids), s, ids', key);
  }

  lemma DistinctRowIsOnly(rows: seq<BrokerRow>, i: nat)
    requires DistinctRows(rows) && i < |rows|
    ensures LastRow(rows, |rows|, rows[i].key) == Some(i)
    ensures LastRow(rows, i, rows[i].key) == None
  {
    RowsFound(rows, |rows|, rows[i].key);
    RowsFound(rows, i, rows[i].key);
    assert forall j | 0 <= j < |rows| && rows[j].key == rows[i].key :: j == i;
  }

  lemma NothingLeftOpen(book: map<PositionKey, Position>, s: AccountSnapshot, ids: seq<Id>, key: PositionKey)
    requires |s.rows| <= |ids|
    ensures var once := Merge(book, s, ids);
      key in once && !Mentions(s, key) ==> once[key].state == Closed
  {
    MergeIsSimple(book, s, ids, key);
  }

  /** Every row already says what the book holds. */
  predicate Told(book: map<PositionKey, Position>, s: AccountSnapshot) {
    forall i | 0 <= i < |s.rows| ::
      && s.rows[i].key in book
      && !MateriallyChanged(book[s.rows[i].key], Refreshed(book[s.rows[i].key], s.rows[i].facts, s.observedAt))
  }

  lemma ToldRowIsSilent(book: map<PositionKey, Position>, s: AccountSnapshot, ids: seq<Id>, n: nat)
    requires n < |s.rows| <= |ids| && DistinctRows(s.rows) && Told(book, s)
    ensures RowEvent(RowsApplied(book, s, ids, n), s, s.rows[n], ids[n]) == []
  {
    DistinctRowIsOnly(s.rows, n);
    RowsAppliedAt(book, s, ids, n, s.rows[n].key);
  }

  predicate Silent(book: map<PositionKey, Position>, s: AccountSnapshot, ids: seq<Id>, n: nat)
    requires n < |s.rows| <= |ids|
  {
    RowEvent(RowsApplied(book, s, ids, n), s, s.rows[n], ids[n]) == []
  }

  lemma {:induction false} SilentRows(book: map<PositionKey, Position>, s: AccountSnapshot, ids: seq<Id>, n: nat)
    requires n <= |s.rows| <= |ids|
    requires forall i | 0 <= i < n :: Silent(book, s, ids, i)
    ensures RowEvents(book, s, ids, n) == []
  {
    if n == 0 {
    } else {
      SilentRows(book, s, ids, n - 1);
      assert Silent(book, s, ids, n - 1);
    }
  }

  /** For distinct keys a second application is silent: neither pass emits an event. */
  lemma SecondMergeIsSilent(book: map<PositionKey, Position>, s: AccountSnapshot, ids: seq<Id>, ids': seq<Id>,
                            order: seq<PositionKey>)
    requires |s.rows| <= |ids| && |s.rows| <= |ids'| && DistinctRows(s.rows)
    ensures var once := Merge(book, s, ids);
      && RowEvents(once, s, ids', |s.rows|) == []
      && ClosingEvents(RowsApplied(once, s, ids', |s.rows|), s, order, |order|) == []
  {
    var once := Merge(book, s, ids);
    forall i | 0 <= i < |s.rows|
      ensures s.rows[i].key in once
      ensures !MateriallyChanged(once[s.rows[i].key],
                                 Refreshed(once[s.rows[i].key], s.rows[i].facts, s.observedAt))
    {
      DistinctRowIsOnly(s.rows, i);
      MergeIsSimple(book, s, ids, s.rows[i].key);
    }
    forall i | 0 <= i < |s.rows|
      ensures Silent(once, s, ids', i)
    {
      ToldRowIsSilent(once, s, ids', i);
    }
    SilentRows(once, s, ids', |s.rows|);
    var applied := RowsApplied(once, s, ids', |s.rows|);
    forall key | key in applied && !Mentions(s, key)
      ensures applied[key].state == Closed
    {
      NothingLeftOpen(book, s, ids, key);
      RowsAppliedAt(once, s, ids', |s.rows|, key);
    }
    NothingToClose(applied, s, order, |order|);
  }

  // ------------------------------------------------ the passes over store and table

  /** The stored positions together with the table `existing` built from them. */
  datatype Ledger = Ledger(positions: map<Id, Position>, book: map<PositionKey, Position>) {
    function Save(key: PositionKey, p: Position): Ledger { Ledger(positions[p.positionId := p], book[key := p]) }
  }

  predicate Fresh(ids: seq<Id>, positions: map<Id, Position>) {
    && (forall i, j | 0 <= i < j < |ids| :: ids[i] != ids[j])
    && (forall i | 0 <= i < |ids| :: ids[i] !in positions)
  }

  ghost predicate Synced(l: Ledger, before: map<Id, Position>, broker: BrokerName) {
    && Coherent(l.positions)
    && Indexes(l.book, l.positions, broker)
    && OthersKept(broker, before, l.positions)
  }

  function RowsSaved(l: Ledger, s: AccountSnapshot, ids: seq<Id>, n: nat): Ledger
    requires n <= |s.rows| <= |ids|
  {
    if n == 0 then l
    else
      var m, row := RowsSaved(l, s, ids, n - 1), s.rows[n - 1];
      m.Save(row.key, RowRecord(m.book, s, row, ids[n - 1]))
  }

  function ClosedSaved(l: Ledger, book: map<PositionKey, Position>, s: AccountSnapshot, order: seq<PositionKey>, n: nat): Ledger
    requires n <= |order|
  {
    if n == 0 then l
    else
      var m, key := ClosedSaved(l, book, s, order, n - 1), order[n - 1];
      if ToClose(book, s, key) then m.Save(key, Absent(book[key], s.observedAt)) else m
  }

  lemma {:induction false} BookOfRows(l: Ledger, s: AccountSnapshot, ids: seq<Id>, n: nat)
    requires n <= |s.rows| <= |ids|
    ensures RowsSaved(l, s, ids, n).book == RowsApplied(l.book, s, ids, n)
  {
    if n > 0 { BookOfRows(l, s, ids, n - 1); }
  }

  lemma SavedSynced(l: Ledger, before: map<Id, Position>, p: Position)
    requires Synced(l, before, p.broker) && p.state == StateFor(p.facts.quantity)
    requires if p.key in l.book then p.positionId == l.book[p.key].positionId else p.positionId !in l.positions
    ensures Synced(l.Save(p.key, p), before, p.broker)
  {
    SavedPosition(l.book, l.positions, p);
  }

  lemma {:induction false} RowsStaySynced(l: Ledger, before: map<Id, Position>, s: AccountSnapshot, ids: seq<Id>, n: nat)
    requires n <= |s.rows| <= |ids| && Synced(l, before, s.broker) && Fresh(ids, l.positions)
    ensures var m := RowsSaved(l, s, ids, n);
      && Synced(m, before, s.broker)
      && (forall j | n <= j < |ids| :: ids[j] !in m.positions)
  {
    if n == 0 {
    } else {
      RowsStaySynced(l, before, s, ids, n - 1);
      var m := RowsSaved(l, s, ids, n - 1);
      SavedSynced(m, before, RowRecord(m.book, s, s.rows[n - 1], ids[n - 1]));
    }
  }

  /** The table while closing: only the first n listed keys were visited. */
  lemma {:induction false} BookWhileClosing(l: Ledger, s: AccountSnapshot, order: seq<PositionKey>, n: nat, key: PositionKey)
    requires n <= |order| && (forall k | k in order :: k in l.book)
    ensures At(ClosedSaved(l, l.book, s, order, n).book, key) ==
      if key in order[..n] && ToClose(l.book, s, key) then Some(Absent(l.book[key], s.observedAt))
      else At(l.book, key)
  {
    if n > 0 {
      assert order[..n] == order[..n - 1] + [order[n - 1]];
      BookWhileClosing(l, s, order, n - 1, key);
    }
  }

  lemma {:induction false} ClosingStaysSynced(l: Ledger, before: map<Id, Position>, s: AccountSnapshot,
                                              order: seq<PositionKey>, n: nat)
    requires n <= |order| && Synced(l, before, s.broker) && Enumerates(order, l.book.Keys)
    ensures Synced(ClosedSaved(l, l.book, s, order, n), before, s.broker)
  {
    if n == 0 {
    } else {
      ClosingStaysSynced(l, before, s, order, n - 1);
      var m, key := ClosedSaved(l, l.book, s, order, n - 1), order[n - 1];
      BookWhileClosing(l, s, order, n - 1, key);
      if ToClose(l.book, s, key) {
        assert key !in order[..n - 1];
        assert At(m.book, key) == Some(l.book[key]);
        SavedSynced(m, before, Absent(l.book[key], s.observedAt));
      }
    }
  }

  lemma ClosingDone(l: Ledger, s: AccountSnapshot, order: seq<PositionKey>)
    requires Enumerates(order, l.book.Keys)
    ensures ClosedSaved(l, l.book, s, order, |order|).book == OmittedClosed(l.book, s)
  {
    var closed := ClosedSaved(l, l.book, s, order, |order|).book;
    assert order[..|order|] == order;
    forall key ensures At(closed, key) == At(OmittedClosed(l.book, s), key) {
      BookWhileClosing(l, s, order, |order|, key);
    }
    assert forall key :: key in closed <==> At(closed, key).Some?;
  }

  /** Between any two row saves the store holds the book of a cut. */
  lemma RowSavesAreCuts(l: Ledger, before: map<Id, Position>, s: AccountSnapshot, ids: seq<Id>, n: nat)
    requires n <= |s.rows| <= |ids| && Synced(l, before, s.broker) && Fresh(ids, l.positions)
    ensures Synced(RowsSaved(l, s, ids, n), before, s.broker)
    ensures RowsSaved(l, s, ids, n).book == CutBook(l.book, s, ids, Cut(n, {}))
  {
    RowsStaySynced(l, before, s, ids, n);
    BookOfRows(l, s, ids, n);
  }

  function FirstKeys(order: seq<PositionKey>, n: nat): set<PositionKey>
    requires n <= |order|
  {
    set i | 0 <= i < n :: order[i]
  }

  lemma ClosingBookIsCut(m: Ledger, book: map<PositionKey, Position>, s: AccountSnapshot, ids: seq<Id>,
                         order: seq<PositionKey>, n: nat)
    requires |s.rows| <= |ids| && n <= |order| && m.book == RowsApplied(book, s, ids, |s.rows|)
    requires forall k | k in order :: k in m.book
    ensures ClosedSaved(m, m.book, s, order, n).book == CutBook(book, s, ids, Cut(|s.rows|, FirstKeys(order, n)))
  {
    var closed, cut := ClosedSaved(m, m.book, s, order, n).book, CutBook(book, s, ids, Cut(|s.rows|, FirstKeys(order, n)));
    forall key ensures At(closed, key) == At(cut, key) {
      BookWhileClosing(m, s, order, n, key);
      assert key in order[..n] <==> key in FirstKeys(order, n);
    }
    assert forall key :: key in closed <==> At(closed, key).Some?;
  }

  /** And so it does between any two closing saves. */
  lemma ClosingSavesAreCuts(l: Ledger, before: map<Id, Position>, s: AccountSnapshot, ids: seq<Id>,
                            order: seq<PositionKey>, n: nat)
    requires |s.rows| <= |ids| && Synced(l, before, s.broker) && Fresh(ids, l.positions) && n <= |order|
    requires Enumerates(order, RowsApplied(l.book, s, ids, |s.rows|).Keys)
    ensures var m := RowsSaved(l, s, ids, |s.rows|);
      && Synced(ClosedSaved(m, m.book, s, order, n), before, s.broker)
      && ClosedSaved(m, m.book, s, order, n).book == CutBook(l.book, s, ids, Cut(|s.rows|, FirstKeys(order, n)))
  {
    var m := RowsSaved(l, s, ids, |s.rows|);
    RowsStaySynced(l, before, s, ids, |s.rows|);
    BookOfRows(l, s, ids, |s.rows|);
    ClosingStaysSynced(m, before, s, order, n);
    ClosingBookIsCut(m, l.book, s, ids, order, n);
  }

  // ----------------------------------------------------------- the position manager

  function Adopted(p: Position, at: Time): Position {
    p.(management := Managed,
       origin := if p.origin == BrokerExternal then BrokerAdopted else p.origin,
       updatedAt := at)
  }

  class PositionManager {
    const repository: Repository

    constructor (repository: Repository)
      ensures this.repository == repository
    {
      this.repository := repository;
    }

    /** `list(existing)`: the keys in some order. */
    static method ListKeys(keys: set<PositionKey>) returns (order: seq<PositionKey>)
      ensures Enumerates(order, keys)
    {
      order := [];
      var rest := keys;
      while rest != {}
        invariant rest <= keys
        invariant Enumerates(order, keys - rest)
        decreases |rest|
      {
        var key :| key in rest;
        OneMoreKey(order, keys - rest, key);
        assert keys - (rest - {key}) == keys - rest + {key};
        rest, order := rest - {key}, order + [key];
      }
      assert keys - rest == keys;
    }

    /** One broker snapshot against the stored positions; `ids` are the identifiers
        generated for positions seen for the first time. */
    method Reconcile(snapshot: AccountSnapshot, ids: seq<Id>)
      returns (events: seq<PositionEvent>, ghost order: seq<PositionKey>)
      requires Coherent(repository.positions)
      requires |snapshot.rows| <= |ids| && Fresh(ids, repository.positions)
      modifies repository`positions
      ensures Coherent(repository.positions)
      ensures ByKey(repository.positions, snapshot.broker)
           == Merge(ByKey(old(repository.positions), snapshot.broker), snapshot, ids)
      ensures OthersKept(snapshot.broker, old(repository.positions), repository.positions)
      ensures var book := ByKey(old(repository.positions), snapshot.broker);
        var applied := RowsApplied(book, snapshot, ids, |snapshot.rows|);
        && Enumerates(order, applied.Keys)
        && events == RowEvents(book, snapshot, ids, |snapshot.rows|)
                     + ClosingEvents(applied, snapshot, order, |order|)
    {
      ghost var before := repository.positions;
      ghost var start := Ledger(before, ByKey(before, snapshot.broker));
      ByKeyIndexes(before, snapshot.broker);
      RowsStaySynced(start, before, snapshot, ids, |snapshot.rows|);
      var existing := ByKey(repository.positions, snapshot.broker);
      var seen, rowEvents;
      existing, seen, rowEvents := ApplyRows(snapshot, ids, existing);
      var listed := ListKeys(existing.Keys);
      BookOfRows(start, snapshot, ids, |snapshot.rows|);
      ghost var applied := Ledger(repository.positions, existing);
      ClosingStaysSynced(applied, before, snapshot, listed, |listed|);
      ClosingDone(applied, snapshot, listed);
      var closing;
      existing, closing := CloseOmitted(snapshot, existing, listed, seen);
      IndexIsByKey(existing, repository.positions, snapshot.broker);
      events, order := rowEvents + closing, listed;
    }

    /** The first pass: rows in order, each overwriting or discovering one position. */
    method ApplyRows(snapshot: AccountSnapshot, ids: seq<Id>, book: map<PositionKey, Position>)
      returns (existing: map<PositionKey, Position>, seen: set<PositionKey>, events: seq<PositionEvent>)
      requires |snapshot.rows| <= |ids|
      modifies repository`positions
      ensures Ledger(repository.positions, existing)
           == RowsSaved(Ledger(old(repository.positions), book), snapshot, ids, |snapshot.rows|)
      ensures events == RowEvents(book, snapshot, ids, |snapshot.rows|)
      ensures forall key :: key in seen <==> Mentions(snapshot, key)
    {
      existing, seen, events := book, {}, [];
      ghost var start := Ledger(repository.positions, book);
      for i := 0 to |snapshot.rows|
        invariant Ledger(repository.positions, existing) == RowsSaved(start, snapshot, ids, i)
        invariant forall key :: key in seen <==> LastRow(snapshot.rows, i, key).Some?
        invariant events == RowEvents(book, snapshot, ids, i)
      {
        BookOfRows(start, snapshot, ids, i);
        var row := snapshot.rows[i];
        seen := seen + {row.key};
        var record, news := RecordFor(snapshot, row, ids[i], existing);
        repository.positions := repository.positions[record.positionId := record];
        existing := existing[row.key := record];
        events := events + news;
      }
    }

    /** What one row makes of the known position under its key, if there is one. */
    static method RecordFor(snapshot: AccountSnapshot, row: BrokerRow, id: Id, existing: map<PositionKey, Position>)
      returns (record: Position, events: seq<PositionEvent>)
      ensures record == RowRecord(existing, snapshot, row, id)
      ensures events == RowEvent(existing, snapshot, row, id)
    {
      var state := StateFor(row.facts.quantity);
      events := [];
      if row.key !in existing {
        record := Position(id, snapshot.broker, row.key, row.facts, state, Unmanaged, BrokerExternal,
                           row.observedAt, row.observedAt);
        events := [PositionEvent(BrokerPositionDiscovered, record.positionId)];
      } else {
        var current := existing[row.key];
        record := current.(facts := row.facts, state := state, updatedAt := snapshot.observedAt);
        if MateriallyChanged(current, record) {
          events := [PositionEvent(ChangeName(current, record), record.positionId)];
        }
      }
    }

    /** The second pass: every open position the snapshot did not mention is closed. */
    method CloseOmitted(snapshot: AccountSnapshot, book: map<PositionKey, Position>, order: seq<PositionKey>, seen: set<PositionKey>)
      returns (existing: map<PositionKey, Position>, events: seq<PositionEvent>)
      requires Enumerates(order, book.Keys)
      requires forall key :: key in seen <==> Mentions(snapshot, key)
      modifies repository`positions
      ensures Ledger(repository.positions, existing)
           == ClosedSaved(Ledger(old(repository.positions), book), book, snapshot, order, |order|)
      ensures events == ClosingEvents(book, snapshot, order, |order|)
    {
      existing, events := book, [];
      ghost var start := Ledger(repository.positions, book);
      for i := 0 to |order|
        invariant Ledger(repository.positions, existing) == ClosedSaved(start, book, snapshot, order, i)
        invariant events == ClosingEvents(book, snapshot, order, i)
      {
        var key := order[i];
        assert key in order;
        var current := book[key];
        if key !in seen && current.state != Closed {
          var record := current.(facts := current.facts.(quantity := 0), state := Closed,
                                 updatedAt := snapshot.observedAt);
          repository.positions := repository.positions[record.positionId := record];
          existing := existing[key := record];
          events := events + [PositionEvent(BrokerPositionClosed, record.positionId)];
        }
      }
    }

    /** Crosses one open position from UNMANAGED to MANAGED, with its profile. */
    method Adopt(profile: ManagementProfile) returns (r: Outcome<Position>)
      requires Coherent(repository.positions)
      modifies repository`positions, repository`managementProfiles
      ensures r.Returned? <==>
        var id := profile.positionId;
        && id in old(repository.positions)
        && !old(repository.positions)[id].IsManaged() && old(repository.positions)[id].IsOpen()
        && profile.Valid()
      ensures r.Returned? ==>
        && r.value == Adopted(old(repository.positions)[profile.positionId], profile.activatedAt)
        && repository.positions == old(repository.positions)[profile.positionId := r.value]
        && repository.managementProfiles == old(repository.managementProfiles)[profile.positionId := profile]
      ensures r.Raised? ==>
        && repository.positions == old(repository.positions)
        && repository.managementProfiles == old(repository.managementProfiles)
      ensures Coherent(repository.positions)
    {
      var id := profile.positionId;
      if id !in repository.positions { return Raised; }
      var current := repository.positions[id];
      if current.management == Managed { return Raised; }
      if !current.IsOpen() { return Raised; }
      if !profile.Valid() { return Raised; }
      var origin := if current.origin == BrokerExternal then BrokerAdopted else current.origin;
      var adopted := current.(management := Managed, origin := origin, updatedAt := profile.activatedAt);
      repository.positions := repository.positions[id := adopted];
      repository.managementProfiles := repository.managementProfiles[id := profile];
      return Returned(adopted);
    }
  }
}
