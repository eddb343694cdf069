/** What every request does to the reminders: stored rows stand or are cancelled, and no row that survives as
    active loses its agreement with its work item. */
module BoardSteps {
  import opened Core
  import opened DedupKeys
  import opened ReminderRows
  import opened ReminderSync
  import opened WorkItems

  /** A managed reminder that may be delivered: its item is open and still has the date it was made for. */
  predicate Agrees(items: seq<Item>, row: Row) {
    Managed(row) ==>
      && row.item.Some? && row.item.value < |items| && OpenStatus(items[row.item.value].status)
      && ReferenceDate(items[row.item.value]).Some? && row.referenceAt == ReferenceDate(items[row.item.value])
  }

  predicate RowsOk(items: seq<Item>, rows: seq<Row>) {
    && TableFits(rows)
    && forall r :: 0 <= r < |rows| ==> (rows[r].item.Some? ==> rows[r].item.value < |items| && !Digest(rows[r]))
  }

  predicate RowKept(was: Row, row: Row) {
    || row == was
    || (ActiveStatus(was.status) && row.cancelledAt.Some? && row == CancelledRecord(was, row.cancelledAt.value))
  }

  predicate BrandNew(row: Row) {
    && (row.status.Pending? || row.status.Cancelled?) && row.attempts == 0 && row.token.None? && row.deliveryStartedAt.None? && row.sentAt.None?
    && !Digest(row) && row.processingStartedAt.None? && row.nextAttemptAt.None?
  }

  predicate RowsEvolve(was: seq<Row>, rows: seq<Row>) {
    && |was| <= |rows|
    && (forall r :: 0 <= r < |was| ==> RowKept(was[r], rows[r]))
    && (forall r :: |was| <= r < |rows| ==> BrandNew(rows[r]))
  }

  /** A row that is active afterwards and agreed with its item before agrees with it still. */
  predicate KeepsAgreement(b: Board, c: Board) {
    forall r | 0 <= r < |b.rows| && r < |c.rows| ::
      c.rows[r] == b.rows[r] && ActiveStatus(b.rows[r].status) && Agrees(b.items, b.rows[r]) ==> Agrees(c.items, c.rows[r])
  }

  /** No reminder, managed or not, becomes active for an item that is not open, and none is left so. */
  predicate ClosesQuietly(b: Board, c: Board) {
    forall r | 0 <= r < |c.rows| ::
      ActiveStatus(c.rows[r].status) && Dormant(c, r) ==>
        r < |b.rows| && ActiveStatus(b.rows[r].status) && Dormant(b, r)
  }

  predicate Dormant(b: Board, r: nat)
    requires r < |b.rows|
  {
    b.rows[r].item.Some? && b.rows[r].item.value < |b.items| && !OpenStatus(b.items[b.rows[r].item.value].status)
  }

  predicate Evolves(b: Board, c: Board) {
    && |b.items| <= |c.items|
    && b.events <= c.events
    && RowsOk(c.items, c.rows)
    && RowsEvolve(b.rows, c.rows)
    && KeepsAgreement(b, c)
    && ClosesQuietly(b, c)
  }

  lemma EvolvesTransitively(b: Board, c: Board, d: Board)
    requires Evolves(b, c) && Evolves(c, d)
    ensures Evolves(b, d)
  {
    hide RowsOk, Agrees, Dormant;
    forall r | 0 <= r < |b.rows| ensures RowKept(b.rows[r], d.rows[r]) {
      assert RowKept(b.rows[r], c.rows[r]) && RowKept(c.rows[r], d.rows[r]);
    }
    forall r | |b.rows| <= r < |d.rows| ensures BrandNew(d.rows[r]) {
      if r < |c.rows| {
        assert BrandNew(c.rows[r]) && RowKept(c.rows[r], d.rows[r]);
      }
    }
  }

  // ---------------------------------------------------------------- the building blocks evolve the board

  lemma LogEvolves(b: Board, i: nat, etype: EventType, origin: Option<Origin>)
    requires RowsOk(b.items, b.rows)
    ensures Evolves(b, Log(b, i, etype, origin))
  {}

  /** An item change that keeps its openness and date leaves every reminder as it was. */
  lemma TouchEvolves(b: Board, c: Board, i: nat)
    requires RowsOk(b.items, b.rows) && i < |b.items| == |c.items| && c.rows == b.rows && b.events <= c.events
    requires forall k :: 0 <= k < |b.items| && k != i ==> c.items[k] == b.items[k]
    requires OpenStatus(c.items[i].status) == OpenStatus(b.items[i].status)
    requires ReferenceDate(c.items[i]) == ReferenceDate(b.items[i])
    ensures Evolves(b, c)
  {}

  /** An item whose every active managed reminder is gone may change in any way. */
  lemma ReopenEvolves(b: Board, c: Board, i: nat)
    requires RowsOk(b.items, b.rows) && i < |b.items| == |c.items| && c.rows == b.rows && b.events <= c.events
    requires forall k :: 0 <= k < |b.items| && k != i ==> c.items[k] == b.items[k]
    requires !OpenStatus(b.items[i].status) && OpenStatus(c.items[i].status)
    ensures Evolves(b, c)
  {}

  lemma SyncPlannerEvolves(b: Board, i: nat, reopened: bool)
    requires RowsOk(b.items, b.rows) && i < |b.items|
    ensures Evolves(b, SyncPlanner(b, i, reopened))
  {
    hide RowsOk;
    TouchEvolves(b, SyncPlanner(b, i, reopened), i);
  }

  lemma CloseEvolves(b: Board, i: nat, item: Item, now: Instant)
    requires RowsOk(b.items, b.rows) && i < |b.items|
    ensures Evolves(b, Close(b, i, item, now))
  {
    var c := Close(b, i, item, now);
    assert forall r :: 0 <= r < |b.rows| ==> c.rows[r].key == b.rows[r].key && KeyFits(c.rows[r]);
  }

  lemma RedateEvolves(b: Board, i: nat, item: Item, leadMinutes: nat, now: Instant, replaceFinal: bool)
    requires RowsOk(b.items, b.rows) && i < |b.items| && StaysOpen(b, i, item)
    ensures Evolves(b, Redate(b, i, item, leadMinutes, now, replaceFinal))
  {
    hide KeyFits;
    SyncEvolves(b, b.items[i := item], i, item, leadMinutes, now, replaceFinal);
  }

  /** The change does not close the item; closing is `Close`, which silences unmanaged reminders too. */
  predicate StaysOpen(b: Board, i: nat, item: Item) {
    i < |b.items| && OpenStatus(b.items[i].status) ==> OpenStatus(item.status)
  }

  /** Reconciliation, together with any change of the reconciled item that does not close it. */
  lemma SyncEvolves(b: Board, items: seq<Item>, i: nat, item: Item, leadMinutes: nat, now: Instant, replaceFinal: bool)
    requires RowsOk(b.items, b.rows) && i < |items| && |b.items| <= |items| && items[i] == item && StaysOpen(b, i, item)
    requires forall k :: 0 <= k < |b.items| && k != i ==> items[k] == b.items[k]
    ensures Evolves(b, b.(items := items, rows := Synced(b.rows, i, item, leadMinutes, now, replaceFinal)))
  {
    hide KeyFits, Unwanted, Needs, ScheduledRow, Schedules, Synced;
    var schedules := Schedules(item, leadMinutes, now);
    var rows := Synced(b.rows, i, item, leadMinutes, now, replaceFinal);
    var c := b.(items := items, rows := rows);
    SyncedIs(b.rows, i, item, leadMinutes, now, replaceFinal);
    SchedulesAreProper(item, leadMinutes, now);
    NewRowsAre(b.rows, i, schedules, replaceFinal);
    forall r | |b.rows| <= r < |rows| ensures BrandNew(rows[r]) && rows[r].item == Some(i) {
      assert rows[r] == NewRows(b.rows, i, schedules, replaceFinal)[r - |b.rows|];
      assert CalledFor(b.rows, i, schedules, replaceFinal, rows[r]);
      var s :| s in schedules && rows[r] == ScheduledRow(b.rows, i, s);
      ScheduledRowIsPlain(b.rows, i, s, item, leadMinutes, now);
    }
    forall r | 0 <= r < |rows| && ManagedOf(rows[r], i) && ActiveStatus(rows[r].status)
      ensures OpenStatus(item.status) && ReferenceDate(item).Some? && rows[r].referenceAt == ReferenceDate(item)
    {
      SyncLeavesNothingUnwanted(b.rows, i, item, leadMinutes, now, replaceFinal, r);
    }
    forall r | 0 <= r < |b.rows| ensures RowKept(b.rows[r], rows[r]) {
      UnwantedIsActive(b.rows[r], i, schedules);
    }
  }

  lemma UnwantedIsActive(row: Row, i: nat, schedules: seq<Schedule>)
    ensures Unwanted(row, i, schedules) ==> ActiveStatus(row.status)
  {}

  lemma ScheduledRowIsPlain(rows: seq<Row>, i: nat, s: Schedule, item: Item, leadMinutes: nat, now: Instant)
    requires s in Schedules(item, leadMinutes, now)
    ensures BrandNew(ScheduledRow(rows, i, s)) && ScheduledRow(rows, i, s).item == Some(i)
  {
    hide NextKey, Base, CandidateKeys;
  }

  lemma AddItemEvolves(b: Board, item: Item, origin: Option<Origin>, leadMinutes: nat, now: Instant)
    requires RowsOk(b.items, b.rows)
    ensures Evolves(b, AddItem(b, item, origin, leadMinutes, now))
  {
    hide KeyFits, Synced;
    var c := Log(b, |b.items|, Created, origin);
    LogEvolves(b, |b.items|, Created, origin);
    SyncEvolves(c, b.items + [item], |b.items|, item, leadMinutes, now, false);
    EvolvesTransitively(b, c, AddItem(b, item, origin, leadMinutes, now));
  }

  // ---------------------------------------------------------------- the cascades

  lemma CompleteSubtaskEvolves(f: Family, child: nat, now: Instant)
    requires RowsOk(f.board.items, f.board.rows)
    ensures Evolves(f.board, CompleteSubtask(f, child, now).board)
    ensures CompleteSubtask(f, child, now).board.links == f.board.links
    ensures |CompleteSubtask(f, child, now).board.items| == |f.board.items|
  {
    hide RowsOk, KeepsAgreement, ClosesQuietly, RowsEvolve;
    var b := f.board;
    if child < |b.items| && OpenStatus(b.items[child].status) {
      var closed := Close(b, child, Finished(b.items[child], now), now);
      CloseEvolves(b, child, Finished(b.items[child], now), now);
      var logged := Log(closed, child, Completed, None);
      LogEvolves(closed, child, Completed, None);
      SyncPlannerEvolves(logged, child, false);
      EvolvesTransitively(b, closed, logged);
      EvolvesTransitively(b, logged, SyncPlanner(logged, child, false));
    } else {
      EvolvesReflexively(b);
    }
  }

  lemma EvolvesReflexively(b: Board)
    requires RowsOk(b.items, b.rows)
    ensures Evolves(b, b)
  {}

  lemma {:induction false} CompleteSubtasksEvolves(f: Family, children: seq<nat>, now: Instant)
    requires RowsOk(f.board.items, f.board.rows)
    ensures Evolves(f.board, CompleteSubtasks(f, children, now).board)
    ensures CompleteSubtasks(f, children, now).board.links == f.board.links
    ensures |CompleteSubtasks(f, children, now).board.items| == |f.board.items|
    decreases |children|
  {
    hide RowsOk, KeepsAgreement, ClosesQuietly, RowsEvolve, CompleteSubtask;
    if children == [] {
      EvolvesReflexively(f.board);
    } else {
      CompleteSubtaskEvolves(f, children[0], now);
      var next := CompleteSubtask(f, children[0], now);
      CompleteSubtasksEvolves(next, children[1..], now);
      EvolvesTransitively(f.board, next.board, CompleteSubtasks(next, children[1..], now).board);
    }
  }

  lemma CancelSubtaskEvolves(b: Board, child: nat, now: Instant)
    requires RowsOk(b.items, b.rows)
    ensures Evolves(b, CancelSubtask(b, child, now))
    ensures CancelSubtask(b, child, now).links == b.links && |CancelSubtask(b, child, now).items| == |b.items|
  {
    hide RowsOk, KeepsAgreement, ClosesQuietly, RowsEvolve;
    if child < |b.items| && OpenStatus(b.items[child].status) {
      var item := b.items[child].(status := WorkItemStatus.Cancelled);
      var closed := Close(b, child, item, now);
      CloseEvolves(b, child, item, now);
      var logged := Log(closed, child, CancelledEvent, None);
      LogEvolves(closed, child, CancelledEvent, None);
      SyncPlannerEvolves(logged, child, false);
      EvolvesTransitively(b, closed, logged);
      EvolvesTransitively(b, logged, SyncPlanner(logged, child, false));
    } else {
      EvolvesReflexively(b);
    }
  }

  lemma {:induction false} CancelSubtasksEvolves(b: Board, children: seq<nat>, now: Instant)
    requires RowsOk(b.items, b.rows)
    ensures Evolves(b, CancelSubtasks(b, children, now))
    ensures CancelSubtasks(b, children, now).links == b.links && |CancelSubtasks(b, children, now).items| == |b.items|
    decreases |children|
  {
    hide RowsOk, KeepsAgreement, ClosesQuietly, RowsEvolve, CancelSubtask;
    if children == [] {
      EvolvesReflexively(b);
    } else {
      CancelSubtaskEvolves(b, children[0], now);
      var next := CancelSubtask(b, children[0], now);
      CancelSubtasksEvolves(next, children[1..], now);
      EvolvesTransitively(b, next, CancelSubtasks(next, children[1..], now));
    }
  }

  lemma ReopenSubtaskEvolves(b: Board, parent: nat, child: nat)
    requires RowsOk(b.items, b.rows)
    ensures Evolves(b, ReopenSubtask(b, parent, child))
    ensures ReopenSubtask(b, parent, child).links == b.links && |ReopenSubtask(b, parent, child).items| == |b.items|
  {
    hide RowsOk, KeepsAgreement, ClosesQuietly, RowsEvolve;
    if child < |b.items| && child in SubtasksIn(b.links, parent) && b.items[child].status.Done? {
      var item := b.items[child].(status := WorkItemStatus.Active, completedAt := None);
      var active := b.(items := b.items[child := item]);
      ReopenEvolves(b, active, child);
      var logged := Log(active, child, Reopened, None);
      LogEvolves(active, child, Reopened, None);
      SyncPlannerEvolves(logged, child, true);
      EvolvesTransitively(b, active, logged);
      EvolvesTransitively(b, logged, SyncPlanner(logged, child, true));
    } else {
      EvolvesReflexively(b);
    }
  }

  lemma {:induction false} ReopenSubtasksEvolves(b: Board, parent: nat, ids: seq<nat>)
    requires RowsOk(b.items, b.rows)
    ensures Evolves(b, ReopenSubtasks(b, parent, ids))
    ensures ReopenSubtasks(b, parent, ids).links == b.links && |ReopenSubtasks(b, parent, ids).items| == |b.items|
    decreases |ids|
  {
    hide RowsOk, KeepsAgreement, ClosesQuietly, RowsEvolve, ReopenSubtask;
    if ids == [] {
      EvolvesReflexively(b);
    } else {
      ReopenSubtaskEvolves(b, parent, ids[0]);
      var next := ReopenSubtask(b, parent, ids[0]);
      ReopenSubtasksEvolves(next, parent, ids[1..]);
      EvolvesTransitively(b, next, ReopenSubtasks(next, parent, ids[1..]));
    }
  }

  // ---------------------------------------------------------------- every request

  /** The common ending of most mutations: an entry in the history, then the planner status. */
  lemma RecordedEvolves(b: Board, c: Board, e: Event, i: nat, reopened: bool)
    requires Evolves(b, c) && i < |c.items|
    ensures Evolves(b, SyncPlanner(c.(events := c.events + [e]), i, reopened))
  {
    hide KeepsAgreement, ClosesQuietly, RowsEvolve, RowsOk, SyncPlanner;
    var logged := c.(events := c.events + [e]);
    LoggedEvolves(c, [e]);
    SyncPlannerEvolves(logged, i, reopened);
    EvolvesTransitively(b, c, logged);
    EvolvesTransitively(b, logged, SyncPlanner(logged, i, reopened));
  }

  lemma LoggedEvolves(b: Board, entries: seq<Event>)
    requires RowsOk(b.items, b.rows)
    ensures Evolves(b, b.(events := b.events + entries))
  {}

  lemma CompleteItemEvolves(b: Board, i: nat, etype: EventType, origin: Origin, now: Instant)
    requires RowsOk(b.items, b.rows) && i < |b.items|
    ensures Evolves(b, CompleteItem(b, i, etype, origin, now))
  {
    hide KeepsAgreement, ClosesQuietly, RowsEvolve, RowsOk, SyncPlanner, CompleteSubtasks;
    var f := CompleteSubtasks(Family(b, []), SubtasksIn(b.links, i), now);
    CompleteSubtasksEvolves(Family(b, []), SubtasksIn(b.links, i), now);
    var item := Finished(f.board.items[i], now);
    CloseEvolves(f.board, i, item, now);
    var closed := Close(f.board, i, item, now);
    EvolvesTransitively(b, f.board, closed);
    RecordedEvolves(b, closed, Event(i, etype, Some(origin), f.ids), i, false);
  }

  lemma CancelItemEvolves(b: Board, i: nat, origin: Origin, now: Instant)
    requires RowsOk(b.items, b.rows) && i < |b.items|
    ensures Evolves(b, CancelItem(b, i, origin, now))
  {
    hide KeepsAgreement, ClosesQuietly, RowsEvolve, RowsOk, SyncPlanner, CancelSubtasks;
    var c := CancelSubtasks(b, SubtasksIn(b.links, i), now);
    CancelSubtasksEvolves(b, SubtasksIn(b.links, i), now);
    var item := c.items[i].(status := WorkItemStatus.Cancelled);
    CloseEvolves(c, i, item, now);
    EvolvesTransitively(b, c, Close(c, i, item, now));
    RecordedEvolves(b, Close(c, i, item, now), Event(i, CancelledEvent, Some(origin), []), i, false);
  }

  lemma ReopenItemEvolves(b: Board, i: nat, origin: Origin)
    requires RowsOk(b.items, b.rows) && i < |b.items| && b.items[i].status.Done?
    ensures Evolves(b, ReopenItem(b, i, origin))
  {
    hide KeepsAgreement, ClosesQuietly, RowsEvolve, RowsOk, SyncPlanner, ReopenSubtasks;
    var item := b.items[i].(status := if IsSubtask(b, i) then WorkItemStatus.Active else WorkItemStatus.Inbox, completedAt := None);
    var active := b.(items := b.items[i := item]);
    ReopenEvolves(b, active, i);
    var c := if IsSubtask(b, i) then active else ReopenSubtasks(active, i, LastCompletion(b.events, i));
    if IsSubtask(b, i) {
      EvolvesReflexively(active);
    } else {
      ReopenSubtasksEvolves(active, i, LastCompletion(b.events, i));
    }
    EvolvesTransitively(b, active, c);
    RecordedEvolves(b, c, Event(i, Reopened, Some(origin), []), i, true);
  }

  lemma ClosedEvolves(b: Board, i: nat, item: Item, now: Instant, e: Event)
    requires RowsOk(b.items, b.rows) && i < |b.items|
    ensures var c := Close(b, i, item, now); Evolves(b, SyncPlanner(c.(events := c.events + [e]), i, false))
  {
    hide KeepsAgreement, ClosesQuietly, RowsEvolve, RowsOk, SyncPlanner;
    CloseEvolves(b, i, item, now);
    RecordedEvolves(b, Close(b, i, item, now), e, i, false);
  }

  lemma RedatedEvolves(b: Board, i: nat, item: Item, leadMinutes: nat, now: Instant, replaceFinal: bool, e: Event)
    requires RowsOk(b.items, b.rows) && i < |b.items| && StaysOpen(b, i, item)
    ensures var c := Redate(b, i, item, leadMinutes, now, replaceFinal);
            && Evolves(b, c.(events := c.events + [e]))
            && Evolves(b, SyncPlanner(c.(events := c.events + [e]), i, false))
  {
    hide KeepsAgreement, ClosesQuietly, RowsEvolve, RowsOk, SyncPlanner, Synced;
    var c := Redate(b, i, item, leadMinutes, now, replaceFinal);
    RedateEvolves(b, i, item, leadMinutes, now, replaceFinal);
    RecordedEvolves(b, c, e, i, false);
    LoggedEvolves(c, [e]);
    EvolvesTransitively(b, c, c.(events := c.events + [e]));
  }

  lemma LinkedEvolves(b: Board, c: Board, links: seq<Link>)
    requires Evolves(b, c)
    ensures Evolves(b, c.(links := links))
  {}

  lemma {:induction false} MoveEachEvolves(b: Board, moves: seq<(nat, Instant)>, leadMinutes: nat, origin: Option<Origin>, now: Instant)
    requires RowsOk(b.items, b.rows)
    ensures Evolves(b, MoveEach(b, moves, leadMinutes, origin, now))
    decreases |moves|
  {
    hide KeepsAgreement, ClosesQuietly, RowsEvolve, RowsOk, Synced, Movable;
    if moves == [] {
      EvolvesReflexively(b);
    } else if Movable(b, moves[0].0) {
      var i := moves[0].0;
      MovableExists(b, i);
      var c := Log(Redate(b, i, Dated(b.items[i], moves[0].1), leadMinutes, now, true), i, Rescheduled, origin);
      RedatedEvolves(b, i, Dated(b.items[i], moves[0].1), leadMinutes, now, true, Event(i, Rescheduled, origin, []));
      MoveEachEvolves(c, moves[1..], leadMinutes, None, now);
      EvolvesTransitively(b, c, MoveEach(c, moves[1..], leadMinutes, None, now));
    } else {
      MoveEachEvolves(b, moves[1..], leadMinutes, origin, now);
    }
  }

  lemma EditEvolves(b: Board, i: nat, item: Item, entries: seq<Event>, now: Instant)
    requires RowsOk(b.items, b.rows) && i < |b.items| && StaysOpen(b, i, item)
    ensures Evolves(b, SyncPlanner(Redate(b.(events := b.events + entries), i, item, 0, now, false), i, false))
  {
    hide KeepsAgreement, ClosesQuietly, RowsEvolve, RowsOk, SyncPlanner, Synced;
    var c := Redate(b, i, item, 0, now, false);
    var logged := c.(events := c.events + entries);
    RedateEvolves(b, i, item, 0, now, false);
    LoggedEvolves(c, entries);
    SyncPlannerEvolves(logged, i, false);
    EvolvesTransitively(b, c, logged);
    EvolvesTransitively(b, logged, SyncPlanner(logged, i, false));
    assert Redate(b.(events := b.events + entries), i, item, 0, now, false) == logged;
  }

  lemma CreationEvolves(b: Board, item: Item, bound: Option<Origin>, now: Instant, links: seq<Link>, e: Event)
    requires RowsOk(b.items, b.rows)
    ensures var c := AddItem(b, item, bound, 0, now);
            && Evolves(b, c.(links := links))
            && Evolves(b, c.(links := links, events := c.events + [e]))
  {
    hide KeepsAgreement, ClosesQuietly, RowsEvolve, RowsOk, AddItem;
    var c := AddItem(b, item, bound, 0, now);
    AddItemEvolves(b, item, bound, 0, now);
    LoggedEvolves(c, [e]);
    EvolvesTransitively(b, c, c.(events := c.events + [e]));
    LinkedEvolves(b, c, links);
    LinkedEvolves(b, c.(events := c.events + [e]), links);
  }

  /** Every request but a snooze evolves the board: no stored row changes except by being cancelled. */
  lemma MutatedEvolves(b: Board, origin: Origin, now: Instant, op: Op)
    requires RowsOk(b.items, b.rows) && Allowed(b, op, now) && !op.OpSnooze?
    ensures Evolves(b, Mutated(b, origin, now, op))
  {
    hide Evolves, RowsOk, Synced, SyncPlanner, CompleteItem, CancelItem, ReopenItem, Close, Redate, AddItem, CancelAll;
    match op
    case OpComplete(i) => CompleteItemEvolves(b, i, Completed, origin, now);
    case OpReceived(i) => CompleteItemEvolves(b, i, WaitingReceived, origin, now);
    case OpCancel(i) => CancelItemEvolves(b, i, origin, now);
    case OpReopen(i) => ReopenItemEvolves(b, i, origin);
    case OpReplied(i) => ClosedEvolves(b, i, Finished(b.items[i], now), now, Event(i, PersonReplied, Some(origin), []));
    case OpArchive(i) => ArchiveEvolves(b, i, origin, now);
    case OpReschedule(i, date, lead) =>
      RedatedEvolves(b, i, Dated(b.items[i], date), lead, now, ReferenceDate(b.items[i]) != Some(date), Event(i, Rescheduled, Some(origin), []));
    case OpMoveToBucket(i, target, lead) => MoveToBucketEvolves(b, i, target, lead, origin, now);
    case OpEdit(i, itype, update, at, topic, people) =>
      var item := Edited(b.items[i], itype, update, at);
      EditEvolves(b, i, item, EditEntries(i, topic, people, update && Scheduled(item) != Scheduled(b.items[i]), origin), now);
    case OpEditDetails(i) =>
      EvolvesReflexively(b);
      RecordedEvolves(b, b, Event(i, DetailChanged, Some(origin), []), i, false);
    case OpAddNote(i) => LogEvolves(b, i, NoteAdded, Some(origin));
    case OpEditTitle(i, blank) =>
      LogEvolves(b, i, Updated, Some(origin));
      ArchiveEvolves(b, i, origin, now);
      LinkedEvolves(b, ArchiveItem(b, i, origin, now), Unlinked(ArchiveItem(b, i, origin, now).links, i));
    case OpConvertToTask(i) =>
      EditEvolves(b, i, b.items[i].(itype := WorkItemType.Task), [Event(i, Updated, Some(origin), [])], now);
    case OpChangePlanner(i, planner) => ChangePlannerEvolves(b, i, planner, origin, now);
    case OpCreateSubtask(i) =>
      var item := NewItem(WorkItemType.Task, WorkItemStatus.Active, None, None, None);
      CreationEvolves(b, item, None, now, AddItem(b, item, None, 0, now).links + [Link(i, |b.items|, Subtask)],
                      Event(i, Linked, Some(origin), []));
    case OpAddDecision(i) =>
      var item := NewItem(WorkItemType.Decision, WorkItemStatus.Done, None, None, Some(now));
      CreationEvolves(b, item, None, now, AddItem(b, item, None, 0, now).links + [Link(|b.items|, i, CreatedFrom)],
                      Event(i, Updated, Some(origin), []));
    case OpFollowUp(i, _) =>
      var item := NewItem(WorkItemType.FollowUp, WorkItemStatus.Inbox, None, None, None);
      CreationEvolves(b, item, Some(origin), now, AddItem(b, item, Some(origin), 0, now).links + [Link(|b.items|, i, CreatedFrom)],
                      Event(i, Updated, None, []));
    case OpMoveDigestItems(moves, lead) => MoveEachEvolves(b, moves, lead, Some(origin), now);
  }

  lemma ArchiveEvolves(b: Board, i: nat, origin: Origin, now: Instant)
    requires RowsOk(b.items, b.rows) && i < |b.items|
    ensures Evolves(b, ArchiveItem(b, i, origin, now))
  {
    hide Evolves, RowsOk, SyncPlanner;
    ClosedEvolves(b, i, b.items[i].(status := WorkItemStatus.Archived), now, Event(i, ArchivedEvent, Some(origin), []));
  }

  lemma MoveToBucketEvolves(b: Board, i: nat, date: Option<Instant>, leadMinutes: nat, origin: Origin, now: Instant)
    requires RowsOk(b.items, b.rows) && i < |b.items|
    ensures Evolves(b, MoveToBucket(b, i, date, leadMinutes, origin, now))
  {
    hide Evolves, RowsOk, SyncPlanner, Synced;
    var item := b.items[i];
    var e := Event(i, BucketMoved, Some(origin), []);
    if date.None? {
      ClosedEvolves(b, i, item.(dueAt := None, followUpAt := None, status := WorkItemStatus.Inbox), now, e);
    } else {
      RedatedEvolves(b, i, Placed(item, date), leadMinutes, now, Scheduled(item) != date, e);
    }
  }

  lemma ChangePlannerEvolves(b: Board, i: nat, target: PlannerStatus, origin: Origin, now: Instant)
    requires RowsOk(b.items, b.rows) && i < |b.items|
    ensures Evolves(b, ChangePlanner(b, i, target, origin, now))
  {
    hide RowsOk;
    TouchEvolves(b, ChangePlanner(b, i, target, origin, now), i);
  }
}
