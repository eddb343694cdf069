/** What single requests achieve: the reminders of a closed record are silenced, those of a rescheduled one follow its
    date, and nobody else's are touched. */
module RequestEffects {
  import opened Core
  import opened ReminderRows
  import opened ReminderSync
  import opened ReminderPlans
  import opened WorkItems
  import opened WorkItemRuns
  import opened BoardSteps

  /** The reminder belongs to a record that closes with its parent. */
  predicate ClosesToo(b: Board, children: seq<nat>, row: Row) {
    row.item.Some? && ClosesWith(b, children, row.item.value)
  }

  function Silenced(row: Row, now: Instant): Row {
    if ActiveStatus(row.status) then CancelledRecord(row, now) else row
  }

  lemma SilencedTwice(row: Row, now: Instant)
    ensures Silenced(Silenced(row, now), now) == Silenced(row, now) && Silenced(row, now).item == row.item
  {}

  /** Closing one subtask cancels exactly its active reminders. */
  lemma CompleteSubtaskRows(f: Family, child: nat, now: Instant)
    ensures var g := CompleteSubtask(f, child, now);
            |g.board.rows| == |f.board.rows| && forall r :: 0 <= r < |f.board.rows| ==>
              g.board.rows[r] == if ClosesToo(f.board, [child], f.board.rows[r]) then Silenced(f.board.rows[r], now) else f.board.rows[r]
  {}

  lemma CancelSubtaskRows(b: Board, child: nat, now: Instant)
    ensures var c := CancelSubtask(b, child, now);
            |c.rows| == |b.rows| && forall r :: 0 <= r < |b.rows| ==>
              c.rows[r] == if ClosesToo(b, [child], b.rows[r]) then Silenced(b.rows[r], now) else b.rows[r]
  {}

  /** Closing subtasks with their parent cancels exactly the active reminders of those that close. */
  lemma {:induction false} CompleteSubtasksRows(f: Family, children: seq<nat>, now: Instant)
    ensures var g := CompleteSubtasks(f, children, now);
            |g.board.rows| == |f.board.rows| && forall r :: 0 <= r < |f.board.rows| ==>
              g.board.rows[r] == if ClosesToo(f.board, children, f.board.rows[r]) then Silenced(f.board.rows[r], now) else f.board.rows[r]
    decreases |children|
  {
    hide CompleteSubtask, Silenced;
    if children != [] {
      var g := CompleteSubtask(f, children[0], now);
      CompleteSubtaskIs(f, children[0], now);
      CompleteSubtaskRows(f, children[0], now);
      CompleteSubtasksRows(g, children[1..], now);
      assert forall k: nat :: k in children <==> k == children[0] || k in children[1..];
      forall r | 0 <= r < |f.board.rows|
        ensures CompleteSubtasks(g, children[1..], now).board.rows[r]
             == if ClosesToo(f.board, children, f.board.rows[r]) then Silenced(f.board.rows[r], now) else f.board.rows[r]
      {
        SilencedTwice(f.board.rows[r], now);
        ClosingSplits(f.board, g.board, children, f.board.rows[r]);
      }
    }
  }

  /** A record closes with the list if it closes with its head, or still closes with its tail. */
  lemma ClosingSplits(b: Board, c: Board, children: seq<nat>, row: Row)
    requires children != [] && |c.items| == |b.items|
    requires forall k :: 0 <= k < |b.items| && k != children[0] ==> c.items[k] == b.items[k]
    requires !ClosesWith(c, [children[0]], children[0])
    ensures ClosesToo(b, children, row) <==> ClosesToo(b, [children[0]], row) || ClosesToo(c, children[1..], row)
  {
    assert forall k: nat :: k in children <==> k == children[0] || k in children[1..];
  }

  lemma {:induction false} CancelSubtasksRows(b: Board, children: seq<nat>, now: Instant)
    ensures var c := CancelSubtasks(b, children, now);
            |c.rows| == |b.rows| && forall r :: 0 <= r < |b.rows| ==>
              c.rows[r] == if ClosesToo(b, children, b.rows[r]) then Silenced(b.rows[r], now) else b.rows[r]
    decreases |children|
  {
    hide CancelSubtask, Silenced;
    if children != [] {
      var c := CancelSubtask(b, children[0], now);
      CancelSubtaskIs(b, children[0], now);
      CancelSubtaskRows(b, children[0], now);
      CancelSubtasksRows(c, children[1..], now);
      forall r | 0 <= r < |b.rows|
        ensures CancelSubtasks(c, children[1..], now).rows[r]
             == if ClosesToo(b, children, b.rows[r]) then Silenced(b.rows[r], now) else b.rows[r]
      {
        SilencedTwice(b.rows[r], now);
        ClosingSplits(b, c, children, b.rows[r]);
      }
    }
  }

  /** The reminder belongs to the closing record or to a subtask that closes with it. */
  predicate InFamily(b: Board, i: nat, row: Row) {
    row.item == Some(i) || ClosesToo(b, SubtasksIn(b.links, i), row)
  }

  /** Completing, receiving and cancelling a record silence every reminder of the record and of the subtasks that close
      with it, whoever made them, and leave every other reminder exactly as it was. */
  lemma ClosingSilencesTheFamily(b: Board, i: nat, etype: EventType, origin: Origin, now: Instant)
    requires i < |b.items|
    ensures var c := CompleteItem(b, i, etype, origin, now);
            |c.rows| == |b.rows| && forall r :: 0 <= r < |b.rows| ==>
              c.rows[r] == if InFamily(b, i, b.rows[r]) then Silenced(b.rows[r], now) else b.rows[r]
    ensures var c := CancelItem(b, i, origin, now);
            |c.rows| == |b.rows| && forall r :: 0 <= r < |b.rows| ==>
              c.rows[r] == if InFamily(b, i, b.rows[r]) then Silenced(b.rows[r], now) else b.rows[r]
  {
    hide CompleteSubtasks, CancelSubtasks, SubtasksIn, ClosesWith;
    CompleteSubtasksIs(Family(b, []), SubtasksIn(b.links, i), now);
    CancelSubtasksIs(b, SubtasksIn(b.links, i), now);
    CompleteSubtasksRows(Family(b, []), SubtasksIn(b.links, i), now);
    CancelSubtasksRows(b, SubtasksIn(b.links, i), now);
    forall r | 0 <= r < |b.rows| ensures Silenced(Silenced(b.rows[r], now), now) == Silenced(b.rows[r], now) {
      SilencedTwice(b.rows[r], now);
    }
  }

  // ---------------------------------------------------------------- dates and their reminders

  /** The reminder is active, managed, and for the given date of the item. */
  predicate Reminds(row: Row, i: nat, date: Instant) {
    ManagedOf(row, i) && ActiveStatus(row.status) && row.referenceAt == Some(date)
  }

  /** Whoever else has reminders keeps them, active managed reminders of the record are planned for what it is now, and
      what it gets it has: actively, or by a final reminder from before that may not be replaced. */
  predicate Follows(b: Board, c: Board, i: nat, leadMinutes: nat, now: Instant, replaceFinal: bool)
    requires i < |c.items|
  {
    && |b.rows| <= |c.rows|
    && (forall r :: 0 <= r < |b.rows| && (b.rows[r].item != Some(i) || b.rows[r].kind.Manual?) ==> c.rows[r] == b.rows[r])
    && (forall r :: 0 <= r < |c.rows| && ManagedOf(c.rows[r], i) && ActiveStatus(c.rows[r].status) ==>
         InPlan(c.rows[r], i, c.items[i], leadMinutes, now))
    && (Gets(c.items[i], Exact, leadMinutes, now) ==> Has(b, c, i, Exact, replaceFinal))
    && (Gets(c.items[i], BeforeDeadline, leadMinutes, now) ==> Has(b, c, i, BeforeDeadline, replaceFinal))
  }

  predicate Has(b: Board, c: Board, i: nat, kind: ScheduleKind, replaceFinal: bool)
    requires i < |c.items|
  {
    exists r :: 0 <= r < |c.rows| && Serves(c.rows[r], i, c.items[i], kind)
                && (ActiveStatus(c.rows[r].status) || (!replaceFinal && r < |b.rows| && c.rows[r] == b.rows[r]))
  }

  /** What the planner makes of a changed record. One that never was for the planner stays so; one that is closed or of a
      kind that is not planned has no place there any more; what comes back, or was transferred as it no longer is, must be
      transferred or updated. */
  function PlannerAfter(item: Item, reopened: bool): PlannerStatus {
    var plannable := !Closed(item) && item.itype in {WorkItemType.Task, WorkItemType.FollowUp, WorkItemType.Waiting};
    match item.planner
    case NotRequired => NotRequired
    case NoLongerRelevant => if !plannable then NoLongerRelevant else if item.transferredAt.Some? then UpdateRequired else NeedsTransfer
    case Transferred =>
      if !plannable then NoLongerRelevant else if reopened && item.transferredAt.None? then NeedsTransfer else UpdateRequired
    case UpdateRequired =>
      if !plannable then NoLongerRelevant else if reopened && item.transferredAt.None? then NeedsTransfer else UpdateRequired
    case NeedsTransfer =>
      if !plannable then NoLongerRelevant else if reopened && item.transferredAt.Some? then UpdateRequired else NeedsTransfer
  }

  lemma PlannerFollows(item: Item, reopened: bool)
    ensures PlannerSynced(item, reopened) == item.(planner := PlannerAfter(item, reopened))
  {}

  /** A record becomes as given, for the planner as well, and every other record stands. */
  predicate OnlyBecomes(b: Board, c: Board, i: nat, item: Item)
    requires i < |b.items|
  {
    && |c.items| == |b.items| && (forall k :: 0 <= k < |b.items| && k != i ==> c.items[k] == b.items[k])
    && c.items[i] == item.(planner := PlannerAfter(item, false))
    && c.links == b.links
  }

  lemma SyncedFollows(b: Board, c: Board, i: nat, item: Item, leadMinutes: nat, now: Instant, replaceFinal: bool)
    requires RowsOk(b.items, b.rows) && i < |b.items| && OnlyBecomes(b, c, i, item)
    requires c.rows == Synced(b.rows, i, item, leadMinutes, now, replaceFinal)
    ensures Follows(b, c, i, leadMinutes, now, replaceFinal)
  {
    hide KeyFits, Synced, InPlan, Serves, Gets, ActiveStatus, CancelledRecord, RowsOk;
    TableIsFit(b);
    PlannerIsNoPlan(item, c.items[i]);
    forall r | 0 <= r < |b.rows|
      ensures |b.rows| <= |c.rows|
      ensures (b.rows[r].item != Some(i) || b.rows[r].kind.Manual?) ==> c.rows[r] == b.rows[r]
      ensures ManagedOf(c.rows[r], i) && ActiveStatus(c.rows[r].status) ==> InPlan(c.rows[r], i, item, leadMinutes, now)
    {
      SyncCancelsUnplanned(b.rows, i, item, leadMinutes, now, replaceFinal, r);
      CancelledSleeps(b.rows[r], now);
    }
    SyncedIs(b.rows, i, item, leadMinutes, now, replaceFinal);
    forall r | |b.rows| <= r < |c.rows| ensures InPlan(c.rows[r], i, item, leadMinutes, now) {
      SyncAddsPlanned(b.rows, i, item, leadMinutes, now, replaceFinal, r);
    }
    forall kind | Gets(item, kind, leadMinutes, now) ensures Has(b, c, i, kind, replaceFinal) {
      var r := SyncServes(b.rows, i, item, leadMinutes, now, replaceFinal, kind);
    }
  }

  lemma TableIsFit(b: Board)
    requires RowsOk(b.items, b.rows)
    ensures TableFits(b.rows)
  {}

  lemma CancelledSleeps(row: Row, now: Instant)
    ensures !ActiveStatus(CancelledRecord(row, now).status)
  {}

  lemma PlannerIsNoPlan(item: Item, other: Item)
    requires other == item.(planner := other.planner)
    ensures forall id, row, lead, now :: InPlan(row, id, other, lead, now) == InPlan(row, id, item, lead, now)
    ensures forall id, row, kind :: Serves(row, id, other, kind) == Serves(row, id, item, kind)
    ensures forall kind, lead, now :: Gets(other, kind, lead, now) == Gets(item, kind, lead, now)
  {}

  /** After a change of the record, reconciliation and the planner, in whatever order they leave entries. */
  lemma RedatedFollows(b: Board, c: Board, i: nat, item: Item, leadMinutes: nat, now: Instant, replaceFinal: bool)
    requires RowsOk(b.items, b.rows) && i < |b.items| == |c.items|
    requires c.items == b.items[i := item] && c.links == b.links && c.rows == Synced(b.rows, i, item, leadMinutes, now, replaceFinal)
    ensures var d := SyncPlanner(c, i, false); OnlyBecomes(b, d, i, item) && Follows(b, d, i, leadMinutes, now, replaceFinal)
  {
    hide Synced, RowsOk, Follows, PlannerSynced, PlannerAfter;
    PlannerFollows(item, false);
    SyncedFollows(b, SyncPlanner(c, i, false), i, item, leadMinutes, now, replaceFinal);
  }

  /** Rescheduling an open record takes effect: it has the new date, and nothing else of it or of others changes but the
      planner; every active managed reminder of it refers to that date, and one does if the date changed. */
  lemma ReschedulingTakesEffect(b: Board, i: nat, date: Instant, leadMinutes: nat, origin: Origin, now: Instant)
    requires RowsOk(b.items, b.rows) && i < |b.items| && OpenStatus(b.items[i].status)
    ensures var c, was := RescheduleItem(b, i, date, leadMinutes, origin, now), b.items[i];
            var changed := (if was.itype.FollowUp? then was.followUpAt else was.dueAt) != Some(date);
            && OnlyBecomes(b, c, i, if was.itype.FollowUp? then was.(followUpAt := Some(date)) else was.(dueAt := Some(date)))
            && Follows(b, c, i, leadMinutes, now, changed)
            && (forall r :: 0 <= r < |c.rows| && ManagedOf(c.rows[r], i) && ActiveStatus(c.rows[r].status) ==> Reminds(c.rows[r], i, date))
            && (changed ==> exists r :: 0 <= r < |c.rows| && Reminds(c.rows[r], i, date) && c.rows[r].kind.Exact?)
  {
    hide Synced, SyncPlanner, RowsOk;
    var item := Dated(b.items[i], date);
    var replace := ReferenceDate(b.items[i]) != Some(date);
    RedatedFollows(b, Log(Redate(b, i, item, leadMinutes, now, replace), i, Rescheduled, Some(origin)), i, item, leadMinutes, now, replace);
    FollowingReminds(b, RescheduleItem(b, i, date, leadMinutes, origin, now), i, date, leadMinutes, now, replace);
  }

  lemma FollowingReminds(b: Board, c: Board, i: nat, date: Instant, leadMinutes: nat, now: Instant, replaceFinal: bool)
    requires i < |c.items| && Follows(b, c, i, leadMinutes, now, replaceFinal) && DateOf(c.items[i]) == Some(date)
    ensures forall r :: 0 <= r < |c.rows| && ManagedOf(c.rows[r], i) && ActiveStatus(c.rows[r].status) ==> Reminds(c.rows[r], i, date)
    ensures replaceFinal && !Closed(c.items[i]) ==> exists r :: 0 <= r < |c.rows| && Reminds(c.rows[r], i, date) && c.rows[r].kind.Exact?
  {
    if replaceFinal && !Closed(c.items[i]) {
      assert Gets(c.items[i], Exact, leadMinutes, now);
      var r := ActiveOne(b, c, i, Exact);
      assert Reminds(c.rows[r], i, date);
    }
  }

  lemma ActiveOne(b: Board, c: Board, i: nat, kind: ScheduleKind) returns (r: nat)
    requires i < |c.items| && Has(b, c, i, kind, true)
    ensures r < |c.rows| && Serves(c.rows[r], i, c.items[i], kind) && ActiveStatus(c.rows[r].status)
  {
    r :| 0 <= r < |c.rows| && Serves(c.rows[r], i, c.items[i], kind) && ActiveStatus(c.rows[r].status);
  }

  /** The record with this as its only date. */
  function OnlyDate(item: Item, date: Option<Instant>): Item {
    item.(dueAt := if item.itype.FollowUp? then None else date, followUpAt := if item.itype.FollowUp? then date else None)
  }

  /** Moving an open record to a dated bucket takes effect: that is its only date, it leaves the inbox by its type, and its
      reminders follow. */
  lemma MovingTakesEffect(b: Board, i: nat, date: Instant, leadMinutes: nat, origin: Origin, now: Instant)
    requires RowsOk(b.items, b.rows) && i < |b.items| && OpenStatus(b.items[i].status)
    ensures var c, was := MoveToBucket(b, i, Some(date), leadMinutes, origin, now), b.items[i];
            var changed := (if was.followUpAt.Some? then was.followUpAt else was.dueAt) != Some(date);
            var status := if !was.status.Inbox? then was.status
                          else if was.itype.Waiting? then WorkItemStatus.Waiting else WorkItemStatus.Planned;
            && OnlyBecomes(b, c, i, OnlyDate(was, Some(date)).(status := status))
            && Follows(b, c, i, leadMinutes, now, changed)
            && (forall r :: 0 <= r < |c.rows| && ManagedOf(c.rows[r], i) && ActiveStatus(c.rows[r].status) ==> Reminds(c.rows[r], i, date))
            && (changed ==> exists r :: 0 <= r < |c.rows| && Reminds(c.rows[r], i, date) && c.rows[r].kind.Exact?)
  {
    hide Synced, SyncPlanner, RowsOk;
    var item := Placed(b.items[i], Some(date));
    var replace := Scheduled(b.items[i]) != Some(date);
    RedatedFollows(b, Log(Redate(b, i, item, leadMinutes, now, replace), i, BucketMoved, Some(origin)), i, item, leadMinutes, now, replace);
    FollowingReminds(b, MoveToBucket(b, i, Some(date), leadMinutes, origin, now), i, date, leadMinutes, now, replace);
  }

  /** Moving a record to the inbox takes its dates, and cancels exactly its active reminders. */
  lemma MovingToInboxTakesEffect(b: Board, i: nat, leadMinutes: nat, origin: Origin, now: Instant)
    requires i < |b.items|
    ensures var c := MoveToBucket(b, i, None, leadMinutes, origin, now);
            && OnlyBecomes(b, c, i, b.items[i].(dueAt := None, followUpAt := None, status := WorkItemStatus.Inbox))
            && |c.rows| == |b.rows|
            && forall r :: 0 <= r < |b.rows| ==> c.rows[r] == if b.rows[r].item == Some(i) then Silenced(b.rows[r], now) else b.rows[r]
  {
    PlannerFollows(b.items[i].(dueAt := None, followUpAt := None, status := WorkItemStatus.Inbox), false);
  }

  /** A full edit takes effect: the record has the new type and, if one was given, the new date as its only one, and its
      reminders follow. */
  lemma EditTakesEffect(b: Board, i: nat, itype: WorkItemType, update: bool, date: Option<Instant>, topic: bool, people: bool,
                        origin: Origin, now: Instant)
    requires RowsOk(b.items, b.rows) && i < |b.items|
    ensures var c := EditItem(b, i, itype, update, date, topic, people, origin, now);
            var typed := b.items[i].(itype := itype);
            && OnlyBecomes(b, c, i, if update then OnlyDate(typed, date) else typed)
            && Follows(b, c, i, 0, now, false)
  {
    hide Synced, SyncPlanner, RowsOk, EditEntries;
    var item := Edited(b.items[i], itype, update, date);
    var entries := EditEntries(i, topic, people, update && Scheduled(item) != Scheduled(b.items[i]), origin);
    RedatedFollows(b, Redate(b.(events := b.events + entries), i, item, 0, now, false), i, item, 0, now, false);
  }

  /** So does a conversion to a task. */
  lemma ConversionTakesEffect(b: Board, i: nat, origin: Origin, now: Instant)
    requires RowsOk(b.items, b.rows) && i < |b.items|
    ensures var c := ConvertItem(b, i, origin, now);
            OnlyBecomes(b, c, i, b.items[i].(itype := WorkItemType.Task)) && Follows(b, c, i, 0, now, false)
  {
    hide Synced, SyncPlanner, RowsOk;
    var item := b.items[i].(itype := WorkItemType.Task);
    RedatedFollows(b, Redate(Log(b, i, Updated, Some(origin)), i, item, 0, now, false), i, item, 0, now, false);
  }
}
