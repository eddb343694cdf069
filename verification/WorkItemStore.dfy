/** The management requests as they run: records are objects whose fields are assigned, subtasks are visited in
    loops, and every method is proved to do to the stored board what `WorkItems` says. */
module WorkItemStore {
  import opened Core
  import opened ReminderRows
  import opened ReminderSync
  import opened ReminderService
  import opened WorkItems

  class WorkItemRecord {
    var itype: WorkItemType
    var status: WorkItemStatus
    var dueAt: Option<Instant>
    var followUpAt: Option<Instant>
    var completedAt: Option<Instant>
    var planner: PlannerStatus
    var transferredAt: Option<Instant>

    function Stored(): Item
      reads this
    {
      Item(itype, status, dueAt, followUpAt, completedAt, planner, transferredAt)
    }

    constructor (itype: WorkItemType, status: WorkItemStatus, dueAt: Option<Instant>, followUpAt: Option<Instant>,
                 completedAt: Option<Instant>)
      ensures Stored() == NewItem(itype, status, dueAt, followUpAt, completedAt)
    {
      this.itype, this.status, this.dueAt, this.followUpAt, this.completedAt := itype, status, dueAt, followUpAt, completedAt;
      planner, transferredAt := NotRequired, None;
    }

    method Finish(now: Instant)
      modifies this
      ensures Stored() == Finished(old(Stored()), now)
    {
      status := WorkItemStatus.Done;
      completedAt := Some(now);
    }

    /** Follows a change of the record with its planner status; the answer says whether that changed. */
    method SyncPlannerStatus(reopened: bool) returns (changed: bool)
      modifies this
      ensures Stored() == PlannerSynced(old(Stored()), reopened) && changed == (Stored() != old(Stored()))
    {
      var previous := planner;
      if previous.NotRequired? {
        return false;
      }
      var target := previous;
      if !EligibleForPlanner(itype) || !OpenStatus(status) {
        target := NoLongerRelevant;
      } else if reopened || previous.NoLongerRelevant? {
        target := if transferredAt.Some? then UpdateRequired else NeedsTransfer;
      } else if previous.Transferred? {
        target := UpdateRequired;
      }
      if target == previous {
        return false;
      }
      planner := target;
      return true;
    }

    method SetReference(date: Instant)
      modifies this
      ensures Stored() == Dated(old(Stored()), date)
    {
      if itype.FollowUp? {
        followUpAt := Some(date);
      } else {
        dueAt := Some(date);
      }
    }

    method SetOnlyDate(date: Option<Instant>)
      modifies this
      ensures Stored() == OnlyDated(old(Stored()), date)
    {
      if itype.FollowUp? {
        followUpAt := date;
        dueAt := None;
      } else {
        dueAt := date;
        followUpAt := None;
      }
    }
  }

  class Store {
    var items: seq<WorkItemRecord>
    var links: seq<Link>
    var events: seq<Event>
    const reminders: ReminderTable

    ghost predicate Valid()
      reads this, reminders
    {
      reminders.Valid() && forall i, j :: 0 <= i < j < |items| ==> items[i] != items[j]
    }

    function Items(): (r: seq<Item>)
      reads this, items
      ensures |r| == |items|
    {
      seq(|items|, i requires 0 <= i < |items| reads this, items => items[i].Stored())
    }

    function Contents(): (b: Board)
      reads this, items, reminders, reminders.rows
      ensures |b.items| == |items| && |b.rows| == |reminders.rows|
    {
      Board(Items(), links, events, reminders.Contents())
    }

    /** No object enters the store but new ones. */
    twostate predicate OnlyNew()
      reads this, reminders
    {
      && (forall k :: 0 <= k < |items| ==> items[k] in old(items) || fresh(items[k]))
      && (forall k :: 0 <= k < |reminders.rows| ==> reminders.rows[k] in old(reminders.rows) || fresh(reminders.rows[k]))
    }

    twostate predicate SameObjects()
      reads this, reminders
    {
      items == old(items) && reminders.rows == old(reminders.rows) && links == old(links)
    }

    constructor ()
      ensures Valid() && fresh(reminders) && Contents() == Board([], [], [], [])
    {
      items, links, events := [], [], [];
      reminders := new ReminderTable();
    }

    method Append(i: nat, etype: EventType, origin: Option<Origin>, completedSubtasks: seq<nat>)
      modifies this`events
      ensures events == old(events) + [Event(i, etype, origin, completedSubtasks)]
    {
      events := events + [Event(i, etype, origin, completedSubtasks)];
    }

    // ---------------------------------------------------------------- steps

    method SyncPlannerAt(i: nat, reopened: bool)
      requires Valid() && i < |items|
      modifies this`events, items[i]
      ensures Valid() && Contents() == SyncPlanner(old(Contents()), i, reopened)
    {
      hide PlannerSynced;
      ghost var b := Contents();
      var changed := items[i].SyncPlannerStatus(reopened);
      assert Items() == b.items[i := PlannerSynced(b.items[i], reopened)] && reminders.Contents() == b.rows;
      assert Contents() == b.(items := b.items[i := PlannerSynced(b.items[i], reopened)]);
      if changed {
        Append(i, PlannerChanged, None, []);
      } else {
        assert b.items[i := b.items[i]] == b.items;
      }
    }

    /** The tail that all closing requests share, after the record's own fields are assigned. */
    method CancelRemindersOf(i: nat, now: Instant)
      requires Valid()
      modifies reminders.rows
      ensures Valid() && reminders.rows == old(reminders.rows)
      ensures Contents() == old(Contents()).(rows := CancelAll(old(Contents()).rows, i, now))
    {
      hide CancelAll;
      reminders.CancelWorkItemReminders(i, now);
    }

    method FinishAt(i: nat, etype: EventType, origin: Option<Origin>, ids: seq<nat>, now: Instant)
      requires Valid() && i < |items|
      modifies this`events, items[i], reminders.rows
      ensures Valid() && reminders.rows == old(reminders.rows)
      ensures var c := Close(old(Contents()), i, Finished(old(Contents()).items[i], now), now);
              Contents() == SyncPlanner(c.(events := c.events + [Event(i, etype, origin, ids)]), i, false)
    {
      hide CancelAll, SyncPlanner;
      ghost var b := Contents();
      items[i].Finish(now);
      assert Items() == b.items[i := Finished(b.items[i], now)] && reminders.Contents() == b.rows;
      assert Contents() == b.(items := b.items[i := Finished(b.items[i], now)]);
      Append(i, etype, origin, ids);
      CancelRemindersOf(i, now);
      ghost var c := Close(b, i, Finished(b.items[i], now), now);
      assert Contents() == c.(events := c.events + [Event(i, etype, origin, ids)]);
      SyncPlannerAt(i, false);
    }

    /** Assigns a record's status, and clears its dates where it loses them. */
    method AssignStatus(i: nat, status: WorkItemStatus, undated: bool)
      requires Valid() && i < |items|
      modifies items[i]
      ensures Valid()
      ensures var b := old(Contents());
              var typed := b.items[i].(status := status);
              Contents() == b.(items := b.items[i := if undated then typed.(dueAt := None, followUpAt := None) else typed])
    {
      ghost var b := Contents();
      items[i].status := status;
      if undated {
        items[i].dueAt := None;
        items[i].followUpAt := None;
      }
      assert Items() == b.items[i := items[i].Stored()] && reminders.Contents() == b.rows;
    }

    /** Any other way of closing or emptying a record. */
    method CloseAt(i: nat, status: WorkItemStatus, undated: bool, etype: EventType, origin: Option<Origin>, now: Instant)
      requires Valid() && i < |items|
      modifies this`events, items[i], reminders.rows
      ensures Valid() && reminders.rows == old(reminders.rows)
      ensures var typed := old(Contents()).items[i].(status := status);
              var item := if undated then typed.(dueAt := None, followUpAt := None) else typed;
              Contents() == SyncPlanner(Log(Close(old(Contents()), i, item, now), i, etype, origin), i, false)
    {
      hide CancelAll, SyncPlanner;
      ghost var b := Contents();
      ghost var typed := b.items[i].(status := status);
      ghost var item := if undated then typed.(dueAt := None, followUpAt := None) else typed;
      AssignStatus(i, status, undated);
      Append(i, etype, origin, []);
      CancelRemindersOf(i, now);
      assert Contents() == Log(Close(b, i, item, now), i, etype, origin);
      SyncPlannerAt(i, false);
    }

    /** The tail of requests that change a date or type: an entry, reconciliation, the planner. */
    method ReconcileAt(i: nat, leadMinutes: nat, now: Instant, replaceFinal: bool)
      requires Valid() && i < |items|
      modifies reminders`rows, reminders.rows
      ensures Valid() && OnlyNew()
      ensures Contents() == Redate(old(Contents()), i, old(Contents()).items[i], leadMinutes, now, replaceFinal)
    {
      hide Synced;
      reminders.SyncWorkItemReminders(i, items[i].Stored(), leadMinutes, now, replaceFinal);
      assert Items() == old(Items()) == old(Items())[i := old(Items())[i]];
    }

    method AddRecord(itype: WorkItemType, status: WorkItemStatus, dueAt: Option<Instant>, followUpAt: Option<Instant>,
                     completedAt: Option<Instant>, origin: Option<Origin>, leadMinutes: nat, now: Instant) returns (i: nat)
      requires Valid()
      modifies this`items, this`events, reminders`rows, reminders.rows
      ensures Valid() && OnlyNew() && i == |old(items)| < |items|
      ensures Contents() == AddItem(old(Contents()), NewItem(itype, status, dueAt, followUpAt, completedAt), origin, leadMinutes, now)
    {
      hide Synced;
      i := |items|;
      ghost var b := Contents();
      var record := new WorkItemRecord(itype, status, dueAt, followUpAt, completedAt);
      items := items + [record];
      assert Items() == b.items + [record.Stored()];
      Append(i, Created, origin, []);
      reminders.SyncWorkItemReminders(i, record.Stored(), leadMinutes, now, false);
    }

    // ---------------------------------------------------------------- the cascades

    method CompleteOpenSubtasks(parent: nat, now: Instant) returns (ids: seq<nat>)
      requires Valid()
      modifies this`events, items, reminders.rows
      ensures Valid() && reminders.rows == old(reminders.rows)
      ensures Family(Contents(), ids) == CompleteSubtasks(Family(old(Contents()), []), SubtasksIn(old(links), parent), now)
    {
      hide Close, SyncPlanner, SubtasksIn;
      ids := [];
      var children := SubtasksIn(links, parent);
      ghost var start := Family(Contents(), ids);
      for n := 0 to |children|
        invariant Valid() && reminders.rows == old(reminders.rows)
        invariant CompleteSubtasks(Family(Contents(), ids), children[n..], now) == CompleteSubtasks(start, children, now)
      {
        ghost var f := Family(Contents(), ids);
        assert children[n..][0] == children[n] && children[n..][1..] == children[n + 1..];
        var child := children[n];
        if child < |items| && OpenStatus(items[child].status) {
          FinishAt(child, Completed, None, [], now);
          ids := ids + [child];
        }
        assert Family(Contents(), ids) == CompleteSubtask(f, child, now);
      }
      assert children[|children|..] == [];
    }

    method CancelOpenSubtasks(parent: nat, now: Instant)
      requires Valid()
      modifies this`events, items, reminders.rows
      ensures Valid() && reminders.rows == old(reminders.rows)
      ensures Contents() == CancelSubtasks(old(Contents()), SubtasksIn(old(links), parent), now)
    {
      hide Close, SyncPlanner, SubtasksIn;
      var children := SubtasksIn(links, parent);
      ghost var start := Contents();
      for n := 0 to |children|
        invariant Valid() && reminders.rows == old(reminders.rows)
        invariant CancelSubtasks(Contents(), children[n..], now) == CancelSubtasks(start, children, now)
      {
        ghost var b := Contents();
        assert children[n..][0] == children[n] && children[n..][1..] == children[n + 1..];
        var child := children[n];
        if child < |items| && OpenStatus(items[child].status) {
          CloseAt(child, WorkItemStatus.Cancelled, false, CancelledEvent, None, now);
        }
        assert Contents() == CancelSubtask(b, child, now);
      }
      assert children[|children|..] == [];
    }

    method ReactivateAt(child: nat)
      requires Valid() && child < |items|
      modifies this`events, items[child]
      ensures Valid()
      ensures var item := old(Contents()).items[child].(status := WorkItemStatus.Active, completedAt := None);
              Contents() == SyncPlanner(Log(old(Contents()).(items := old(Contents()).items[child := item]), child, Reopened, None), child, true)
    {
      hide SyncPlanner;
      ghost var b := Contents();
      items[child].status := WorkItemStatus.Active;
      items[child].completedAt := None;
      assert Items() == b.items[child := b.items[child].(status := WorkItemStatus.Active, completedAt := None)] && reminders.Contents() == b.rows;
      assert Contents() == b.(items := b.items[child := b.items[child].(status := WorkItemStatus.Active, completedAt := None)]);
      Append(child, Reopened, None, []);
      assert Contents() == Log(b.(items := b.items[child := b.items[child].(status := WorkItemStatus.Active, completedAt := None)]), child, Reopened, None);
      SyncPlannerAt(child, true);
    }

    method ReopenRequested(parent: nat, ids: seq<nat>)
      requires Valid()
      modifies this`events, items
      ensures Valid()
      ensures Contents() == ReopenSubtasks(old(Contents()), parent, ids)
    {
      hide SyncPlanner, SubtasksIn;
      ghost var start := Contents();
      var children := SubtasksIn(links, parent);
      for n := 0 to |ids|
        invariant Valid()
        invariant ReopenSubtasks(Contents(), parent, ids[n..]) == ReopenSubtasks(start, parent, ids)
      {
        ghost var b := Contents();
        assert ids[n..][0] == ids[n] && ids[n..][1..] == ids[n + 1..];
        var child := ids[n];
        if child < |items| && child in children && items[child].status.Done? {
          ReactivateAt(child);
        }
        assert Contents() == ReopenSubtask(b, parent, child);
      }
      assert ids[|ids|..] == [];
    }

    // ---------------------------------------------------------------- the mutations

    method Complete(i: nat, etype: EventType, origin: Origin, now: Instant)
      requires Valid() && i < |items|
      modifies this`events, items, reminders.rows
      ensures Valid() && Contents() == CompleteItem(old(Contents()), i, etype, origin, now)
    {
      hide CompleteSubtasks, SubtasksIn, SyncPlanner, Close;
      var ids := CompleteOpenSubtasks(i, now);
      FinishAt(i, etype, Some(origin), ids, now);
    }

    method Cancel(i: nat, origin: Origin, now: Instant)
      requires Valid() && i < |items|
      modifies this`events, items, reminders.rows
      ensures Valid() && Contents() == CancelItem(old(Contents()), i, origin, now)
    {
      hide CancelSubtasks, SubtasksIn, SyncPlanner, Close;
      CancelOpenSubtasks(i, now);
      CloseAt(i, WorkItemStatus.Cancelled, false, CancelledEvent, Some(origin), now);
    }

    method Reopen(i: nat, origin: Origin)
      requires Valid() && i < |items|
      modifies this`events, items
      ensures Valid() && Contents() == ReopenItem(old(Contents()), i, origin)
    {
      hide ReopenSubtasks, SubtasksIn, SyncPlanner, LastCompletion;
      ghost var b := Contents();
      var subtask := IsSubtask(Contents(), i);
      items[i].status := if subtask then WorkItemStatus.Active else WorkItemStatus.Inbox;
      items[i].completedAt := None;
      ghost var reopened := b.items[i].(status := if subtask then WorkItemStatus.Active else WorkItemStatus.Inbox, completedAt := None);
      assert Items() == b.items[i := reopened] && reminders.Contents() == b.rows;
      assert Contents() == b.(items := b.items[i := reopened]);
      ghost var active := Contents();
      if !subtask {
        ReopenRequested(i, LastCompletion(events, i));
      }
      ghost var c := if subtask then active else ReopenSubtasks(active, i, LastCompletion(b.events, i));
      assert Contents() == c;
      Append(i, Reopened, Some(origin), []);
      assert Contents() == Log(c, i, Reopened, Some(origin));
      SyncPlannerAt(i, true);
    }

    method Reschedule(i: nat, date: Instant, leadMinutes: nat, origin: Origin, now: Instant)
      requires Valid() && i < |items|
      modifies this`events, items, reminders`rows, reminders.rows
      ensures Valid() && Contents() == RescheduleItem(old(Contents()), i, date, leadMinutes, origin, now)
    {
      hide SyncPlanner, Synced;
      ghost var b := Contents();
      var previous := ReferenceDate(items[i].Stored());
      items[i].SetReference(date);
      assert Items() == b.items[i := Dated(b.items[i], date)] && reminders.Contents() == b.rows;
      assert Contents() == b.(items := b.items[i := Dated(b.items[i], date)]);
      Append(i, Rescheduled, Some(origin), []);
      ReconcileAt(i, leadMinutes, now, previous != Some(date));
      assert Contents() == Log(Redate(b, i, Dated(b.items[i], date), leadMinutes, now, previous != Some(date)), i, Rescheduled, Some(origin));
      SyncPlannerAt(i, false);
    }

    method MoveToBucketAt(i: nat, date: Option<Instant>, leadMinutes: nat, origin: Origin, now: Instant)
      requires Valid() && i < |items|
      modifies this`events, items, reminders`rows, reminders.rows
      ensures Valid() && Contents() == MoveToBucket(old(Contents()), i, date, leadMinutes, origin, now)
    {
      hide SyncPlanner, Synced, Close;
      if date.None? {
        CloseAt(i, WorkItemStatus.Inbox, true, BucketMoved, Some(origin), now);
        return;
      }
      var previous := Scheduled(items[i].Stored());
      ghost var b := Contents();
      ghost var moved := Placed(b.items[i], date);
      PlaceAt(i, date);
      Append(i, BucketMoved, Some(origin), []);
      assert Contents() == Log(b.(items := b.items[i := moved]), i, BucketMoved, Some(origin));
      ReconcileAt(i, leadMinutes, now, previous != date);
      assert b.items[i := moved][i := moved] == b.items[i := moved];
      assert Contents() == Log(Redate(b, i, moved, leadMinutes, now, previous != date), i, BucketMoved, Some(origin));
      SyncPlannerAt(i, false);
    }

    /** Gives a record its only date, and takes it out of the inbox. */
    method PlaceAt(i: nat, date: Option<Instant>)
      requires Valid() && i < |items|
      modifies items[i]
      ensures Valid()
      ensures Contents() == old(Contents()).(items := old(Contents()).items[i := Placed(old(Contents()).items[i], date)])
    {
      ghost var b := Contents();
      items[i].SetOnlyDate(date);
      if items[i].status.Inbox? {
        items[i].status := if items[i].itype.Waiting? then WorkItemStatus.Waiting else WorkItemStatus.Planned;
      }
      assert Items() == b.items[i := items[i].Stored()] && reminders.Contents() == b.rows;
    }

    method AppendEdit(i: nat, topic: bool, people: bool, dated: bool, origin: Origin)
      modifies this`events
      ensures events == old(events) + EditEntries(i, topic, people, dated, origin)
    {
      events := events + [Event(i, Updated, Some(origin), [])];
      if topic {
        events := events + [Event(i, TopicChanged, None, [])];
      }
      if people {
        events := events + [Event(i, PersonChanged, None, [])];
      }
      if dated {
        events := events + [Event(i, Rescheduled, None, [])];
      }
    }

    method EditFields(i: nat, itype: WorkItemType, update: bool, date: Option<Instant>)
      requires Valid() && i < |items|
      modifies items[i]
      ensures Valid()
      ensures Contents() == old(Contents()).(items := old(Contents()).items[i := Edited(old(Contents()).items[i], itype, update, date)])
    {
      ghost var b := Contents();
      items[i].itype := itype;
      if update {
        items[i].SetOnlyDate(date);
      }
      assert Items() == b.items[i := items[i].Stored()] && reminders.Contents() == b.rows;
    }

    method Edit(i: nat, itype: WorkItemType, update: bool, date: Option<Instant>, topic: bool, people: bool, origin: Origin, now: Instant)
      requires Valid() && i < |items|
      modifies this`events, items, reminders`rows, reminders.rows
      ensures Valid() && Contents() == EditItem(old(Contents()), i, itype, update, date, topic, people, origin, now)
    {
      hide SyncPlanner, Synced, EditEntries, Edited, Scheduled;
      ghost var b := Contents();
      var previous := Scheduled(items[i].Stored());
      EditFields(i, itype, update, date);
      ghost var edited := Contents().items[i];
      assert Contents().items == b.items[i := edited];
      var dated := update && Scheduled(items[i].Stored()) != previous;
      AppendEdit(i, topic, people, dated, origin);
      ghost var entries := EditEntries(i, topic, people, dated, origin);
      ReconcileAt(i, 0, now, false);
      assert Contents() == Redate(b.(events := b.events + entries), i, edited, 0, now, false);
      SyncPlannerAt(i, false);
    }

    method ChangePlannerAt(i: nat, target: PlannerStatus, origin: Origin, now: Instant)
      requires Valid() && i < |items|
      modifies this`events, items
      ensures Valid() && Contents() == ChangePlanner(old(Contents()), i, target, origin, now)
    {
      ghost var b := Contents();
      items[i].planner := target;
      if target.Transferred? {
        items[i].transferredAt := Some(now);
      } else if target.NotRequired? {
        items[i].transferredAt := None;
      }
      assert Items() == b.items[i := items[i].Stored()] && reminders.Contents() == b.rows;
      assert Contents() == b.(items := b.items[i := items[i].Stored()]);
      Append(i, PlannerChanged, Some(origin), []);
    }

    method CreateSubtaskOf(parent: nat, origin: Origin, now: Instant)
      requires Valid()
      modifies this`items, this`links, this`events, reminders`rows, reminders.rows
      ensures Valid() && Contents() == CreateSubtask(old(Contents()), parent, origin, now)
    {
      hide AddItem;
      var i := AddRecord(WorkItemType.Task, WorkItemStatus.Active, None, None, None, None, 0, now);
      links := links + [Link(parent, i, Subtask)];
      Append(parent, Linked, Some(origin), []);
    }

    method AddDecisionTo(i: nat, origin: Origin, now: Instant)
      requires Valid()
      modifies this`items, this`links, this`events, reminders`rows, reminders.rows
      ensures Valid() && Contents() == AddDecision(old(Contents()), i, origin, now)
    {
      hide AddItem;
      var decision := AddRecord(WorkItemType.Decision, WorkItemStatus.Done, None, None, Some(now), None, 0, now);
      links := links + [Link(decision, i, CreatedFrom)];
      Append(i, Updated, Some(origin), []);
    }

    method CreateFollowUp(i: nat, origin: Origin, now: Instant)
      requires Valid()
      modifies this`items, this`links, this`events, reminders`rows, reminders.rows
      ensures Valid() && Contents() == WorkItems.FollowUp(old(Contents()), i, origin, now)
    {
      hide AddItem;
      var created := AddRecord(WorkItemType.FollowUp, WorkItemStatus.Inbox, None, None, None, Some(origin), 0, now);
      links := links + [Link(created, i, CreatedFrom)];
    }

    method SnoozeReminder(r: nat, until: Instant, origin: Origin)
      requires Valid() && r < |reminders.rows| && reminders.rows[r].item.Some?
      modifies this`events, reminders.rows
      ensures Valid() && Contents() == SnoozeRow(old(Contents()), r, until, origin)
    {
      ghost var was := reminders.Contents();
      reminders.rows[r].Snooze(until);
      assert reminders.Contents() == was[r := Postponed(was[r], until)];
      Append(reminders.rows[r].item.value, ReminderSnoozed, Some(origin), []);
    }

    /** Moves one record's date, reconciles its reminders, and leaves an entry. */
    method MoveDate(i: nat, date: Instant, leadMinutes: nat, mark: Option<Origin>, now: Instant)
      requires Valid() && i < |items|
      modifies this`events, items[i], reminders`rows, reminders.rows
      ensures Valid() && OnlyNew()
      ensures Contents() == Log(Redate(old(Contents()), i, Dated(old(Contents()).items[i], date), leadMinutes, now, true), i, Rescheduled, mark)
    {
      hide Synced;
      ghost var b := Contents();
      items[i].SetReference(date);
      ghost var moved := Dated(b.items[i], date);
      assert Items() == b.items[i := moved] && reminders.Contents() == b.rows;
      assert Contents() == b.(items := b.items[i := moved]);
      ReconcileAt(i, leadMinutes, now, true);
      assert b.items[i := moved][i := moved] == b.items[i := moved];
      Append(i, Rescheduled, mark, []);
    }

    method MoveDigestItems(moves: seq<(nat, Instant)>, leadMinutes: nat, origin: Origin, now: Instant)
      requires Valid()
      modifies this`events, items, reminders`rows, reminders.rows
      ensures Valid() && Contents() == MoveEach(old(Contents()), moves, leadMinutes, Some(origin), now)
    {
      hide Synced, Movable, Redate, Dated;
      var mark := Some(origin);
      ghost var start := Contents();
      for n := 0 to |moves|
        invariant Valid() && OnlyNew() && items == old(items)
        invariant MoveEach(Contents(), moves[n..], leadMinutes, mark, now) == MoveEach(start, moves, leadMinutes, Some(origin), now)
      {
        assert moves[n..][0] == moves[n] && moves[n..][1..] == moves[n + 1..];
        var i := moves[n].0;
        if Movable(Contents(), i) {
          MovableExists(Contents(), i);
          MoveDate(i, moves[n].1, leadMinutes, mark, now);
          mark := None;
        }
      }
      assert moves[|moves|..] == [];
    }

    method EditTitle(i: nat, blank: bool, origin: Origin, now: Instant)
      requires Valid() && i < |items|
      modifies this`events, this`links, items, reminders.rows
      ensures Valid() && Contents() == (if blank then BlankTitle(old(Contents()), i, origin, now) else Log(old(Contents()), i, Updated, Some(origin)))
    {
      hide SyncPlanner, Close;
      if blank {
        CloseAt(i, WorkItemStatus.Archived, false, ArchivedEvent, Some(origin), now);
        links := Unlinked(links, i);
      } else {
        Append(i, Updated, Some(origin), []);
      }
    }

    /** A change of topic, people or text leaves an entry; those fields are not modelled. */
    method EditDetails(i: nat, origin: Origin)
      requires Valid() && i < |items|
      modifies this`events, items[i]
      ensures Valid() && Contents() == SyncPlanner(Log(old(Contents()), i, DetailChanged, Some(origin)), i, false)
    {
      hide SyncPlanner;
      ghost var b := Contents();
      Append(i, DetailChanged, Some(origin), []);
      assert Contents() == Log(b, i, DetailChanged, Some(origin));
      SyncPlannerAt(i, false);
    }

    // ---------------------------------------------------------------- one request, one transaction

    /** The entry that an origin has already left, or the length of the history. */
    method FindEvent(origin: Origin) returns (k: nat)
      ensures k == EventFor(events, origin)
    {
      k := 0;
      while k < |events| && events[k].origin != Some(origin)
        invariant k <= |events| && k + EventFor(events[k..], origin) == EventFor(events, origin)
      {
        assert events[k..][1..] == events[k + 1..];
        k := k + 1;
      }
    }

    /** The requests that close or reopen records. */
    method PerformLifecycle(op: Op, origin: Origin, now: Instant)
      requires Valid() && Allowed(Contents(), op, now) && Lifecycle(op)
      modifies this`events, this`links, items, reminders.rows
      ensures Valid() && Contents() == Mutated(old(Contents()), origin, now, op)
    {
      hide SyncPlanner, Close, CompleteItem, CancelItem, ReopenItem, BlankTitle;
      match op
      case OpComplete(i) => Complete(i, Completed, origin, now);
      case OpReceived(i) => Complete(i, WaitingReceived, origin, now);
      case OpCancel(i) => Cancel(i, origin, now);
      case OpReopen(i) => Reopen(i, origin);
      case OpReplied(i) => FinishAt(i, PersonReplied, Some(origin), [], now);
      case OpArchive(i) => CloseAt(i, WorkItemStatus.Archived, false, ArchivedEvent, Some(origin), now);
      case OpEditTitle(i, blank) => EditTitle(i, blank, origin, now);
    }

    method Perform(op: Op, origin: Origin, now: Instant)
      requires Valid() && Allowed(Contents(), op, now)
      modifies this`items, this`links, this`events, items, reminders`rows, reminders.rows
      ensures Valid() && Contents() == Mutated(old(Contents()), origin, now, op)
    {
      if Lifecycle(op) {
        PerformLifecycle(op, origin, now);
        return;
      }
      hide SyncPlanner, Synced, MoveEach, RescheduleItem, MoveToBucket, ConvertItem,
           EditItem, CreateSubtask, AddDecision, WorkItems.FollowUp, SnoozeRow, ChangePlanner;
      match op
      case OpReschedule(i, date, lead) => Reschedule(i, date, lead, origin, now);
      case OpMoveToBucket(i, target, lead) => MoveToBucketAt(i, target, lead, origin, now);
      case OpEdit(i, itype, update, at, topic, people) => Edit(i, itype, update, at, topic, people, origin, now);
      case OpEditDetails(i) => EditDetails(i, origin);
      case OpAddNote(i) => Append(i, NoteAdded, Some(origin), []);
      case OpConvertToTask(i) => ConvertToTask(i, origin, now);
      case OpChangePlanner(i, planner) => ChangePlannerAt(i, planner, origin, now);
      case OpCreateSubtask(i) => CreateSubtaskOf(i, origin, now);
      case OpAddDecision(i) => AddDecisionTo(i, origin, now);
      case OpFollowUp(i, _) => CreateFollowUp(i, origin, now);
      case OpSnooze(r, until) => SnoozeReminder(r, until, origin);
      case OpMoveDigestItems(moves, lead) => MoveDigestItems(moves, lead, origin, now);
    }

    method ConvertToTask(i: nat, origin: Origin, now: Instant)
      requires Valid() && i < |items|
      modifies this`events, items, reminders`rows, reminders.rows
      ensures Valid() && Contents() == ConvertItem(old(Contents()), i, origin, now)
    {
      hide SyncPlanner, Synced;
      ghost var b := Contents();
      items[i].itype := WorkItemType.Task;
      ghost var task := b.items[i].(itype := WorkItemType.Task);
      assert Items() == b.items[i := task] && reminders.Contents() == b.rows;
      assert Contents() == b.(items := b.items[i := task]);
      Append(i, Updated, Some(origin), []);
      ReconcileAt(i, 0, now, false);
      assert Contents() == Redate(Log(b, i, Updated, Some(origin)), i, task, 0, now, false);
      SyncPlannerAt(i, false);
    }

    /** A request is answered from history, refused, found to have nothing to do, or performed. */
    method HandleRequest(q: Request) returns (outcome: Outcome)
      requires Valid()
      modifies this`items, this`links, this`events, items, reminders`rows, reminders.rows
      ensures Valid() && Reply(Contents(), outcome) == Handle(old(Contents()), q)
    {
      hide Mutated, Allowed, Effective;
      var known := FindEvent(q.origin);
      if known < |events| {
        return Replayed(known);
      }
      if q.stale || !Allowed(Contents(), q.op, q.now) {
        return Refused;
      }
      if !Effective(Contents(), q.op) {
        return Nothing;
      }
      Perform(q.op, q.origin, q.now);
      return Applied;
    }
  }

  predicate Lifecycle(op: Op) {
    op.OpComplete? || op.OpReceived? || op.OpCancel? || op.OpReopen? || op.OpReplied? || op.OpArchive? || op.OpEditTitle?
  }
}
