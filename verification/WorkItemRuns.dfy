/** What every sequence of management requests keeps: each request takes effect once, subtasks form families, items
    stay consistent, and completing a record can be undone. */
module WorkItemRuns {
  import opened Core
  import opened ReminderSync
  import opened WorkItems

  // ---------------------------------------------------------------- history

  predicate Silent(was: seq<Event>, events: seq<Event>) {
    was <= events && forall k :: |was| <= k < |events| ==> events[k].origin.None?
  }

  predicate BindsAt(was: seq<Event>, events: seq<Event>, origin: Origin, k: nat) {
    && was <= events && |was| <= k < |events| && events[k].origin == Some(origin)
    && forall j :: |was| <= j < |events| && j != k ==> events[j].origin.None?
  }

  /** Exactly one of the new entries carries the request's origin, and no other carries any. */
  predicate Binds(was: seq<Event>, events: seq<Event>, origin: Origin) {
    exists k :: |was| <= k < |events| && BindsAt(was, events, origin, k)
  }

  lemma SilentThenBinds(a: seq<Event>, b: seq<Event>, c: seq<Event>, origin: Origin)
    requires Silent(a, b) && Binds(b, c, origin)
    ensures Binds(a, c, origin)
  {
    var k :| |b| <= k < |c| && BindsAt(b, c, origin, k);
    assert BindsAt(a, c, origin, k);
  }

  lemma BindsThenSilent(a: seq<Event>, b: seq<Event>, c: seq<Event>, origin: Origin)
    requires Binds(a, b, origin) && Silent(b, c)
    ensures Binds(a, c, origin)
  {
    var k :| |a| <= k < |b| && BindsAt(a, b, origin, k);
    assert BindsAt(a, c, origin, k);
  }

  lemma EntryBinds(was: seq<Event>, e: Event, origin: Origin)
    requires e.origin == Some(origin)
    ensures Binds(was, was + [e], origin)
  {
    assert BindsAt(was, was + [e], origin, |was|);
  }

  /** One entry with the origin, then the planner's own. */
  lemma RecordedBinds(was: seq<Event>, b: Board, e: Event, i: nat, reopened: bool, origin: Origin)
    requires i < |b.items| && Silent(was, b.events) && e.origin == Some(origin)
    ensures Binds(was, SyncPlanner(b.(events := b.events + [e]), i, reopened).events, origin)
  {
    EntryBinds(b.events, e, origin);
    SilentThenBinds(was, b.events, b.events + [e], origin);
    BindsThenSilent(was, b.events + [e], SyncPlanner(b.(events := b.events + [e]), i, reopened).events, origin);
  }

  // ---------------------------------------------------------------- cascades in closed form

  predicate ClosesWith(b: Board, children: seq<nat>, k: nat) {
    k < |b.items| && k in children && OpenStatus(b.items[k].status)
  }

  /** Completing a list of subtasks closes exactly the open ones among them, reports exactly those, and changes
      no other item, link or earlier entry of the history. */
  lemma {:induction false} CompleteSubtasksIs(f: Family, children: seq<nat>, now: Instant)
    ensures var g := CompleteSubtasks(f, children, now);
            && |g.board.items| == |f.board.items| && g.board.links == f.board.links
            && Silent(f.board.events, g.board.events) && f.ids <= g.ids
            && (forall k: nat :: k in g.ids <==> k in f.ids || ClosesWith(f.board, children, k))
            && (forall k :: 0 <= k < |f.board.items| ==>
                 g.board.items[k] == if ClosesWith(f.board, children, k) then PlannerSynced(Finished(f.board.items[k], now), false)
                                     else f.board.items[k])
    decreases |children|
  {
    if children != [] {
      var g := CompleteSubtask(f, children[0], now);
      CompleteSubtaskIs(f, children[0], now);
      CompleteSubtasksIs(g, children[1..], now);
      assert forall k: nat :: k in children <==> k == children[0] || k in children[1..];
    }
  }

  lemma CompleteSubtaskIs(f: Family, child: nat, now: Instant)
    ensures var g := CompleteSubtask(f, child, now);
            && |g.board.items| == |f.board.items| && g.board.links == f.board.links
            && Silent(f.board.events, g.board.events)
            && g.ids == (if ClosesWith(f.board, [child], child) then f.ids + [child] else f.ids)
            && (forall k :: 0 <= k < |f.board.items| ==>
                 g.board.items[k] == if ClosesWith(f.board, [child], k) then PlannerSynced(Finished(f.board.items[k], now), false)
                                     else f.board.items[k])
            && !ClosesWith(g.board, [child], child)
  {
    hide CancelAll;
  }

  function CancelledItem(item: Item): Item {
    PlannerSynced(item.(status := WorkItemStatus.Cancelled), false)
  }

  lemma {:induction false} CancelSubtasksIs(b: Board, children: seq<nat>, now: Instant)
    ensures var c := CancelSubtasks(b, children, now);
            && |c.items| == |b.items| && c.links == b.links && Silent(b.events, c.events)
            && (forall k :: 0 <= k < |b.items| ==>
                 c.items[k] == if ClosesWith(b, children, k) then CancelledItem(b.items[k]) else b.items[k])
    decreases |children|
  {
    if children != [] {
      var c := CancelSubtask(b, children[0], now);
      CancelSubtaskIs(b, children[0], now);
      CancelSubtasksIs(c, children[1..], now);
      assert forall k: nat :: k in children <==> k == children[0] || k in children[1..];
    }
  }

  lemma CancelSubtaskIs(b: Board, child: nat, now: Instant)
    ensures var c := CancelSubtask(b, child, now);
            && |c.items| == |b.items| && c.links == b.links && Silent(b.events, c.events)
            && (forall k :: 0 <= k < |b.items| ==>
                 c.items[k] == if ClosesWith(b, [child], k) then CancelledItem(b.items[k]) else b.items[k])
            && !ClosesWith(c, [child], child)
  {
    hide CancelAll;
  }

  predicate ReopensWith(b: Board, parent: nat, ids: seq<nat>, k: nat) {
    k < |b.items| && k in ids && k in SubtasksIn(b.links, parent) && b.items[k].status.Done?
  }

  function Reactivated(item: Item): Item {
    PlannerSynced(item.(status := WorkItemStatus.Active, completedAt := None), true)
  }

  lemma {:induction false} ReopenSubtasksIs(b: Board, parent: nat, ids: seq<nat>)
    ensures var c := ReopenSubtasks(b, parent, ids);
            && |c.items| == |b.items| && c.links == b.links && Silent(b.events, c.events)
            && (forall k :: 0 <= k < |b.items| ==>
                 c.items[k] == if ReopensWith(b, parent, ids, k) then Reactivated(b.items[k]) else b.items[k])
    decreases |ids|
  {
    if ids != [] {
      var c := ReopenSubtask(b, parent, ids[0]);
      ReopenSubtaskIs(b, parent, ids[0]);
      ReopenSubtasksIs(c, parent, ids[1..]);
      assert forall k: nat :: k in ids <==> k == ids[0] || k in ids[1..];
    }
  }

  lemma ReopenSubtaskIs(b: Board, parent: nat, child: nat)
    ensures var c := ReopenSubtask(b, parent, child);
            && |c.items| == |b.items| && c.links == b.links && Silent(b.events, c.events)
            && (forall k :: 0 <= k < |b.items| ==>
                 c.items[k] == if ReopensWith(b, parent, [child], k) then Reactivated(b.items[k]) else b.items[k])
            && !ReopensWith(c, parent, [child], child)
  {}

  // ---------------------------------------------------------------- each request takes effect once

  lemma {:induction false} MoveEachHistory(b: Board, moves: seq<(nat, Instant)>, leadMinutes: nat, origin: Option<Origin>, now: Instant)
    ensures var c := MoveEach(b, moves, leadMinutes, origin, now);
            && (origin.None? ==> Silent(b.events, c.events))
            && (origin.Some? && (exists k :: 0 <= k < |moves| && Movable(b, moves[k].0)) ==> Binds(b.events, c.events, origin.value))
            && c.links == b.links && |c.items| == |b.items|
    decreases |moves|
  {
    hide Synced, Movable, Binds, Dated;
    if moves != [] {
      var i := moves[0].0;
      if Movable(b, i) {
        MovableExists(b, i);
        var c := Log(Redate(b, i, Dated(b.items[i], moves[0].1), leadMinutes, now, true), i, Rescheduled, origin);
        MoveEachHistory(c, moves[1..], leadMinutes, None, now);
        if origin.Some? {
          EntryBinds(b.events, Event(i, Rescheduled, origin, []), origin.value);
          BindsThenSilent(b.events, c.events, MoveEach(c, moves[1..], leadMinutes, None, now).events, origin.value);
        }
      } else {
        MoveEachHistory(b, moves[1..], leadMinutes, origin, now);
        if k :| 0 <= k < |moves| && Movable(b, moves[k].0) {
          assert moves[1..][k - 1] == moves[k];
        }
      }
    }
  }

  lemma CompleteBinds(b: Board, i: nat, etype: EventType, origin: Origin, now: Instant)
    requires i < |b.items|
    ensures Binds(b.events, CompleteItem(b, i, etype, origin, now).events, origin)
  {
    hide CompleteSubtasks, SyncPlanner, Binds, CancelAll;
    var f := CompleteSubtasks(Family(b, []), SubtasksIn(b.links, i), now);
    CompleteSubtasksIs(Family(b, []), SubtasksIn(b.links, i), now);
    RecordedBinds(b.events, Close(f.board, i, Finished(f.board.items[i], now), now), Event(i, etype, Some(origin), f.ids), i, false, origin);
  }

  lemma CancelBinds(b: Board, i: nat, origin: Origin, now: Instant)
    requires i < |b.items|
    ensures Binds(b.events, CancelItem(b, i, origin, now).events, origin)
  {
    hide CancelSubtasks, SyncPlanner, Binds, CancelAll;
    var c := CancelSubtasks(b, SubtasksIn(b.links, i), now);
    CancelSubtasksIs(b, SubtasksIn(b.links, i), now);
    RecordedBinds(b.events, Close(c, i, c.items[i].(status := WorkItemStatus.Cancelled), now), Event(i, CancelledEvent, Some(origin), []), i, false, origin);
  }

  lemma ReopenBinds(b: Board, i: nat, origin: Origin)
    requires i < |b.items|
    ensures Binds(b.events, ReopenItem(b, i, origin).events, origin)
  {
    hide ReopenSubtasks, SyncPlanner, Binds;
    var item := b.items[i].(status := if IsSubtask(b, i) then WorkItemStatus.Active else WorkItemStatus.Inbox, completedAt := None);
    var active := b.(items := b.items[i := item]);
    var c := if IsSubtask(b, i) then active else ReopenSubtasks(active, i, LastCompletion(b.events, i));
    ReopenSubtasksIs(active, i, LastCompletion(b.events, i));
    RecordedBinds(b.events, c, Event(i, Reopened, Some(origin), []), i, true, origin);
  }

  lemma ClosedBinds(b: Board, i: nat, item: Item, now: Instant, etype: EventType, origin: Origin)
    requires i < |b.items|
    ensures Binds(b.events, SyncPlanner(Log(Close(b, i, item, now), i, etype, Some(origin)), i, false).events, origin)
  {
    hide SyncPlanner, Binds, CancelAll;
    RecordedBinds(b.events, Close(b, i, item, now), Event(i, etype, Some(origin), []), i, false, origin);
  }

  lemma RedatedBinds(b: Board, i: nat, item: Item, leadMinutes: nat, now: Instant, replaceFinal: bool, etype: EventType, origin: Origin)
    requires i < |b.items|
    ensures Binds(b.events, SyncPlanner(Log(Redate(b, i, item, leadMinutes, now, replaceFinal), i, etype, Some(origin)), i, false).events, origin)
    ensures Binds(b.events, SyncPlanner(Redate(Log(b, i, etype, Some(origin)), i, item, leadMinutes, now, replaceFinal), i, false).events, origin)
  {
    hide SyncPlanner, Binds, Synced;
    var c := Redate(b, i, item, leadMinutes, now, replaceFinal);
    RecordedBinds(b.events, c, Event(i, etype, Some(origin), []), i, false, origin);
    assert Redate(Log(b, i, etype, Some(origin)), i, item, leadMinutes, now, replaceFinal) == Log(c, i, etype, Some(origin));
  }

  /** Of an edit's entries only the first carries the origin. */
  lemma EditBinds(b: Board, i: nat, itype: WorkItemType, update: bool, date: Option<Instant>, topic: bool, people: bool,
                  origin: Origin, now: Instant)
    requires i < |b.items|
    ensures Binds(b.events, EditItem(b, i, itype, update, date, topic, people, origin, now).events, origin)
  {
    hide Binds, Synced, SyncPlanner, EditEntries, Silent;
    var item := Edited(b.items[i], itype, update, date);
    var dated := update && Scheduled(item) != Scheduled(b.items[i]);
    var c := Redate(b.(events := b.events + EditEntries(i, topic, people, dated, origin)), i, item, 0, now, false);
    EntriesBind(b.events, i, topic, people, dated, origin);
    PlannerIsSilent(c, i);
    BindsThenSilent(b.events, c.events, SyncPlanner(c, i, false).events, origin);
  }

  lemma EntriesBind(was: seq<Event>, i: nat, topic: bool, people: bool, dated: bool, origin: Origin)
    ensures Binds(was, was + EditEntries(i, topic, people, dated, origin), origin)
  {
    hide Binds;
    var entries := EditEntries(i, topic, people, dated, origin);
    EntryBinds(was, entries[0], origin);
    assert was + entries == was + [entries[0]] + entries[1..];
    BindsThenSilent(was, was + [entries[0]], was + entries, origin);
  }

  lemma PlannerIsSilent(b: Board, i: nat)
    requires i < |b.items|
    ensures Silent(b.events, SyncPlanner(b, i, false).events)
  {}

  /** A request that is applied leaves exactly one trace of its origin. */
  lemma AppliedBindsOnce(b: Board, q: Request)
    requires Handle(b, q).outcome.Applied?
    ensures Binds(b.events, Handle(b, q).board.events, q.origin)
  {
    hide Binds, SyncPlanner, Synced, CancelAll, CompleteItem, CancelItem, ReopenItem, Redate, Close;
    var origin, now := q.origin, q.now;
    match q.op
    case OpComplete(i) => CompleteBinds(b, i, Completed, origin, now);
    case OpReceived(i) => CompleteBinds(b, i, WaitingReceived, origin, now);
    case OpCancel(i) => CancelBinds(b, i, origin, now);
    case OpReopen(i) => ReopenBinds(b, i, origin);
    case OpReplied(i) => ClosedBinds(b, i, Finished(b.items[i], now), now, PersonReplied, origin);
    case OpArchive(i) => ClosedBinds(b, i, b.items[i].(status := WorkItemStatus.Archived), now, ArchivedEvent, origin);
    case OpReschedule(i, date, lead) =>
      RedatedBinds(b, i, Dated(b.items[i], date), lead, now, ReferenceDate(b.items[i]) != Some(date), Rescheduled, origin);
    case OpMoveToBucket(i, target, lead) => MoveToBucketBinds(b, i, target, lead, origin, now);
    case OpEdit(i, itype, update, at, topic, people) => EditBinds(b, i, itype, update, at, topic, people, origin, now);
    case OpEditDetails(i) => RecordedBinds(b.events, b, Event(i, DetailChanged, Some(origin), []), i, false, origin);
    case OpAddNote(i) => EntryBinds(b.events, Event(i, NoteAdded, Some(origin), []), origin);
    case OpEditTitle(i, blank) =>
      ClosedBinds(b, i, b.items[i].(status := WorkItemStatus.Archived), now, ArchivedEvent, origin);
      EntryBinds(b.events, Event(i, Updated, Some(origin), []), origin);
    case OpConvertToTask(i) =>
      RedatedBinds(b, i, b.items[i].(itype := WorkItemType.Task), 0, now, false, Updated, origin);
    case OpChangePlanner(i, planner) => EntryBinds(b.events, Event(i, PlannerChanged, Some(origin), []), origin);
    case OpCreateSubtask(i) => CreatedBinds(b, Event(|b.items|, Created, None, []), Event(i, Linked, Some(origin), []), origin);
    case OpAddDecision(i) => CreatedBinds(b, Event(|b.items|, Created, None, []), Event(i, Updated, Some(origin), []), origin);
    case OpFollowUp(i, _) => EntryBinds(b.events, Event(|b.items|, Created, Some(origin), []), origin);
    case OpSnooze(r, until) => EntryBinds(b.events, Event(b.rows[r].item.value, ReminderSnoozed, Some(origin), []), origin);
    case OpMoveDigestItems(moves, lead) => MoveEachHistory(b, moves, lead, Some(origin), now);
  }

  lemma CreatedBinds(b: Board, e: Event, f: Event, origin: Origin)
    requires e.origin.None? && f.origin == Some(origin)
    ensures Binds(b.events, b.events + [e] + [f], origin)
  {
    EntryBinds(b.events + [e], f, origin);
    SilentThenBinds(b.events, b.events + [e], b.events + [e] + [f], origin);
  }

  lemma MoveToBucketBinds(b: Board, i: nat, date: Option<Instant>, leadMinutes: nat, origin: Origin, now: Instant)
    requires i < |b.items|
    ensures Binds(b.events, MoveToBucket(b, i, date, leadMinutes, origin, now).events, origin)
  {
    hide SyncPlanner, Binds, Synced, CancelAll, Redate, Close;
    var item := b.items[i];
    if date.None? {
      ClosedBinds(b, i, item.(dueAt := None, followUpAt := None, status := WorkItemStatus.Inbox), now, BucketMoved, origin);
    } else {
      RedatedBinds(b, i, Placed(item, date), leadMinutes, now, Scheduled(item) != date, BucketMoved, origin);
    }
  }

  function After(b: Board, qs: seq<Request>): Board
    decreases |qs|
  {
    if qs == [] then b else After(Handle(b, qs[0]).board, qs[1..])
  }

  lemma StillBound(b: Board, q: Request, origin: Origin)
    requires Bound(b.events, origin)
    ensures Bound(Handle(b, q).board.events, origin)
  {
    hide Mutated, Allowed, Effective;
    var c := Handle(b, q).board;
    if Handle(b, q).outcome.Applied? {
      AppliedBindsOnce(b, q);
    }
    var k :| 0 <= k < |b.events| && BoundAt(b.events, origin, k);
    assert BoundAt(c.events, origin, k);
  }

  lemma BindsIsBound(was: seq<Event>, events: seq<Event>, origin: Origin)
    requires Binds(was, events, origin)
    ensures Bound(events, origin)
  {
    var k :| |was| <= k < |events| && BindsAt(was, events, origin, k);
    assert BoundAt(events, origin, k);
  }

  /** No origin ever has two entries in the history. */
  predicate OriginsAreUnique(events: seq<Event>) {
    forall j, k :: 0 <= j < k < |events| && events[j].origin.Some? ==> events[j].origin != events[k].origin
  }

  lemma HandleKeepsOriginsUnique(b: Board, q: Request)
    requires OriginsAreUnique(b.events)
    ensures OriginsAreUnique(Handle(b, q).board.events)
  {
    hide Mutated, Allowed, Effective;
    if Handle(b, q).outcome.Applied? {
      AppliedBindsOnce(b, q);
      var events := Handle(b, q).board.events;
      var at :| |b.events| <= at < |events| && BindsAt(b.events, events, q.origin, at);
      NotYetBound(b.events, q.origin);
      assert forall j :: 0 <= j < |b.events| ==> events[j] == b.events[j];
    }
  }

  lemma NotYetBound(events: seq<Event>, origin: Origin)
    requires !Bound(events, origin)
    ensures forall j :: 0 <= j < |events| ==> events[j].origin != Some(origin)
  {
    forall j | 0 <= j < |events| ensures events[j].origin != Some(origin) {
      assert !BoundAt(events, origin, j);
    }
  }
}
