/** The requests on work items, one by one: when each is applied, and the record, links, reminders and entry it leaves. */
module RequestOutcomes {
  import opened Core
  import opened ReminderRows
  import opened ReminderSync
  import opened ReminderPlans
  import opened WorkItems
  import opened WorkItemRuns
  import opened BoardSteps
  import opened Families
  import opened RequestEffects

  // ---------------------------------------------------------------- when a request is applied

  predicate IsOpen(b: Board, i: nat) {
    i < |b.items| && !Closed(b.items[i])
  }

  predicate IsKept(b: Board, i: nat) {
    i < |b.items| && !b.items[i].status.Archived?
  }

  predicate IsChild(b: Board, i: nat) {
    exists k :: 0 <= k < |b.links| && b.links[k].kind == Subtask && b.links[k].target == i
  }

  predicate FollowedUp(b: Board, i: nat) {
    exists k :: 0 <= k < |b.links| && b.links[k].kind == CreatedFrom && b.links[k].target == i
                && b.links[k].source < |b.items| && b.items[b.links[k].source].itype == WorkItemType.FollowUp
  }

  predicate MovesTomorrow(b: Board, i: nat) {
    IsOpen(b, i) && DateOf(b.items[i]).Some? && !IsChild(b, i) && b.items[i].itype != WorkItemType.Waiting
  }

  predicate MayBeSnoozed(b: Board, r: nat, now: Instant, until: Instant) {
    && now < until && r < |b.rows| && b.rows[r].item.Some? && IsOpen(b, b.rows[r].item.value)
    && b.rows[r].status !in {ReminderStatus.Cancelled, ReminderStatus.Failed}
    && match b.rows[r].rtype
       case FollowUp => b.items[b.rows[r].item.value].followUpAt.Some?
       case Deadline => b.items[b.rows[r].item.value].dueAt.Some?
       case Waiting => b.items[b.rows[r].item.value].dueAt.Some?
       case _ => false
  }

  /** Closing and dating take an open record, reopening a done one, and changes of its content any that is not archived. */
  predicate Applies(b: Board, op: Op, now: Instant) {
    match op
    case OpComplete(i) => IsOpen(b, i)
    case OpCancel(i) => IsOpen(b, i)
    case OpReceived(i) => IsOpen(b, i) && b.items[i].itype == WorkItemType.Waiting
    case OpReplied(i) => IsOpen(b, i) && b.items[i].itype == WorkItemType.FollowUp
    case OpReopen(i) => IsKept(b, i) && b.items[i].status == WorkItemStatus.Done
    case OpArchive(i) => IsKept(b, i)
    case OpReschedule(i, _, _) => IsOpen(b, i)
    case OpMoveToBucket(i, _, _) =>
      IsOpen(b, i) && b.items[i].itype in {WorkItemType.Task, WorkItemType.FollowUp, WorkItemType.Waiting, WorkItemType.Question}
    case OpEdit(i, _, _, _, _, _) => IsKept(b, i)
    case OpEditDetails(i) => IsKept(b, i)
    case OpAddNote(i) => IsKept(b, i)
    case OpEditTitle(i, _) => IsKept(b, i)
    case OpConvertToTask(i) => IsOpen(b, i) && b.items[i].itype in {WorkItemType.AgendaItem, WorkItemType.Question}
    case OpChangePlanner(i, planner) =>
      IsOpen(b, i) && b.items[i].planner != planner
      && b.items[i].itype in {WorkItemType.Task, WorkItemType.FollowUp, WorkItemType.Waiting}
    case OpCreateSubtask(i) => IsOpen(b, i) && !IsChild(b, i)
    case OpAddDecision(i) => IsKept(b, i)
    case OpFollowUp(i, received) =>
      i < |b.items| && b.items[i].itype == WorkItemType.Waiting && !FollowedUp(b, i)
      && (b.items[i].status == WorkItemStatus.Done || (!received && !Closed(b.items[i])))
    case OpSnooze(r, until) => MayBeSnoozed(b, r, now, until)
    case OpMoveDigestItems(moves, _) => exists k :: 0 <= k < |moves| && MovesTomorrow(b, moves[k].0)
  }

  lemma MovesTomorrowIsMovable(b: Board, i: nat)
    ensures MovesTomorrow(b, i) <==> Movable(b, i)
  {}

  /** A request is applied exactly if its origin left no entry yet, its card is not stale, and the record allows it;
      otherwise nothing changes. */
  lemma AppliedExactly(b: Board, q: Request)
    ensures var reply := Handle(b, q);
            var known := exists k :: 0 <= k < |b.events| && b.events[k].origin == Some(q.origin);
            && (reply.outcome.Applied? <==> !known && !q.stale && Applies(b, q.op, q.now))
            && (reply.outcome.Replayed? <==> known)
            && (known ==> reply.outcome.event < |b.events| && b.events[reply.outcome.event].origin == Some(q.origin))
            && (!reply.outcome.Applied? ==> reply.board == b)
  {
    hide Mutated;
    var known := EventFor(b.events, q.origin);
    if k :| 0 <= k < |b.events| && b.events[k].origin == Some(q.origin) {
      assert BoundAt(b.events, q.origin, k);
    }
    if q.op.OpMoveDigestItems? {
      forall i: nat ensures MovesTomorrow(b, i) <==> Movable(b, i) {
        MovesTomorrowIsMovable(b, i);
      }
    }
  }

  // ---------------------------------------------------------------- closing and reopening

  predicate Enters(b: Board, c: Board, e: Event) {
    b.events <= c.events && e in c.events[|b.events|..]
  }

  predicate Silences(b: Board, c: Board, i: nat, now: Instant) {
    |c.rows| == |b.rows| && forall r :: 0 <= r < |b.rows| ==> c.rows[r] == if b.rows[r].item == Some(i) then Silenced(b.rows[r], now) else b.rows[r]
  }

  /** A reminder that is silenced: cancelled now if it was active, held by nobody, and with no time left to come up; what it
      was for, and what is known of its deliveries, stays. */
  lemma SilencedMeans(was: Row, now: Instant)
    ensures var row := Silenced(was, now);
            if was.status in {ReminderStatus.Pending, ReminderStatus.Processing, ReminderStatus.Snoozed} then
              && row.status == ReminderStatus.Cancelled && row.cancelledAt == Some(now)
              && row.token.None? && row.processingStartedAt.None? && row.snoozedUntil.None? && row.nextAttemptAt.None?
              && row.(status := was.status, cancelledAt := was.cancelledAt, token := was.token, processingStartedAt := was.processingStartedAt,
                      snoozedUntil := was.snoozedUntil, nextAttemptAt := was.nextAttemptAt) == was
            else row == was
  {}

  /** A reply closes its follow-up, and that alone. */
  lemma ReplyTakesEffect(b: Board, i: nat, origin: Origin, now: Instant)
    requires i < |b.items|
    ensures var c := ReplyItem(b, i, origin, now);
            && OnlyBecomes(b, c, i, b.items[i].(status := WorkItemStatus.Done, completedAt := Some(now)))
            && Silences(b, c, i, now) && Enters(b, c, Event(i, PersonReplied, Some(origin), []))
  {
    PlannerFollows(Finished(b.items[i], now), false);
    assert ReplyItem(b, i, origin, now).events[|b.events|] == Event(i, PersonReplied, Some(origin), []);
  }

  /** Archiving takes the record away, and that alone. */
  lemma ArchivingTakesEffect(b: Board, i: nat, origin: Origin, now: Instant)
    requires i < |b.items|
    ensures var c := ArchiveItem(b, i, origin, now);
            && OnlyBecomes(b, c, i, b.items[i].(status := WorkItemStatus.Archived))
            && Silences(b, c, i, now) && Enters(b, c, Event(i, ArchivedEvent, Some(origin), []))
  {
    PlannerFollows(b.items[i].(status := WorkItemStatus.Archived), false);
    assert ArchiveItem(b, i, origin, now).events[|b.events|] == Event(i, ArchivedEvent, Some(origin), []);
  }

  /** Completing and receiving close the record with its open subtasks, and the entry lists exactly these. */
  lemma CompletingTakesEffect(b: Board, i: nat, etype: EventType, origin: Origin, now: Instant) returns (ids: seq<nat>)
    requires Forest(b.links) && i < |b.items| && (etype.Completed? || etype.WaitingReceived?)
    ensures var c := CompleteItem(b, i, etype, origin, now);
            && |c.items| == |b.items| && c.links == b.links && Enters(b, c, Event(i, etype, Some(origin), ids))
            && (forall k: nat :: k in ids <==> k < |b.items| && Link(i, k, Subtask) in b.links && !Closed(b.items[k]))
            && (forall k :: 0 <= k < |b.items| ==>
                 var done := b.items[k].(status := WorkItemStatus.Done, completedAt := Some(now));
                 c.items[k] == if k == i || k in ids then done.(planner := PlannerAfter(done, false)) else b.items[k])
  {
    hide CancelAll, Forest, SyncPlanner, PlannerSynced, PlannerAfter;
    CompleteItemIs(b, i, etype, origin, now);
    var f := CompleteSubtasks(Family(b, []), SubtasksIn(b.links, i), now);
    CompleteSubtasksIs(Family(b, []), SubtasksIn(b.links, i), now);
    ids := f.ids;
    var c := CompleteItem(b, i, etype, origin, now);
    var closed := Close(f.board, i, Finished(f.board.items[i], now), now);
    var logged := closed.(events := closed.events + [Event(i, etype, Some(origin), ids)]);
    PlannerAppends(logged, i, false);
    assert logged.events[|f.board.events|] == Event(i, etype, Some(origin), ids);
    assert c.events[|f.board.events|] == Event(i, etype, Some(origin), ids);
    forall k: nat ensures k in SubtasksIn(b.links, i) <==> Link(i, k, Subtask) in b.links {
      SubtasksAreTargets(b.links, i, k);
    }
    forall k | 0 <= k < |b.items| ensures PlannerSynced(Finished(b.items[k], now), false)
        == Finished(b.items[k], now).(planner := PlannerAfter(Finished(b.items[k], now), false)) {
      PlannerFollows(Finished(b.items[k], now), false);
    }
  }

  lemma PlannerAppends(b: Board, i: nat, reopened: bool)
    requires i < |b.items|
    ensures var c := SyncPlanner(b, i, reopened);
            b.events <= c.events && c.rows == b.rows && c.links == b.links && c.items == b.items[i := PlannerSynced(b.items[i], reopened)]
  {
    hide PlannerSynced;
  }

  /** Cancelling takes the record and its open subtasks. */
  lemma CancellingTakesEffect(b: Board, i: nat, origin: Origin, now: Instant)
    requires Forest(b.links) && i < |b.items|
    ensures var c := CancelItem(b, i, origin, now);
            && |c.items| == |b.items| && c.links == b.links && Enters(b, c, Event(i, CancelledEvent, Some(origin), []))
            && (forall k :: 0 <= k < |b.items| ==>
                 var gone := b.items[k].(status := WorkItemStatus.Cancelled);
                 c.items[k] == if k == i || (Link(i, k, Subtask) in b.links && !Closed(b.items[k])) then gone.(planner := PlannerAfter(gone, false))
                               else b.items[k])
  {
    hide CancelAll, Forest, SyncPlanner, PlannerSynced, PlannerAfter, CancelSubtasks;
    ForestIsShallow(b, i);
    CancelSubtasksIs(b, SubtasksIn(b.links, i), now);
    var d := CancelSubtasks(b, SubtasksIn(b.links, i), now);
    var closed := Close(d, i, d.items[i].(status := WorkItemStatus.Cancelled), now);
    var logged := Log(closed, i, CancelledEvent, Some(origin));
    PlannerAppends(logged, i, false);
    assert CancelItem(b, i, origin, now).events[|d.events|] == Event(i, CancelledEvent, Some(origin), []);
    forall k: nat ensures k in SubtasksIn(b.links, i) <==> Link(i, k, Subtask) in b.links {
      SubtasksAreTargets(b.links, i, k);
    }
    forall k | 0 <= k < |b.items| ensures PlannerSynced(b.items[k].(status := WorkItemStatus.Cancelled), false)
        == b.items[k].(status := WorkItemStatus.Cancelled).(planner := PlannerAfter(b.items[k].(status := WorkItemStatus.Cancelled), false)) {
      PlannerFollows(b.items[k].(status := WorkItemStatus.Cancelled), false);
    }
  }

  /** Reopening brings a record back, a subtask as active and any other into the inbox; and with a record that is no subtask
      those that its latest completion closed, that are still its subtasks, and that are still done. */
  lemma ReopeningTakesEffect(b: Board, i: nat, origin: Origin)
    requires Forest(b.links) && i < |b.items|
    ensures var c := ReopenItem(b, i, origin);
            var back := b.items[i].(status := if IsChild(b, i) then WorkItemStatus.Active else WorkItemStatus.Inbox, completedAt := None);
            && |c.items| == |b.items| && c.links == b.links && c.rows == b.rows && Enters(b, c, Event(i, Reopened, Some(origin), []))
            && c.items[i] == back.(planner := PlannerAfter(back, true))
            && (forall k :: 0 <= k < |b.items| && k != i ==>
                 var active := b.items[k].(status := WorkItemStatus.Active, completedAt := None);
                 c.items[k] == if k in LastCompletion(b.events, i) && Link(i, k, Subtask) in b.links && b.items[k].status == WorkItemStatus.Done
                               then active.(planner := PlannerAfter(active, true)) else b.items[k])
  {
    hide Forest, SyncPlanner, PlannerSynced, PlannerAfter, ReopenSubtasks, LastCompletion;
    ForestIsShallow(b, i);
    var ids := LastCompletion(b.events, i);
    var item := b.items[i].(status := if IsSubtask(b, i) then WorkItemStatus.Active else WorkItemStatus.Inbox, completedAt := None);
    var active := b.(items := b.items[i := item]);
    ReopenSubtasksIs(active, i, ids);
    ReopenLeavesRows(active, i, ids);
    var d := if IsSubtask(b, i) then active else ReopenSubtasks(active, i, ids);
    PlannerAppends(Log(d, i, Reopened, Some(origin)), i, true);
    assert ReopenItem(b, i, origin).events[|d.events|] == Event(i, Reopened, Some(origin), []);
    PlannerFollows(item, true);
    forall k: nat ensures k in SubtasksIn(b.links, i) <==> Link(i, k, Subtask) in b.links {
      SubtasksAreTargets(b.links, i, k);
    }
    ChildrenHaveNone(b, i);
    forall k | 0 <= k < |b.items| ensures PlannerSynced(b.items[k].(status := WorkItemStatus.Active, completedAt := None), true)
        == b.items[k].(status := WorkItemStatus.Active, completedAt := None).(planner := PlannerAfter(b.items[k].(status := WorkItemStatus.Active, completedAt := None), true)) {
      PlannerFollows(b.items[k].(status := WorkItemStatus.Active, completedAt := None), true);
    }
  }

  lemma {:induction false} ReopenLeavesRows(b: Board, parent: nat, ids: seq<nat>)
    ensures ReopenSubtasks(b, parent, ids).rows == b.rows
    decreases |ids|
  {
    if ids != [] {
      ReopenLeavesRows(ReopenSubtask(b, parent, ids[0]), parent, ids[1..]);
    }
  }

  /** A subtask has no subtasks. */
  lemma ChildrenHaveNone(b: Board, i: nat)
    requires Forest(b.links)
    ensures IsSubtask(b, i) ==> forall k: nat :: Link(i, k, Subtask) !in b.links
  {
    if IsSubtask(b, i) {
      var j :| 0 <= j < |b.links| && b.links[j].kind.Subtask? && b.links[j].target == i;
      forall k: nat ensures Link(i, k, Subtask) !in b.links {
        forall n | 0 <= n < |b.links| ensures b.links[n] != Link(i, k, Subtask) {
          assert b.links[n].kind.Subtask? ==> b.links[j].target != b.links[n].source;
        }
      }
    }
  }

  // ---------------------------------------------------------------- new records

  /** A record that is new and undated: nobody's reminders change. */
  lemma NoDateNoReminders(b: Board, item: Item, leadMinutes: nat, now: Instant)
    requires RowsOk(b.items, b.rows) && DateOf(item).None?
    ensures Synced(b.rows, |b.items|, item, leadMinutes, now, false) == b.rows
  {
    hide Synced, KeyFits;
    var rows := Synced(b.rows, |b.items|, item, leadMinutes, now, false);
    SyncedIs(b.rows, |b.items|, item, leadMinutes, now, false);
    assert Schedules(item, leadMinutes, now) == [];
    assert NewRows(b.rows, |b.items|, [], false) == [];
    forall r | 0 <= r < |b.rows| ensures rows[r] == b.rows[r] {
      SyncCancelsUnplanned(b.rows, |b.items|, item, leadMinutes, now, false, r);
    }
  }

  predicate Creates(b: Board, c: Board, item: Item, links: seq<Link>, events: seq<Event>) {
    c.items == b.items + [item] && c.links == b.links + links && c.events == b.events + events && c.rows == b.rows
  }

  /** A new subtask is an active task of its parent, a new decision a done record that came from its origin, and a new
      follow-up waits in the inbox of what it follows. */
  lemma CreationTakesEffect(b: Board, i: nat, origin: Origin, now: Instant)
    requires RowsOk(b.items, b.rows)
    ensures Creates(b, CreateSubtask(b, i, origin, now), Item(WorkItemType.Task, WorkItemStatus.Active, None, None, None, NotRequired, None),
                    [Link(i, |b.items|, Subtask)],
                    [Event(|b.items|, Created, None, []), Event(i, Linked, Some(origin), [])])
    ensures Creates(b, AddDecision(b, i, origin, now),
                    Item(WorkItemType.Decision, WorkItemStatus.Done, None, None, Some(now), NotRequired, None),
                    [Link(|b.items|, i, CreatedFrom)],
                    [Event(|b.items|, Created, None, []), Event(i, Updated, Some(origin), [])])
    ensures Creates(b, WorkItems.FollowUp(b, i, origin, now),
                    Item(WorkItemType.FollowUp, WorkItemStatus.Inbox, None, None, None, NotRequired, None),
                    [Link(|b.items|, i, CreatedFrom)], [Event(|b.items|, Created, Some(origin), [])])
  {
    hide Synced, RowsOk;
    NoDateNoReminders(b, NewItem(WorkItemType.Task, WorkItemStatus.Active, None, None, None), 0, now);
    NoDateNoReminders(b, NewItem(WorkItemType.Decision, WorkItemStatus.Done, None, None, Some(now)), 0, now);
    NoDateNoReminders(b, NewItem(WorkItemType.FollowUp, WorkItemStatus.Inbox, None, None, None), 0, now);
  }

  /** A capture: one new record as given, whose managed reminders follow its dates, and at most one reminder of the user's own
      for it, at the time asked for; a follow-up gets none, as that time is its date already. */
  lemma CaptureTakesEffect(b: Board, itype: WorkItemType, status: WorkItemStatus, dueAt: Option<Instant>, followUpAt: Option<Instant>,
                           custom: Option<Instant>, draftItem: nat, leadMinutes: nat, now: Instant)
    requires RowsOk(b.items, b.rows)
    ensures var c := Capture(b, itype, status, dueAt, followUpAt, custom, draftItem, leadMinutes, now);
            var d := c.(rows := Synced(b.rows, |b.items|, c.items[|b.items|], leadMinutes, now, false));
            && |c.items| == |b.items| + 1 && b.items <= c.items && c.links == b.links
            && c.items[|b.items|].(completedAt := None) == Item(itype, status, dueAt, followUpAt, None, NotRequired, None)
            && c.events == b.events + [Event(|b.items|, Created, None, [])]
            && Follows(b, d, |b.items|, leadMinutes, now, false) && d.rows <= c.rows && |c.rows| <= |d.rows| + 1
            && (|c.rows| > |d.rows| <==> custom.Some? && !itype.FollowUp? && forall r :: 0 <= r < |d.rows| ==> d.rows[r].key != CustomKey(draftItem))
            && (|c.rows| > |d.rows| ==>
                 && c.rows[|d.rows|].item == Some(|b.items|) && c.rows[|d.rows|].rtype == Custom && c.rows[|d.rows|].kind == Manual
                 && c.rows[|d.rows|].status == ReminderStatus.Pending && Some(c.rows[|d.rows|].scheduledAt) == custom
                 && c.rows[|d.rows|].referenceAt == custom && c.rows[|d.rows|].key == CustomKey(draftItem))
  {
    hide Synced, CustomKey, KeyFits, Follows;
    var item := NewItem(itype, status, dueAt, followUpAt, if status.Done? then Some(now) else None);
    var grown := b.(items := b.items + [item]);
    var e := grown.(rows := Synced(b.rows, |b.items|, item, leadMinutes, now, false));
    SyncedFollowsNew(grown, e, |b.items|, leadMinutes, now);
    FollowsAgain(grown, b, e, Capture(b, itype, status, dueAt, followUpAt, custom, draftItem, leadMinutes, now).(rows := e.rows), |b.items|, leadMinutes, now);
  }

  lemma SyncedFollowsNew(b: Board, c: Board, i: nat, leadMinutes: nat, now: Instant)
    requires RowsOk(b.items, b.rows) && i < |b.items| && c == b.(rows := Synced(b.rows, i, b.items[i], leadMinutes, now, false))
    requires b.items[i].planner.NotRequired?
    ensures Follows(b, c, i, leadMinutes, now, false)
  {
    hide Synced, RowsOk, Follows;
    SyncedFollows(b, c, i, b.items[i], leadMinutes, now, false);
  }

  lemma FollowsAgain(b: Board, b': Board, c: Board, c': Board, i: nat, leadMinutes: nat, now: Instant)
    requires b'.rows == b.rows && c'.rows == c.rows && c'.items == c.items && i < |c.items|
    requires Follows(b, c, i, leadMinutes, now, false)
    ensures Follows(b', c', i, leadMinutes, now, false)
  {
    hide InPlan, Gets, Serves, ManagedOf, ActiveStatus;
    HasAgain(b, b', c, c', i, Exact);
    HasAgain(b, b', c, c', i, BeforeDeadline);
  }

  lemma HasAgain(b: Board, b': Board, c: Board, c': Board, i: nat, kind: ScheduleKind)
    requires b'.rows == b.rows && c'.rows == c.rows && c'.items == c.items && i < |c.items|
    ensures Has(b, c, i, kind, false) ==> Has(b', c', i, kind, false)
  {}

  // ---------------------------------------------------------------- other changes

  /** The planner status a user sets; the time of transfer goes with it. */
  lemma PlannerChangeTakesEffect(b: Board, i: nat, target: PlannerStatus, origin: Origin, now: Instant)
    requires i < |b.items|
    ensures var c := ChangePlanner(b, i, target, origin, now);
            var at := match target case Transferred => Some(now) case NotRequired => None case _ => b.items[i].transferredAt;
            && c.items == b.items[i := b.items[i].(planner := target, transferredAt := at)] && c.links == b.links && c.rows == b.rows
            && c.events == b.events + [Event(i, PlannerChanged, Some(origin), [])]
  {}

  /** Changes of content leave an entry, and renaming and notes nothing else; a change of details may reach the planner. */
  lemma ContentChangesTakeEffect(b: Board, i: nat, q: Request)
    requires i < |b.items| && Handle(b, q).outcome.Applied?
    ensures var c := Handle(b, q).board;
            && (q.op == OpEditDetails(i) ==> OnlyBecomes(b, c, i, b.items[i]) && c.rows == b.rows)
            && (q.op == OpAddNote(i) ==> c == b.(events := b.events + [Event(i, NoteAdded, Some(q.origin), [])]))
            && (q.op == OpEditTitle(i, false) ==> c == b.(events := b.events + [Event(i, Updated, Some(q.origin), [])]))
  {
    PlannerFollows(b.items[i], false);
  }

  /** An empty title archives a record and takes it from its parent, and from nothing else. */
  lemma BlankTitleTakesEffect(b: Board, i: nat, origin: Origin, now: Instant)
    requires Forest(b.links) && i < |b.items|
    ensures var c := BlankTitle(b, i, origin, now);
            && c.items == ArchiveItem(b, i, origin, now).items && c.rows == ArchiveItem(b, i, origin, now).rows
            && c.events == ArchiveItem(b, i, origin, now).events
            && (forall link :: link in c.links <==> link in b.links && !(link.kind == Subtask && link.target == i))
  {
    hide ArchiveItem;
    ArchiveKeepsLinks(b, i, origin, now);
    UnlinkedTakesOne(b.links, i);
  }

  lemma ArchiveKeepsLinks(b: Board, i: nat, origin: Origin, now: Instant)
    requires i < |b.items|
    ensures ArchiveItem(b, i, origin, now).links == b.links
  {}

  lemma {:induction false} UnlinkedTakesOne(links: seq<Link>, child: nat)
    requires Forest(links)
    ensures forall link :: link in Unlinked(links, child) <==> link in links && !(link.kind == Subtask && link.target == child)
    decreases |links|
  {
    hide Forest;
    if links != [] {
      TailIsForest(links);
      assert forall link :: link in links <==> link == links[0] || link in links[1..];
      if links[0].kind.Subtask? && links[0].target == child {
        OnlyParent(links, child);
      } else {
        UnlinkedTakesOne(links[1..], child);
      }
    }
  }

  lemma OnlyParent(links: seq<Link>, child: nat)
    requires Forest(links) && links != [] && links[0].kind.Subtask? && links[0].target == child
    ensures forall link :: link in links[1..] ==> !(link.kind.Subtask? && link.target == child)
  {
    forall link | link in links[1..] ensures !(link.kind.Subtask? && link.target == child) {
      var k :| 0 <= k < |links[1..]| && links[1..][k] == link;
      assert links[k + 1] == link;
    }
  }

  /** A snoozed reminder sleeps until the given time, in nobody's hands and with all its attempts; what is known of its
      deliveries stays. */
  lemma SnoozeTakesEffect(b: Board, r: nat, until: Instant, origin: Origin)
    requires r < |b.rows| && b.rows[r].item.Some?
    ensures var c, was := SnoozeRow(b, r, until, origin), b.rows[r];
            && c.items == b.items && c.links == b.links && c.events == b.events + [Event(was.item.value, ReminderSnoozed, Some(origin), [])]
            && |c.rows| == |b.rows| && (forall k :: 0 <= k < |b.rows| && k != r ==> c.rows[k] == b.rows[k])
            && var row := c.rows[r];
               && row.status == ReminderStatus.Snoozed && row.snoozedUntil == Some(until) && row.attempts == 0
               && row.token.None? && row.processingStartedAt.None? && row.nextAttemptAt.None? && row.cancelledAt.None?
               && row.scheduledAt == was.scheduledAt && row.deliveryStartedAt == was.deliveryStartedAt && row.sentAt == was.sentAt
               && row.deliveryUnknownAt == was.deliveryUnknownAt && row.item == was.item && row.rtype == was.rtype && row.kind == was.kind
               && row.key == was.key && row.referenceAt == was.referenceAt
  {}

  // ---------------------------------------------------------------- moving a digest's items

  predicate MovesOnce(moves: seq<(nat, Instant)>) {
    forall j, k :: 0 <= j < k < |moves| ==> moves[j].0 != moves[k].0
  }

  function WithDate(item: Item, date: Instant): Item {
    if item.itype.FollowUp? then item.(followUpAt := Some(date)) else item.(dueAt := Some(date))
  }

  /** Moving the items of a digest dates exactly those that can be moved, each as asked, and nothing else changes on records. */
  lemma {:induction false} MovingDigestItemsTakesEffect(b: Board, moves: seq<(nat, Instant)>, leadMinutes: nat, origin: Option<Origin>,
                                                        now: Instant, i: nat)
    requires MovesOnce(moves) && i < |b.items|
    ensures var c := MoveEach(b, moves, leadMinutes, origin, now);
            && |c.items| == |b.items| && c.links == b.links
            && (forall k :: 0 <= k < |moves| && moves[k].0 == i && MovesTomorrow(b, i) ==> c.items[i] == WithDate(b.items[i], moves[k].1))
            && ((!MovesTomorrow(b, i) || forall k :: 0 <= k < |moves| ==> moves[k].0 != i) ==> c.items[i] == b.items[i])
    decreases |moves|
  {
    hide Synced;
    if moves != [] {
      MovesTomorrowIsMovable(b, moves[0].0);
      var j := moves[0].0;
      var next := if Movable(b, j) then Log(Redate(b, j, Dated(b.items[j], moves[0].1), leadMinutes, now, true), j, Rescheduled, origin) else b;
      var bound := if Movable(b, j) then None else origin;
      assert MovesOnce(moves[1..]);
      MovingDigestItemsTakesEffect(next, moves[1..], leadMinutes, bound, now, i);
      assert i != j ==> (MovesTomorrow(next, i) <==> MovesTomorrow(b, i));
      assert forall k :: 0 < k < |moves| ==> moves[k] == moves[1..][k - 1];
    }
  }

  // ---------------------------------------------------------------- what history tells

  /** The kind of entry each request leaves under its origin. */
  function EntryOf(op: Op): EventType {
    match op
    case OpComplete(_) => Completed
    case OpCancel(_) => CancelledEvent
    case OpReopen(_) => Reopened
    case OpReceived(_) => WaitingReceived
    case OpReplied(_) => PersonReplied
    case OpArchive(_) => ArchivedEvent
    case OpReschedule(_, _, _) => Rescheduled
    case OpMoveToBucket(_, _, _) => BucketMoved
    case OpEdit(_, _, _, _, _, _) => Updated
    case OpEditDetails(_) => DetailChanged
    case OpAddNote(_) => NoteAdded
    case OpEditTitle(_, blank) => if blank then ArchivedEvent else Updated
    case OpConvertToTask(_) => Updated
    case OpChangePlanner(_, _) => PlannerChanged
    case OpCreateSubtask(_) => Linked
    case OpAddDecision(_) => Updated
    case OpFollowUp(_, _) => Created
    case OpSnooze(_, _) => ReminderSnoozed
    case OpMoveDigestItems(_, _) => Rescheduled
  }

  /** The record the entry is about: the one named, but the new one for a follow-up and the reminder's for a snooze. */
  predicate IsAbout(b: Board, op: Op, i: nat) {
    match op
    case OpFollowUp(_, _) => i == |b.items|
    case OpSnooze(r, _) => r < |b.rows| && b.rows[r].item == Some(i)
    case OpMoveDigestItems(moves, _) => exists k :: 0 <= k < |moves| && moves[k].0 == i && MovesTomorrow(b, i)
    case OpComplete(j) => i == j
    case OpCancel(j) => i == j
    case OpReopen(j) => i == j
    case OpReceived(j) => i == j
    case OpReplied(j) => i == j
    case OpArchive(j) => i == j
    case OpReschedule(j, _, _) => i == j
    case OpMoveToBucket(j, _, _) => i == j
    case OpEdit(j, _, _, _, _, _) => i == j
    case OpEditDetails(j) => i == j
    case OpAddNote(j) => i == j
    case OpEditTitle(j, _) => i == j
    case OpConvertToTask(j) => i == j
    case OpChangePlanner(j, _) => i == j
    case OpCreateSubtask(j) => i == j
    case OpAddDecision(j) => i == j
  }

  predicate Tells(b: Board, c: Board, q: Request, e: Event) {
    Enters(b, c, e) && e.origin == Some(q.origin) && e.etype == EntryOf(q.op) && IsAbout(b, q.op, e.item)
  }

  lemma EntersAt(b: Board, c: Board, k: nat)
    requires b.events <= c.events && |b.events| <= k < |c.events|
    ensures Enters(b, c, c.events[k])
  {
    assert c.events[|b.events|..][k - |b.events|] == c.events[k];
  }

  /** An entry behind the history, and then perhaps the planner's. */
  lemma LoggedEnters(b: Board, c: Board, i: nat, k: nat, reopened: bool)
    requires i < |c.items| && b.events <= c.events && |b.events| <= k < |c.events|
    ensures Enters(b, SyncPlanner(c, i, reopened), c.events[k])
  {
    PlannerAppends(c, i, reopened);
    EntersAt(b, SyncPlanner(c, i, reopened), k);
  }

  lemma {:induction false} MoveTells(b: Board, moves: seq<(nat, Instant)>, leadMinutes: nat, origin: Origin, now: Instant) returns (e: Event)
    requires exists k :: 0 <= k < |moves| && Movable(b, moves[k].0)
    ensures Enters(b, MoveEach(b, moves, leadMinutes, Some(origin), now), e) && e.origin == Some(origin) && e.etype == Rescheduled
    ensures exists k :: 0 <= k < |moves| && moves[k].0 == e.item && MovesTomorrow(b, e.item)
    decreases |moves|
  {
    hide Synced, Enters;
    MovesTomorrowIsMovable(b, moves[0].0);
    if Movable(b, moves[0].0) {
      var i := moves[0].0;
      var c := Log(Redate(b, i, Dated(b.items[i], moves[0].1), leadMinutes, now, true), i, Rescheduled, Some(origin));
      e := c.events[|b.events|];
      MoveEachAppends(c, moves[1..], leadMinutes, None, now);
      EntersAt(b, MoveEach(c, moves[1..], leadMinutes, None, now), |b.events|);
    } else {
      var k :| 0 <= k < |moves| && Movable(b, moves[k].0);
      assert moves[1..][k - 1] == moves[k];
      e := MoveTells(b, moves[1..], leadMinutes, origin, now);
      var j :| 0 <= j < |moves[1..]| && moves[1..][j].0 == e.item && MovesTomorrow(b, e.item);
      assert moves[j + 1] == moves[1..][j];
    }
  }

  lemma {:induction false} MoveEachAppends(b: Board, moves: seq<(nat, Instant)>, leadMinutes: nat, origin: Option<Origin>, now: Instant)
    ensures b.events <= MoveEach(b, moves, leadMinutes, origin, now).events
    decreases |moves|
  {
    hide Synced;
    if moves != [] {
      if Movable(b, moves[0].0) {
        var i := moves[0].0;
        MoveEachAppends(Log(Redate(b, i, Dated(b.items[i], moves[0].1), leadMinutes, now, true), i, Rescheduled, origin), moves[1..], leadMinutes, None, now);
      } else {
        MoveEachAppends(b, moves[1..], leadMinutes, origin, now);
      }
    }
  }

  lemma TitleTells(b: Board, i: nat, blank: bool, q: Request) returns (e: Event)
    requires q.op == OpEditTitle(i, blank) && Handle(b, q).outcome.Applied?
    ensures Tells(b, Handle(b, q).board, q, e)
  {
    hide ArchiveItem;
    e := Event(i, if blank then ArchivedEvent else Updated, Some(q.origin), []);
    if blank {
      ArchivingTakesEffect(b, i, q.origin, q.now);
    } else {
      EntersAt(b, Log(b, i, Updated, Some(q.origin)), |b.events|);
    }
  }

  /** The requests that write their entry at once. */
  lemma OtherTells(b: Board, q: Request) returns (e: Event)
    requires Handle(b, q).outcome.Applied? && !q.op.OpMoveDigestItems? && !q.op.OpEditTitle?
    requires !q.op.OpComplete? && !q.op.OpReceived? && !q.op.OpCancel? && !q.op.OpReopen? && !q.op.OpReplied? && !q.op.OpArchive?
    ensures Tells(b, Handle(b, q).board, q, e)
  {
    hide SyncPlanner, Synced, CancelAll, Enters;
    var origin, now, c := q.origin, q.now, Handle(b, q).board;
    var k := |b.events| + (if q.op.OpCreateSubtask? || q.op.OpAddDecision? then 1 else 0);
    match q.op
    case OpReschedule(i, date, lead) =>
      LoggedEnters(b, Log(Redate(b, i, Dated(b.items[i], date), lead, now, ReferenceDate(b.items[i]) != Some(date)), i, Rescheduled, Some(origin)), i, k, false);
      e := Event(i, Rescheduled, Some(origin), []);
    case OpMoveToBucket(i, target, lead) => e := BucketTells(b, i, target, lead, q);
    case OpEdit(i, itype, update, at, topic, people) =>
      var item := Edited(b.items[i], itype, update, at);
      var entries := EditEntries(i, topic, people, update && Scheduled(item) != Scheduled(b.items[i]), origin);
      LoggedEnters(b, Redate(b.(events := b.events + entries), i, item, 0, now, false), i, k, false);
      e := Event(i, Updated, Some(origin), []);
    case OpEditDetails(i) =>
      LoggedEnters(b, Log(b, i, DetailChanged, Some(origin)), i, k, false);
      e := Event(i, DetailChanged, Some(origin), []);
    case OpConvertToTask(i) =>
      LoggedEnters(b, Redate(Log(b, i, Updated, Some(origin)), i, b.items[i].(itype := WorkItemType.Task), 0, now, false), i, k, false);
      e := Event(i, Updated, Some(origin), []);
    case OpAddNote(_) => e := EntryAt(b, c, k);
    case OpChangePlanner(_, _) => e := EntryAt(b, c, k);
    case OpCreateSubtask(_) => e := EntryAt(b, c, k);
    case OpAddDecision(_) => e := EntryAt(b, c, k);
    case OpFollowUp(_, _) => e := EntryAt(b, c, k);
    case OpSnooze(_, _) => e := EntryAt(b, c, k);
  }

  lemma EntryAt(b: Board, c: Board, k: nat) returns (e: Event)
    requires b.events <= c.events && |b.events| <= k < |c.events|
    ensures Enters(b, c, e) && e == c.events[k]
  {
    EntersAt(b, c, k);
    e := c.events[k];
  }

  lemma BucketTells(b: Board, i: nat, target: Option<Instant>, leadMinutes: nat, q: Request) returns (e: Event)
    requires q.op == OpMoveToBucket(i, target, leadMinutes) && Handle(b, q).outcome.Applied?
    ensures Tells(b, Handle(b, q).board, q, e)
  {
    hide SyncPlanner, Synced, CancelAll, Enters;
    var item := b.items[i];
    e := Event(i, BucketMoved, Some(q.origin), []);
    if target.None? {
      var inbox := item.(dueAt := None, followUpAt := None, status := WorkItemStatus.Inbox);
      LoggedEnters(b, Log(Close(b, i, inbox, q.now), i, BucketMoved, Some(q.origin)), i, |b.events|, false);
    } else {
      LoggedEnters(b, Log(Redate(b, i, Placed(item, target), leadMinutes, q.now, Scheduled(item) != target), i, BucketMoved, Some(q.origin)), i, |b.events|, false);
    }
  }

  function TimeOf(item: Item): Option<Instant> {
    if item.followUpAt.Some? then item.followUpAt else item.dueAt
  }

  /** A full edit tells in its history what it changed: the topic, the people, and a date that became another. */
  lemma EditEntriesTell(b: Board, i: nat, itype: WorkItemType, update: bool, date: Option<Instant>, topic: bool, people: bool,
                        origin: Origin, now: Instant)
    requires i < |b.items|
    ensures var c := EditItem(b, i, itype, update, date, topic, people, origin, now);
            && Enters(b, c, Event(i, Updated, Some(origin), []))
            && (Enters(b, c, Event(i, TopicChanged, None, [])) <==> topic)
            && (Enters(b, c, Event(i, PersonChanged, None, [])) <==> people)
            && (Enters(b, c, Event(i, Rescheduled, None, [])) <==> update && TimeOf(b.items[i]) != date)
  {
    hide Synced, SyncPlanner, EditEntries, Edited, Scheduled, TimeOf;
    var item := Edited(b.items[i], itype, update, date);
    var dated := update && Scheduled(item) != Scheduled(b.items[i]);
    var entries := EditEntries(i, topic, people, dated, origin);
    var d := Redate(b.(events := b.events + entries), i, item, 0, now, false);
    EntriesTell(i, topic, people, dated, origin);
    EditedTime(b.items[i], itype, date);
    EntersBeforePlanner(b, d, i, entries, Event(i, Updated, Some(origin), []));
    EntersBeforePlanner(b, d, i, entries, Event(i, TopicChanged, None, []));
    EntersBeforePlanner(b, d, i, entries, Event(i, PersonChanged, None, []));
    EntersBeforePlanner(b, d, i, entries, Event(i, Rescheduled, None, []));
  }

  lemma EntriesTell(i: nat, topic: bool, people: bool, dated: bool, origin: Origin)
    ensures var entries := EditEntries(i, topic, people, dated, origin);
            && Event(i, Updated, Some(origin), []) in entries && (Event(i, TopicChanged, None, []) in entries <==> topic)
            && (Event(i, PersonChanged, None, []) in entries <==> people) && (Event(i, Rescheduled, None, []) in entries <==> dated)
  {}

  lemma EditedTime(item: Item, itype: WorkItemType, date: Option<Instant>)
    ensures Scheduled(Edited(item, itype, true, date)) != Scheduled(item) <==> TimeOf(item) != date
  {}

  lemma EntersBeforePlanner(b: Board, d: Board, i: nat, entries: seq<Event>, e: Event)
    requires i < |d.items| && d.events == b.events + entries && e.etype != PlannerChanged
    ensures Enters(b, SyncPlanner(d, i, false), e) <==> e in entries
  {
    hide SyncPlanner;
    PlannerAddsOwn(d, i);
    var c := SyncPlanner(d, i, false);
    assert c.events[|b.events|..] == entries + c.events[|d.events|..];
  }

  lemma PlannerAddsOwn(b: Board, i: nat)
    requires i < |b.items|
    ensures var c := SyncPlanner(b, i, false);
            b.events <= c.events && forall e :: e in c.events[|b.events|..] ==> e.etype == PlannerChanged
  {}

  /** Whatever a request does, the entry under its origin tells which request it was, and on which record. */
  lemma EntryTells(b: Board, q: Request) returns (e: Event)
    requires Forest(b.links) && Handle(b, q).outcome.Applied?
    ensures Tells(b, Handle(b, q).board, q, e)
  {
    hide SyncPlanner, Synced, CancelAll, Forest, Applies, CompleteItem, CancelItem, ReopenItem, Enters;
    var origin, now, c := q.origin, q.now, Handle(b, q).board;
    match q.op
    case OpComplete(i) =>
      var ids := CompletingTakesEffect(b, i, Completed, origin, now);
      e := Event(i, Completed, Some(origin), ids);
    case OpReceived(i) =>
      var ids := CompletingTakesEffect(b, i, WaitingReceived, origin, now);
      e := Event(i, WaitingReceived, Some(origin), ids);
    case OpCancel(i) =>
      CancellingTakesEffect(b, i, origin, now);
      e := Event(i, CancelledEvent, Some(origin), []);
    case OpReopen(i) =>
      ReopeningTakesEffect(b, i, origin);
      e := Event(i, Reopened, Some(origin), []);
    case OpReplied(i) =>
      ReplyTakesEffect(b, i, origin, now);
      e := Event(i, PersonReplied, Some(origin), []);
    case OpArchive(i) =>
      ArchivingTakesEffect(b, i, origin, now);
      e := Event(i, ArchivedEvent, Some(origin), []);
    case OpMoveDigestItems(moves, lead) => e := MoveTells(b, moves, lead, origin, now);
    case OpEditTitle(i, blank) => e := TitleTells(b, i, blank, q);
    case OpReschedule(_, _, _) => e := OtherTells(b, q);
    case OpMoveToBucket(_, _, _) => e := OtherTells(b, q);
    case OpEdit(_, _, _, _, _, _) => e := OtherTells(b, q);
    case OpEditDetails(_) => e := OtherTells(b, q);
    case OpAddNote(_) => e := OtherTells(b, q);
    case OpConvertToTask(_) => e := OtherTells(b, q);
    case OpChangePlanner(_, _) => e := OtherTells(b, q);
    case OpCreateSubtask(_) => e := OtherTells(b, q);
    case OpAddDecision(_) => e := OtherTells(b, q);
    case OpFollowUp(_, _) => e := OtherTells(b, q);
    case OpSnooze(_, _) => e := OtherTells(b, q);
  }
}
