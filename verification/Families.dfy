/** Subtasks and their parents, the consistency of every item, and what reopening a completed record restores. */
module Families {
  import opened Core
  import opened ReminderSync
  import opened WorkItems
  import opened WorkItemRuns

  // ---------------------------------------------------------------- a forest of depth one

  predicate LinksExist(links: seq<Link>, count: nat) {
    forall k :: 0 <= k < |links| ==> links[k].source < count && links[k].target < count
  }

  /** Every subtask has one parent, and no subtask is a parent. */
  predicate Forest(links: seq<Link>) {
    && (forall j, k :: 0 <= j < k < |links| && links[j].kind.Subtask? && links[k].kind.Subtask? ==> links[j].target != links[k].target)
    && (forall j, k :: 0 <= j < |links| && 0 <= k < |links| && links[j].kind.Subtask? && links[k].kind.Subtask? ==>
         links[j].target != links[k].source)
  }

  predicate WellLinked(b: Board) {
    LinksExist(b.links, |b.items|) && Forest(b.links)
  }

  lemma {:induction false} UnlinkedIs(links: seq<Link>, child: nat, u: seq<Link>)
    requires u == Unlinked(links, child)
    ensures forall k :: 0 <= k < |u| ==> u[k] in links
    ensures Forest(links) ==> Forest(u)
    decreases |links|
  {
    hide Forest;
    if links != [] && !(links[0].kind.Subtask? && links[0].target == child) {
      var rest := Unlinked(links[1..], child);
      UnlinkedIs(links[1..], child, rest);
      assert links == [links[0]] + links[1..];
      assert forall k :: 0 < k < |u| ==> u[k] == rest[k - 1];
      if Forest(links) {
        TailIsForest(links);
        HeadKeepsForest(links, rest);
      }
    } else if links != [] {
      TailIsForest(links);
    }
  }

  lemma TailIsForest(links: seq<Link>)
    requires links != []
    ensures Forest(links) ==> Forest(links[1..])
  {}

  /** The first link still fits whatever is left of the others. */
  lemma HeadKeepsForest(links: seq<Link>, u: seq<Link>)
    requires Forest(links) && links != [] && Forest(u) && forall k :: 0 <= k < |u| ==> u[k] in links[1..]
    ensures Forest([links[0]] + u)
  {
    var all := [links[0]] + u;
    forall k | 0 <= k < |u| && u[k].kind.Subtask? && links[0].kind.Subtask?
      ensures u[k].target != links[0].target && u[k].target != links[0].source && u[k].source != links[0].target
    {
      var j :| 0 <= j < |links[1..]| && links[1..][j] == u[k];
      assert links[j + 1] == u[k];
    }
    assert forall k :: 0 < k < |all| ==> all[k] == u[k - 1];
  }

  lemma SomeLinksExist(links: seq<Link>, some: seq<Link>, count: nat)
    requires LinksExist(links, count) && forall k :: 0 <= k < |some| ==> some[k] in links
    ensures LinksExist(some, count)
  {
    forall k | 0 <= k < |some| ensures some[k].source < count && some[k].target < count {
      assert some[k] in links;
    }
  }

  lemma ExtendedForest(links: seq<Link>, link: Link, count: nat)
    requires LinksExist(links, count) && Forest(links)
    requires link.source < count && link.target == count
    requires forall k :: 0 <= k < |links| && links[k].kind.Subtask? ==> links[k].target != link.source
    ensures LinksExist(links + [link], count + 1) && Forest(links + [link])
  {}

  lemma OtherLinkKeepsForest(links: seq<Link>, link: Link, count: nat)
    requires LinksExist(links, count) && Forest(links)
    requires link.source < count + 1 && link.target < count + 1 && !link.kind.Subtask?
    ensures LinksExist(links + [link], count + 1) && Forest(links + [link])
  {}

  lemma CascadesKeepLinks(b: Board, i: nat, etype: EventType, origin: Origin, now: Instant)
    requires i < |b.items|
    ensures CompleteItem(b, i, etype, origin, now).links == b.links && |CompleteItem(b, i, etype, origin, now).items| == |b.items|
    ensures CancelItem(b, i, origin, now).links == b.links && |CancelItem(b, i, origin, now).items| == |b.items|
    ensures ReopenItem(b, i, origin).links == b.links && |ReopenItem(b, i, origin).items| == |b.items|
  {
    hide CompleteSubtasks, CancelSubtasks, ReopenSubtasks, CancelAll;
    CompleteSubtasksIs(Family(b, []), SubtasksIn(b.links, i), now);
    CancelSubtasksIs(b, SubtasksIn(b.links, i), now);
    var item := b.items[i].(status := if IsSubtask(b, i) then WorkItemStatus.Active else WorkItemStatus.Inbox, completedAt := None);
    ReopenSubtasksIs(b.(items := b.items[i := item]), i, LastCompletion(b.events, i));
  }

  /** No request ever gives a subtask a second parent or subtasks of its own. */
  lemma HandleKeepsFamilies(b: Board, q: Request)
    requires WellLinked(b)
    ensures WellLinked(Handle(b, q).board)
  {
    hide CompleteItem, CancelItem, ReopenItem, Synced, CancelAll, Forest, LinksExist, Unlinked;
    if Handle(b, q).outcome.Applied? {
      match q.op
      case OpComplete(i) => CascadesKeepLinks(b, i, Completed, q.origin, q.now);
      case OpReceived(i) => CascadesKeepLinks(b, i, WaitingReceived, q.origin, q.now);
      case OpCancel(i) => CascadesKeepLinks(b, i, Completed, q.origin, q.now);
      case OpReopen(i) => CascadesKeepLinks(b, i, Completed, q.origin, q.now);
      case OpEditTitle(i, blank) =>
        UnlinkedIs(b.links, i, Unlinked(b.links, i));
        SomeLinksExist(b.links, Unlinked(b.links, i), |b.items|);
      case OpCreateSubtask(i) =>
        NoSubtaskIs(b, i);
        ExtendedForest(b.links, Link(i, |b.items|, Subtask), |b.items|);
      case OpAddDecision(i) => OtherLinkKeepsForest(b.links, Link(|b.items|, i, CreatedFrom), |b.items|);
      case OpFollowUp(i, _) => OtherLinkKeepsForest(b.links, Link(|b.items|, i, CreatedFrom), |b.items|);
      case OpMoveDigestItems(moves, lead) => MoveEachHistory(b, moves, lead, Some(q.origin), q.now);
      case _ =>
    }
  }

  lemma NoSubtaskIs(b: Board, i: nat)
    requires !IsSubtask(b, i)
    ensures forall k :: 0 <= k < |b.links| && b.links[k].kind.Subtask? ==> b.links[k].target != i
  {}

  lemma CaptureKeepsFamilies(b: Board, itype: WorkItemType, status: WorkItemStatus, dueAt: Option<Instant>, followUpAt: Option<Instant>,
                             custom: Option<Instant>, draftItem: nat, leadMinutes: nat, now: Instant)
    requires WellLinked(b)
    ensures WellLinked(Capture(b, itype, status, dueAt, followUpAt, custom, draftItem, leadMinutes, now))
  {
    hide Synced, Forest, KeyTaken;
  }

  // ---------------------------------------------------------------- every item is consistent

  /** An open item is not completed, a done one is, and only open work that can be planned is on the planner. */
  predicate ItemOk(item: Item) {
    && (OpenStatus(item.status) ==> item.completedAt.None?)
    && (item.status.Done? ==> item.completedAt.Some?)
    && (!OpenStatus(item.status) || !EligibleForPlanner(item.itype) ==> item.planner.NotRequired? || item.planner.NoLongerRelevant?)
  }

  predicate ItemsOk(items: seq<Item>) {
    forall k :: 0 <= k < |items| ==> ItemOk(items[k])
  }

  /** An item that is consistent up to its planner status, which is synchronised next. */
  predicate DatesOk(item: Item) {
    && (OpenStatus(item.status) ==> item.completedAt.None?)
    && (item.status.Done? ==> item.completedAt.Some?)
  }

  lemma SyncPlannerRestores(b: Board, i: nat, reopened: bool)
    requires i < |b.items| && DatesOk(b.items[i])
    requires forall k :: 0 <= k < |b.items| && k != i ==> ItemOk(b.items[k])
    ensures ItemsOk(SyncPlanner(b, i, reopened).items)
  {}

  lemma CascadedItemsOk(b: Board, children: seq<nat>, now: Instant)
    requires ItemsOk(b.items)
    ensures var f := CompleteSubtasks(Family(b, []), children, now); ItemsOk(f.board.items) && |f.board.items| == |b.items|
    ensures var c := CancelSubtasks(b, children, now); ItemsOk(c.items) && |c.items| == |b.items|
  {
    hide CompleteSubtasks, CancelSubtasks, ClosesWith;
    CompleteSubtasksIs(Family(b, []), children, now);
    CancelSubtasksIs(b, children, now);
    forall k | 0 <= k < |b.items|
      ensures ItemOk(CompleteSubtasks(Family(b, []), children, now).board.items[k]) && ItemOk(CancelSubtasks(b, children, now).items[k])
    {
      ClosedItemsOk(b, children, k, now);
    }
  }

  lemma ClosedItemsOk(b: Board, children: seq<nat>, k: nat, now: Instant)
    requires k < |b.items| && ItemOk(b.items[k])
    ensures ItemOk(PlannerSynced(Finished(b.items[k], now), false))
    ensures ClosesWith(b, children, k) ==> ItemOk(CancelledItem(b.items[k]))
  {}

  lemma CompleteKeepsItems(b: Board, i: nat, etype: EventType, origin: Origin, now: Instant)
    requires ItemsOk(b.items) && i < |b.items|
    ensures ItemsOk(CompleteItem(b, i, etype, origin, now).items)
  {
    hide CompleteSubtasks, SyncPlanner, ItemOk, CancelAll;
    var f := CompleteSubtasks(Family(b, []), SubtasksIn(b.links, i), now);
    CascadedItemsOk(b, SubtasksIn(b.links, i), now);
    var closed := Close(f.board, i, Finished(f.board.items[i], now), now);
    SyncPlannerRestores(closed.(events := closed.events + [Event(i, etype, Some(origin), f.ids)]), i, false);
  }

  /** Cancelling a record cancels its open subtasks; here the record is still open unless a link pointed back at it. */
  lemma CancelKeepsItems(b: Board, i: nat, origin: Origin, now: Instant)
    requires ItemsOk(b.items) && i < |b.items| && OpenStatus(b.items[i].status)
    ensures ItemsOk(CancelItem(b, i, origin, now).items)
  {
    hide CancelSubtasks, SyncPlanner, ItemOk, CancelAll;
    var c := CancelSubtasks(b, SubtasksIn(b.links, i), now);
    CascadedItemsOk(b, SubtasksIn(b.links, i), now);
    var closed := Close(c, i, c.items[i].(status := WorkItemStatus.Cancelled), now);
    SyncPlannerRestores(Log(closed, i, CancelledEvent, Some(origin)), i, false);
  }

  lemma ReopenedItemsOk(b: Board, parent: nat, ids: seq<nat>)
    requires parent < |b.items| && DatesOk(b.items[parent]) && forall k :: 0 <= k < |b.items| && k != parent ==> ItemOk(b.items[k])
    ensures var c := ReopenSubtasks(b, parent, ids);
            |c.items| == |b.items| && DatesOk(c.items[parent]) && forall k :: 0 <= k < |b.items| && k != parent ==> ItemOk(c.items[k])
  {
    hide ReopenSubtasks, ReopensWith;
    ReopenSubtasksIs(b, parent, ids);
  }

  lemma ReopenKeepsItems(b: Board, i: nat, origin: Origin)
    requires ItemsOk(b.items) && i < |b.items|
    ensures ItemsOk(ReopenItem(b, i, origin).items)
  {
    hide ReopenSubtasks, SyncPlanner;
    var item := b.items[i].(status := if IsSubtask(b, i) then WorkItemStatus.Active else WorkItemStatus.Inbox, completedAt := None);
    var active := b.(items := b.items[i := item]);
    var c := if IsSubtask(b, i) then active else ReopenSubtasks(active, i, LastCompletion(b.events, i));
    ReopenedItemsOk(active, i, LastCompletion(b.events, i));
    SyncPlannerRestores(Log(c, i, Reopened, Some(origin)), i, true);
  }

  lemma ChangedKeepsItems(b: Board, c: Board, i: nat, item: Item, reopened: bool)
    requires ItemsOk(b.items) && i < |b.items| && c.items == b.items[i := item] && DatesOk(item)
    ensures ItemsOk(SyncPlanner(c, i, reopened).items)
  {
    SyncPlannerRestores(c, i, reopened);
  }

  lemma {:induction false} MoveEachKeepsItems(b: Board, moves: seq<(nat, Instant)>, leadMinutes: nat, origin: Option<Origin>, now: Instant)
    requires ItemsOk(b.items)
    ensures ItemsOk(MoveEach(b, moves, leadMinutes, origin, now).items)
    decreases |moves|
  {
    hide Synced;
    if moves != [] {
      if Movable(b, moves[0].0) {
        var i := moves[0].0;
        var c := Log(Redate(b, i, Dated(b.items[i], moves[0].1), leadMinutes, now, true), i, Rescheduled, origin);
        MoveEachKeepsItems(c, moves[1..], leadMinutes, None, now);
      } else {
        MoveEachKeepsItems(b, moves[1..], leadMinutes, origin, now);
      }
    }
  }

  /** No request ever leaves an item inconsistent. */
  lemma HandleKeepsItems(b: Board, q: Request)
    requires ItemsOk(b.items)
    ensures ItemsOk(Handle(b, q).board.items)
  {
    hide CompleteItem, CancelItem, ReopenItem, Synced, CancelAll, SyncPlanner;
    if Handle(b, q).outcome.Applied? {
      var c, origin, now := Handle(b, q).board, q.origin, q.now;
      match q.op
      case OpComplete(i) => CompleteKeepsItems(b, i, Completed, origin, now);
      case OpReceived(i) => CompleteKeepsItems(b, i, WaitingReceived, origin, now);
      case OpCancel(i) => CancelKeepsItems(b, i, origin, now);
      case OpReopen(i) => ReopenKeepsItems(b, i, origin);
      case OpReplied(i) =>
        ChangedKeepsItems(b, Log(Close(b, i, Finished(b.items[i], now), now), i, PersonReplied, Some(origin)), i, Finished(b.items[i], now), false);
      case OpArchive(i) => ArchiveKeepsItems(b, i, origin, now);
      case OpReschedule(i, date, lead) => DatedKeepsItems(b, q, Dated(b.items[i], date));
      case OpMoveToBucket(i, target, lead) => MoveKeepsItems(b, i, target, lead, origin, now);
      case OpEdit(_, _, _, _, _, _) => EditKeepsItems(b, q);
      case OpEditDetails(i) => ChangedKeepsItems(b, Log(b, i, DetailChanged, Some(origin)), i, b.items[i], false);
      case OpEditTitle(i, blank) => ArchiveKeepsItems(b, i, origin, now);
      case OpConvertToTask(i) => EditKeepsItems(b, q);
      case OpMoveDigestItems(moves, lead) => MoveEachKeepsItems(b, moves, lead, Some(origin), now);
      case _ =>
    }
  }

  lemma ArchiveKeepsItems(b: Board, i: nat, origin: Origin, now: Instant)
    requires ItemsOk(b.items) && i < |b.items|
    ensures ItemsOk(ArchiveItem(b, i, origin, now).items)
  {
    hide SyncPlanner, CancelAll;
    var item := b.items[i].(status := WorkItemStatus.Archived);
    ChangedKeepsItems(b, Log(Close(b, i, item, now), i, ArchivedEvent, Some(origin)), i, item, false);
  }

  lemma DatedKeepsItems(b: Board, q: Request, item: Item)
    requires ItemsOk(b.items) && q.op.OpReschedule? && Allowed(b, q.op, q.now) && item == Dated(b.items[q.op.i], q.op.date)
    ensures ItemsOk(Mutated(b, q.origin, q.now, q.op).items)
  {
    hide SyncPlanner, Synced;
    var changed := ReferenceDate(b.items[q.op.i]) != Some(q.op.date);
    ChangedKeepsItems(b, Log(Redate(b, q.op.i, item, q.op.leadMinutes, q.now, changed), q.op.i, Rescheduled, Some(q.origin)), q.op.i, item, false);
  }

  lemma EditKeepsItems(b: Board, q: Request)
    requires ItemsOk(b.items) && (q.op.OpEdit? || q.op.OpConvertToTask?) && Allowed(b, q.op, q.now)
    ensures ItemsOk(Mutated(b, q.origin, q.now, q.op).items)
  {
    hide SyncPlanner, Synced;
    var i := q.op.i;
    if q.op.OpConvertToTask? {
      var item := b.items[i].(itype := WorkItemType.Task);
      ChangedKeepsItems(b, Redate(Log(b, i, Updated, Some(q.origin)), i, item, 0, q.now, false), i, item, false);
    } else {
      var item := Edited(b.items[i], q.op.itype, q.op.update, q.op.at);
      var dated := q.op.update && Scheduled(item) != Scheduled(b.items[i]);
      var c := b.(events := b.events + EditEntries(i, q.op.topic, q.op.people, dated, q.origin));
      ChangedKeepsItems(b, Redate(c, i, item, 0, q.now, false), i, item, false);
    }
  }

  lemma MoveKeepsItems(b: Board, i: nat, date: Option<Instant>, leadMinutes: nat, origin: Origin, now: Instant)
    requires ItemsOk(b.items) && i < |b.items| && OpenStatus(b.items[i].status)
    ensures ItemsOk(MoveToBucket(b, i, date, leadMinutes, origin, now).items)
  {
    hide SyncPlanner, Synced, CancelAll;
    var item := b.items[i];
    if date.None? {
      var inbox := item.(dueAt := None, followUpAt := None, status := WorkItemStatus.Inbox);
      ChangedKeepsItems(b, Log(Close(b, i, inbox, now), i, BucketMoved, Some(origin)), i, inbox, false);
    } else {
      var moved := Placed(item, date);
      ChangedKeepsItems(b, Log(Redate(b, i, moved, leadMinutes, now, Scheduled(item) != date), i, BucketMoved, Some(origin)), i, moved, false);
    }
  }

  // ---------------------------------------------------------------- undo

  lemma {:induction false} SubtasksAreTargets(links: seq<Link>, parent: nat, child: nat)
    ensures child in SubtasksIn(links, parent) <==> Link(parent, child, Subtask) in links
  {
    if links != [] {
      SubtasksAreTargets(links[1..], parent, child);
      assert links == [links[0]] + links[1..];
    }
  }

  /** In a forest a subtask has no subtasks, and nothing is its own subtask. */
  lemma ForestIsShallow(b: Board, i: nat)
    requires Forest(b.links)
    ensures i !in SubtasksIn(b.links, i)
    ensures IsSubtask(b, i) ==> SubtasksIn(b.links, i) == []
  {
    SubtasksAreTargets(b.links, i, i);
    if IsSubtask(b, i) && SubtasksIn(b.links, i) != [] {
      SubtasksAreTargets(b.links, i, SubtasksIn(b.links, i)[0]);
    }
  }

  lemma LastCompletionSeesThrough(events: seq<Event>, more: seq<Event>, i: nat)
    requires forall k :: 0 <= k < |more| ==> !(more[k].item == i && (more[k].etype.Completed? || more[k].etype.WaitingReceived?))
    ensures LastCompletion(events + more, i) == LastCompletion(events, i)
    decreases |more|
  {
    if more == [] {
      assert events + more == events;
    } else {
      assert (events + more)[..|events + more| - 1] == events + more[..|more| - 1];
      LastCompletionSeesThrough(events, more[..|more| - 1], i);
    }
  }

  /** What completing (or receiving) a record does to every item, and what its history then tells of it. */
  lemma CompleteItemIs(b: Board, i: nat, etype: EventType, origin: Origin, now: Instant)
    requires Forest(b.links) && i < |b.items| && (etype.Completed? || etype.WaitingReceived?)
    ensures var c := CompleteItem(b, i, etype, origin, now);
            && |c.items| == |b.items| && c.links == b.links
            && c.items[i] == PlannerSynced(Finished(b.items[i], now), false)
            && (forall k :: 0 <= k < |b.items| && k != i ==>
                 c.items[k] == if ClosesWith(b, SubtasksIn(b.links, i), k) then PlannerSynced(Finished(b.items[k], now), false) else b.items[k])
            && (forall k: nat :: k in LastCompletion(c.events, i) <==> ClosesWith(b, SubtasksIn(b.links, i), k))
  {
    hide CompleteSubtasks, CancelAll, Forest, SubtasksIn, PlannerSynced;
    ForestIsShallow(b, i);
    var f := CompleteSubtasks(Family(b, []), SubtasksIn(b.links, i), now);
    CompleteSubtasksIs(Family(b, []), SubtasksIn(b.links, i), now);
    var e := Event(i, etype, Some(origin), f.ids);
    var logged := f.board.events + [e];
    assert LastCompletion(logged, i) == f.ids by {
      assert logged[|logged| - 1] == e;
    }
    LastCompletionSeesThrough(logged, [Event(i, PlannerChanged, None, [])], i);
  }

  lemma ReopenItemIs(b: Board, i: nat, origin: Origin)
    requires Forest(b.links) && i < |b.items|
    ensures var d := ReopenItem(b, i, origin);
            && |d.items| == |b.items| && d.links == b.links
            && OpenStatus(d.items[i].status) && d.items[i].completedAt.None?
            && (forall k :: 0 <= k < |b.items| && k != i ==>
                 d.items[k] == if ReopensWith(b, i, LastCompletion(b.events, i), k) then Reactivated(b.items[k]) else b.items[k])
  {
    hide ReopenSubtasks, SubtasksIn, Forest;
    ForestIsShallow(b, i);
    var item := b.items[i].(status := if IsSubtask(b, i) then WorkItemStatus.Active else WorkItemStatus.Inbox, completedAt := None);
    var active := b.(items := b.items[i := item]);
    ReopenSubtasksIs(active, i, LastCompletion(b.events, i));
    assert forall k :: 0 <= k < |b.items| && k != i ==>
      ReopensWith(active, i, LastCompletion(b.events, i), k) == ReopensWith(b, i, LastCompletion(b.events, i), k);
  }

  /** Undo: completing or receiving a record and then reopening it makes active exactly the subtasks that were
      open before, with the dates they had, and leaves every other item as it was. */
  lemma ReopenUndoesComplete(b: Board, i: nat, etype: EventType, o1: Origin, o2: Origin, now: Instant)
    requires Forest(b.links) && i < |b.items| && (etype.Completed? || etype.WaitingReceived?)
    ensures var d := ReopenItem(CompleteItem(b, i, etype, o1, now), i, o2);
            && |d.items| == |b.items| && OpenStatus(d.items[i].status) && d.items[i].completedAt.None?
            && forall k :: 0 <= k < |b.items| && k != i ==>
                 if k in SubtasksIn(b.links, i) && OpenStatus(b.items[k].status) then
                   && d.items[k].status.Active? && d.items[k].completedAt.None?
                   && d.items[k].dueAt == b.items[k].dueAt && d.items[k].followUpAt == b.items[k].followUpAt
                   && d.items[k].itype == b.items[k].itype
                 else d.items[k] == b.items[k]
  {
    hide CompleteItem, ReopenItem, SubtasksIn, Forest, LastCompletion;
    var c := CompleteItem(b, i, etype, o1, now);
    CompleteItemIs(b, i, etype, o1, now);
    ReopenItemIs(c, i, o2);
  }

  /** Reopening after a reply cascades by the record's older completion: it leaves the other items alone exactly
      when that completion closed no subtask that is done now. */
  lemma ReopenAfterReply(b: Board, i: nat, o1: Origin, o2: Origin, now: Instant)
    requires Forest(b.links) && i < |b.items|
    ensures var d := ReopenItem(ReplyItem(b, i, o1, now), i, o2);
            && |d.items| == |b.items|
            && ((forall k :: 0 <= k < |b.items| && k != i ==> d.items[k] == b.items[k])
                <==> (forall k :: 0 <= k < |b.items| && k in SubtasksIn(b.links, i) && k in LastCompletion(b.events, i) ==> !b.items[k].status.Done?))
  {
    hide ReopenItem, SubtasksIn, Forest, LastCompletion, CancelAll;
    var c := ReplyItem(b, i, o1, now);
    var reply, planner := Event(i, PersonReplied, Some(o1), []), Event(i, PlannerChanged, None, []);
    LastCompletionSeesThrough(b.events, [reply], i);
    LastCompletionSeesThrough(b.events + [reply], [planner], i);
    ForestIsShallow(b, i);
    ReopenItemIs(c, i, o2);
    assert forall k :: 0 <= k < |b.items| && k != i ==>
      ReopensWith(c, i, LastCompletion(c.events, i), k) == ReopensWith(b, i, LastCompletion(b.events, i), k);
    assert forall k :: 0 <= k < |b.items| && ReopensWith(b, i, LastCompletion(b.events, i), k) ==> Reactivated(b.items[k]).status.Active?;
  }

  // ---------------------------------------------------------------- the case that fails

  /** The boards of a follow-up with one subtask: both undated, neither on the planner. */
  function Pair(parent: WorkItemStatus, child: WorkItemStatus, now: Instant, events: seq<Event>): Board {
    Board([NewItem(WorkItemType.FollowUp, parent, None, None, if parent.Done? then Some(now) else None),
           NewItem(Task, child, None, None, if child.Done? then Some(now) else None)],
          [Link(0, 1, Subtask)], events, [])
  }

  lemma NoRemindersYet(item: Item, id: nat, now: Instant)
    requires item.dueAt.None? && item.followUpAt.None?
    ensures Synced([], id, item, 0, now, false) == []
  {
    assert Schedules(item, 0, now) == [];
  }

  lemma NotBound(events: seq<Event>, origin: Origin)
    requires forall k :: 0 <= k < |events| ==> events[k].origin != Some(origin)
    ensures EventFor(events, origin) == |events|
  {}

  lemma OnlySubtask()
    ensures SubtasksIn([Link(0, 1, Subtask)], 0) == [1] && SubtasksIn([Link(0, 1, Subtask)], 1) == []
  {
    assert [Link(0, 1, Subtask)][1..] == [];
    assert SubtasksIn([], 0) == [] && SubtasksIn([], 1) == [];
  }

  lemma CapturedPair(o: Origin, now: Instant)
    ensures Handle(CapturedFollowUp(now), Request(o, false, now, OpCreateSubtask(0)))
            == Reply(Pair(Inbox, Active, now, [Event(0, Created, None, []), Event(1, Created, None, []), Event(0, Linked, Some(o), [])]), Applied)
  {
    var b := CapturedFollowUp(now);
    NoRemindersYet(NewItem(WorkItemType.FollowUp, Inbox, None, None, None), 0, now);
    NoRemindersYet(NewItem(Task, WorkItemStatus.Active, None, None, None), 1, now);
    NotBound(b.events, o);
  }

  lemma PairCompleted(events: seq<Event>, o: Origin, now: Instant)
    requires forall k :: 0 <= k < |events| ==> events[k].origin != Some(o)
    ensures Handle(Pair(Inbox, Active, now, events), Request(o, false, now, OpComplete(0)))
         == Reply(Pair(Done, Done, now, events + [Event(1, Completed, None, []), Event(0, Completed, Some(o), [1])]), Applied)
  {
    var b := Pair(Inbox, Active, now, events);
    NotBound(events, o);
    OnlySubtask();
    assert [1][1..] == [] && [] + [1] == [1];
    var f := CompleteSubtask(Family(b, []), 1, now);
    assert CompleteSubtasks(Family(b, []), [1], now) == CompleteSubtasks(f, [], now) == f;
    assert f.board == Pair(Inbox, Done, now, events + [Event(1, Completed, None, [])]);
    assert events + [Event(1, Completed, None, [])] + [Event(0, Completed, Some(o), [1])]
        == events + [Event(1, Completed, None, []), Event(0, Completed, Some(o), [1])];
  }

  lemma {:induction false} PairReopened(events: seq<Event>, o: Origin, now: Instant)
    requires (forall k :: 0 <= k < |events| ==> events[k].origin != Some(o)) && LastCompletion(events, 0) == [1]
    ensures Handle(Pair(Done, Done, now, events), Request(o, false, now, OpReopen(0)))
         == Reply(Pair(Inbox, Active, now, events + [Event(1, Reopened, None, []), Event(0, Reopened, Some(o), [])]), Applied)
  {
    var b := Pair(Done, Done, now, events);
    NotBound(events, o);
    OnlySubtask();
    assert [1][1..] == [];
    var active := b.(items := b.items[0 := b.items[0].(status := Inbox, completedAt := None)]);
    assert ReopenSubtasks(active, 0, [1]) == ReopenSubtasks(ReopenSubtask(active, 0, 1), 0, []) == ReopenSubtask(active, 0, 1);
    assert ReopenSubtask(active, 0, 1) == Pair(Inbox, Active, now, events + [Event(1, Reopened, None, [])]);
    assert events + [Event(1, Reopened, None, [])] + [Event(0, Reopened, Some(o), [])]
        == events + [Event(1, Reopened, None, []), Event(0, Reopened, Some(o), [])];
  }

  lemma ChildCompleted(events: seq<Event>, o: Origin, now: Instant)
    requires forall k :: 0 <= k < |events| ==> events[k].origin != Some(o)
    ensures Handle(Pair(Inbox, Active, now, events), Request(o, false, now, OpComplete(1)))
         == Reply(Pair(Inbox, Done, now, events + [Event(1, Completed, Some(o), [])]), Applied)
  {
    NotBound(events, o);
    OnlySubtask();
  }

  lemma ParentReplied(events: seq<Event>, o: Origin, now: Instant)
    requires forall k :: 0 <= k < |events| ==> events[k].origin != Some(o)
    ensures Handle(Pair(Inbox, Done, now, events), Request(o, false, now, OpReplied(0)))
         == Reply(Pair(Done, Done, now, events + [Event(0, PersonReplied, Some(o), [])]), Applied)
  {
    NotBound(events, o);
  }

  function CapturedFollowUp(now: Instant): Board {
    Capture(Board([], [], [], []), WorkItemType.FollowUp, Inbox, None, None, None, 0, 0, now)
  }

  function Ask(n: nat, now: Instant, op: Op): Request {
    Request(TelegramUpdate(n), false, now, op)
  }

  /** A follow-up gets a subtask, is completed and reopened with it; then the subtask is completed on its own. */
  function FollowUpsDay(now: Instant): seq<Request> {
    [Ask(1, now, OpCreateSubtask(0)), Ask(2, now, OpComplete(0)), Ask(3, now, OpReopen(0)), Ask(4, now, OpComplete(1))]
  }

  const FIRST_EVENTS := [Event(0, Created, None, []), Event(1, Created, None, []), Event(0, Linked, Some(TelegramUpdate(1)), [])]

  const DAY_EVENTS := FIRST_EVENTS
    + [Event(1, Completed, None, []), Event(0, Completed, Some(TelegramUpdate(2)), [1])]
    + [Event(1, Reopened, None, []), Event(0, Reopened, Some(TelegramUpdate(3)), [])]
    + [Event(1, Completed, Some(TelegramUpdate(4)), [])]

  /** Only a later completion of the same record hides an earlier one. */
  lemma CompletionRecorded(events: seq<Event>, origin: Origin, more: seq<Event>)
    requires forall k :: 0 <= k < |more| ==> !(more[k].item == 0 && (more[k].etype.Completed? || more[k].etype.WaitingReceived?))
    ensures LastCompletion(events + [Event(1, Completed, None, []), Event(0, Completed, Some(origin), [1])] + more, 0) == [1]
  {
    var completed := events + [Event(1, Completed, None, []), Event(0, Completed, Some(origin), [1])];
    assert completed[|completed| - 1] == Event(0, Completed, Some(origin), [1]);
    LastCompletionSeesThrough(completed, more, 0);
  }

  lemma TheDay(now: Instant)
    ensures After(CapturedFollowUp(now), FollowUpsDay(now)) == Pair(Inbox, Done, now, DAY_EVENTS)
  {
    hide Capture, Handle;
    var qs := FollowUpsDay(now);
    var e1 := FIRST_EVENTS;
    var e2 := e1 + [Event(1, Completed, None, []), Event(0, Completed, Some(TelegramUpdate(2)), [1])];
    var e3 := e2 + [Event(1, Reopened, None, []), Event(0, Reopened, Some(TelegramUpdate(3)), [])];
    CapturedPair(TelegramUpdate(1), now);
    PairCompleted(e1, TelegramUpdate(2), now);
    CompletionRecorded(e1, TelegramUpdate(2), []);
    assert e2 + [] == e2;
    PairReopened(e2, TelegramUpdate(3), now);
    ChildCompleted(e3, TelegramUpdate(4), now);
    assert After(Pair(Inbox, Active, now, e3), qs[3..]) == Pair(Inbox, Done, now, DAY_EVENTS) by {
      assert qs[3..][1..] == [];
    }
    assert After(Pair(Done, Done, now, e2), qs[2..]) == After(Pair(Inbox, Active, now, e3), qs[3..]) by {
      assert qs[2..][1..] == qs[3..];
    }
    assert After(Pair(Inbox, Active, now, e1), qs[1..]) == After(Pair(Done, Done, now, e2), qs[2..]) by {
      assert qs[1..][1..] == qs[2..];
    }
  }

  /** The failing case, as requests bring it about: after the day above the follow-up is answered and reopened, both
      requests are applied, and the subtask that was completed on its own is active again. */
  lemma ReopenAfterReplyCanRevive(now: Instant)
    ensures var b := After(CapturedFollowUp(now), FollowUpsDay(now));
            var answered := Handle(b, Ask(5, now, OpReplied(0)));
            var reopened := Handle(answered.board, Ask(6, now, OpReopen(0)));
            && answered.outcome.Applied? && reopened.outcome.Applied?
            && |b.items| == |reopened.board.items| == 2
            && b.items[1].status.Done? && reopened.board.items[1].status.Active?
  {
    hide Handle, After, Capture, FollowUpsDay;
    TheDay(now);
    ParentReplied(DAY_EVENTS, TelegramUpdate(5), now);
    var events := DAY_EVENTS + [Event(0, PersonReplied, Some(TelegramUpdate(5)), [])];
    var later := [Event(1, Reopened, None, []), Event(0, Reopened, Some(TelegramUpdate(3)), []),
                  Event(1, Completed, Some(TelegramUpdate(4)), []), Event(0, PersonReplied, Some(TelegramUpdate(5)), [])];
    CompletionRecorded(FIRST_EVENTS, TelegramUpdate(2), later);
    assert events == FIRST_EVENTS + [Event(1, Completed, None, []), Event(0, Completed, Some(TelegramUpdate(2)), [1])] + later;
    PairReopened(events, TelegramUpdate(6), now);
  }
}
