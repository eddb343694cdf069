/** Work items with their history, links and reminders, and the requests that change them. */
module WorkItems {
  import opened Core
  import opened ReminderRows
  import opened ReminderSync
  import opened DedupKeys

  /** What makes a request the same request again: a Telegram update or a client action. */
  datatype Origin = TelegramUpdate(id: nat) | ClientAction(key: nat)

  datatype EventType = Created | Updated | Linked | Completed | Reopened | CancelledEvent | Rescheduled | NoteAdded
    | DetailChanged | TopicChanged | PersonChanged | WaitingReceived | PersonReplied | ReminderSnoozed | ArchivedEvent | PlannerChanged | BucketMoved

  datatype Event = Event(item: nat, etype: EventType, origin: Option<Origin>, completedSubtasks: seq<nat>)

  datatype LinkKind = Subtask | CreatedFrom

  datatype Link = Link(source: nat, target: nat, kind: LinkKind)

  /** The tables of one user. Items, events and reminders are only ever appended, so an index is an identity. */
  datatype Board = Board(items: seq<Item>, links: seq<Link>, events: seq<Event>, rows: seq<Row>)

  // ---------------------------------------------------------------- the steps requests are made of

  function Log(b: Board, i: nat, etype: EventType, origin: Option<Origin>): Board {
    b.(events := b.events + [Event(i, etype, origin, [])])
  }

  predicate EligibleForPlanner(t: WorkItemType) {
    t.Task? || t.FollowUp? || t.Waiting?
  }

  function PlannerSynced(item: Item, reopened: bool): Item {
    if item.planner.NotRequired? then item
    else if !EligibleForPlanner(item.itype) || !OpenStatus(item.status) then item.(planner := NoLongerRelevant)
    else if reopened || item.planner.NoLongerRelevant? then
      item.(planner := if item.transferredAt.Some? then UpdateRequired else NeedsTransfer)
    else if item.planner.Transferred? then item.(planner := UpdateRequired)
    else item
  }

  function SyncPlanner(b: Board, i: nat, reopened: bool): Board
    requires i < |b.items|
  {
    var item := PlannerSynced(b.items[i], reopened);
    if item == b.items[i] then b else Log(b.(items := b.items[i := item]), i, PlannerChanged, None)
  }

  /** An item changes, as when it closes, and all its active reminders are cancelled. */
  function Close(b: Board, i: nat, item: Item, now: Instant): Board
    requires i < |b.items|
  {
    b.(items := b.items[i := item], rows := CancelAll(b.rows, i, now))
  }

  /** An item changes and its managed reminders are reconciled. */
  function Redate(b: Board, i: nat, item: Item, leadMinutes: nat, now: Instant, replaceFinal: bool): Board
    requires i < |b.items|
  {
    b.(items := b.items[i := item], rows := Synced(b.rows, i, item, leadMinutes, now, replaceFinal))
  }

  /** A new item, its `created` event and its first reminders. */
  function AddItem(b: Board, item: Item, origin: Option<Origin>, leadMinutes: nat, now: Instant): Board {
    var b1 := Log(b.(items := b.items + [item]), |b.items|, Created, origin);
    b1.(rows := Synced(b1.rows, |b.items|, item, leadMinutes, now, false))
  }

  function NewItem(itype: WorkItemType, status: WorkItemStatus, dueAt: Option<Instant>, followUpAt: Option<Instant>,
                   completedAt: Option<Instant>): Item
  {
    Item(itype, status, dueAt, followUpAt, completedAt, NotRequired, None)
  }

  function SubtasksIn(links: seq<Link>, parent: nat): seq<nat> {
    if links == [] then []
    else
      (if links[0].kind.Subtask? && links[0].source == parent then [links[0].target] else []) +
      SubtasksIn(links[1..], parent)
  }

  predicate IsSubtask(b: Board, i: nat) {
    exists k :: 0 <= k < |b.links| && b.links[k].kind.Subtask? && b.links[k].target == i
  }

  function Finished(item: Item, now: Instant): Item {
    item.(status := WorkItemStatus.Done, completedAt := Some(now))
  }

  datatype Family = Family(board: Board, ids: seq<nat>)

  function CompleteSubtask(f: Family, child: nat, now: Instant): Family {
    if child < |f.board.items| && OpenStatus(f.board.items[child].status) then
      var b := Log(Close(f.board, child, Finished(f.board.items[child], now), now), child, Completed, None);
      Family(SyncPlanner(b, child, false), f.ids + [child])
    else f
  }

  function CompleteSubtasks(f: Family, children: seq<nat>, now: Instant): Family
    decreases |children|
  {
    if children == [] then f else CompleteSubtasks(CompleteSubtask(f, children[0], now), children[1..], now)
  }

  function CancelSubtask(b: Board, child: nat, now: Instant): Board {
    if child < |b.items| && OpenStatus(b.items[child].status) then
      SyncPlanner(Log(Close(b, child, b.items[child].(status := WorkItemStatus.Cancelled), now), child, CancelledEvent, None),
                  child, false)
    else b
  }

  function CancelSubtasks(b: Board, children: seq<nat>, now: Instant): Board
    decreases |children|
  {
    if children == [] then b else CancelSubtasks(CancelSubtask(b, children[0], now), children[1..], now)
  }

  function ReopenSubtask(b: Board, parent: nat, child: nat): Board {
    if child < |b.items| && child in SubtasksIn(b.links, parent) && b.items[child].status.Done? then
      var item := b.items[child].(status := WorkItemStatus.Active, completedAt := None);
      SyncPlanner(Log(b.(items := b.items[child := item]), child, Reopened, None), child, true)
    else b
  }

  function ReopenSubtasks(b: Board, parent: nat, ids: seq<nat>): Board
    decreases |ids|
  {
    if ids == [] then b else ReopenSubtasks(ReopenSubtask(b, parent, ids[0]), parent, ids[1..])
  }

  /** The subtasks that the item's latest completion closed, as its history tells it. */
  function LastCompletion(events: seq<Event>, i: nat): seq<nat>
    decreases |events|
  {
    if events == [] then []
    else
      var last := events[|events| - 1];
      if last.item == i && (last.etype.Completed? || last.etype.WaitingReceived?) then last.completedSubtasks
      else LastCompletion(events[..|events| - 1], i)
  }

  // ---------------------------------------------------------------- the mutations, once they are allowed

  /** Completing a record, or receiving a waiting one: open subtasks close with it. */
  function CompleteItem(b: Board, i: nat, etype: EventType, origin: Origin, now: Instant): Board
    requires i < |b.items|
  {
    var f := CompleteSubtasks(Family(b, []), SubtasksIn(b.links, i), now);
    if i < |f.board.items| then
      var closed := Close(f.board, i, Finished(f.board.items[i], now), now);
      SyncPlanner(closed.(events := closed.events + [Event(i, etype, Some(origin), f.ids)]), i, false)
    else b
  }

  function ReplyItem(b: Board, i: nat, origin: Origin, now: Instant): Board
    requires i < |b.items|
  {
    SyncPlanner(Log(Close(b, i, Finished(b.items[i], now), now), i, PersonReplied, Some(origin)), i, false)
  }

  function CancelItem(b: Board, i: nat, origin: Origin, now: Instant): Board
    requires i < |b.items|
  {
    var c := CancelSubtasks(b, SubtasksIn(b.links, i), now);
    if i < |c.items| then
      SyncPlanner(Log(Close(c, i, c.items[i].(status := WorkItemStatus.Cancelled), now), i, CancelledEvent, Some(origin)), i, false)
    else b
  }

  function ArchiveItem(b: Board, i: nat, origin: Origin, now: Instant): Board
    requires i < |b.items|
  {
    SyncPlanner(Log(Close(b, i, b.items[i].(status := WorkItemStatus.Archived), now), i, ArchivedEvent, Some(origin)), i, false)
  }

  function ReopenItem(b: Board, i: nat, origin: Origin): Board
    requires i < |b.items|
  {
    var item := b.items[i].(status := if IsSubtask(b, i) then WorkItemStatus.Active else WorkItemStatus.Inbox, completedAt := None);
    var active := b.(items := b.items[i := item]);
    var c := if IsSubtask(b, i) then active else ReopenSubtasks(active, i, LastCompletion(b.events, i));
    if i < |c.items| then SyncPlanner(Log(c, i, Reopened, Some(origin)), i, true) else b
  }

  function Dated(item: Item, date: Instant): Item {
    if item.itype.FollowUp? then item.(followUpAt := Some(date)) else item.(dueAt := Some(date))
  }

  function RescheduleItem(b: Board, i: nat, date: Instant, leadMinutes: nat, origin: Origin, now: Instant): Board
    requires i < |b.items|
  {
    var changed := ReferenceDate(b.items[i]) != Some(date);
    SyncPlanner(Log(Redate(b, i, Dated(b.items[i], date), leadMinutes, now, changed), i, Rescheduled, Some(origin)), i, false)
  }

  function Scheduled(item: Item): Option<Instant> {
    if item.followUpAt.Some? then item.followUpAt else item.dueAt
  }

  function OnlyDated(item: Item, date: Option<Instant>): Item {
    if item.itype.FollowUp? then item.(followUpAt := date, dueAt := None)
    else item.(dueAt := date, followUpAt := None)
  }

  /** A record moved to a dated bucket leaves the inbox. */
  function Placed(item: Item, date: Option<Instant>): Item {
    OnlyDated(item, date).(status := if !item.status.Inbox? then item.status
                                     else if item.itype.Waiting? then WorkItemStatus.Waiting else WorkItemStatus.Planned)
  }

  function MoveToBucket(b: Board, i: nat, date: Option<Instant>, leadMinutes: nat, origin: Origin, now: Instant): Board
    requires i < |b.items|
  {
    var item := b.items[i];
    if date.None? then
      var inbox := item.(dueAt := None, followUpAt := None, status := WorkItemStatus.Inbox);
      SyncPlanner(Log(Close(b, i, inbox, now), i, BucketMoved, Some(origin)), i, false)
    else
      SyncPlanner(Log(Redate(b, i, Placed(item, date), leadMinutes, now, Scheduled(item) != date), i, BucketMoved, Some(origin)), i, false)
  }

  function Edited(item: Item, itype: WorkItemType, update: bool, date: Option<Instant>): Item {
    var typed := item.(itype := itype);
    if update then OnlyDated(typed, date) else typed
  }

  /** The entry that answers the request, and one without origin for each further kind of change. */
  function EditEntries(i: nat, topic: bool, people: bool, date: bool, origin: Origin): seq<Event> {
    [Event(i, Updated, Some(origin), [])]
    + (if topic then [Event(i, TopicChanged, None, [])] else [])
    + (if people then [Event(i, PersonChanged, None, [])] else [])
    + (if date then [Event(i, Rescheduled, None, [])] else [])
  }

  /** A full edit; `topic` and `people` tell whether those change too. */
  function EditItem(b: Board, i: nat, itype: WorkItemType, update: bool, date: Option<Instant>, topic: bool, people: bool,
                    origin: Origin, now: Instant): Board
    requires i < |b.items|
  {
    var item := Edited(b.items[i], itype, update, date);
    var entries := EditEntries(i, topic, people, update && Scheduled(item) != Scheduled(b.items[i]), origin);
    SyncPlanner(Redate(b.(events := b.events + entries), i, item, 0, now, false), i, false)
  }

  function ConvertItem(b: Board, i: nat, origin: Origin, now: Instant): Board
    requires i < |b.items|
  {
    SyncPlanner(Redate(Log(b, i, Updated, Some(origin)), i, b.items[i].(itype := WorkItemType.Task), 0, now, false), i, false)
  }

  function ChangePlanner(b: Board, i: nat, target: PlannerStatus, origin: Origin, now: Instant): Board
    requires i < |b.items|
  {
    var item := b.items[i].(planner := target,
                            transferredAt := if target.Transferred? then Some(now)
                                             else if target.NotRequired? then None else b.items[i].transferredAt);
    Log(b.(items := b.items[i := item]), i, PlannerChanged, Some(origin))
  }

  function CreateSubtask(b: Board, parent: nat, origin: Origin, now: Instant): Board {
    var b1 := AddItem(b, NewItem(WorkItemType.Task, WorkItemStatus.Active, None, None, None), None, 0, now);
    Log(b1.(links := b1.links + [Link(parent, |b.items|, Subtask)]), parent, Linked, Some(origin))
  }

  function AddDecision(b: Board, i: nat, origin: Origin, now: Instant): Board {
    var b1 := AddItem(b, NewItem(WorkItemType.Decision, WorkItemStatus.Done, None, None, Some(now)), None, 0, now);
    Log(b1.(links := b1.links + [Link(|b.items|, i, CreatedFrom)]), i, Updated, Some(origin))
  }

  function FollowUp(b: Board, i: nat, origin: Origin, now: Instant): Board {
    var b1 := AddItem(b, NewItem(WorkItemType.FollowUp, WorkItemStatus.Inbox, None, None, None), Some(origin), 0, now);
    b1.(links := b1.links + [Link(|b.items|, i, CreatedFrom)])
  }

  predicate HasFollowUp(b: Board, i: nat) {
    exists k :: 0 <= k < |b.links| && b.links[k].kind.CreatedFrom? && b.links[k].target == i
                && b.links[k].source < |b.items| && b.items[b.links[k].source].itype.FollowUp?
  }

  function Unlinked(links: seq<Link>, child: nat): seq<Link> {
    if links == [] then []
    else if links[0].kind.Subtask? && links[0].target == child then links[1..]
    else [links[0]] + Unlinked(links[1..], child)
  }

  /** An empty title removes the record: it is archived and leaves its parent. */
  function BlankTitle(b: Board, i: nat, origin: Origin, now: Instant): Board
    requires i < |b.items|
  {
    var c := ArchiveItem(b, i, origin, now);
    c.(links := Unlinked(c.links, i))
  }

  function SnoozeRow(b: Board, r: nat, until: Instant, origin: Origin): Board
    requires r < |b.rows| && b.rows[r].item.Some?
  {
    Log(b.(rows := b.rows[r := Postponed(b.rows[r], until)]), b.rows[r].item.value, ReminderSnoozed, Some(origin))
  }

  /** The evening digest's "move unfinished to tomorrow": the first moved item carries the origin. */
  predicate Movable(b: Board, i: nat) {
    i < |b.items| && OpenStatus(b.items[i].status) && ReferenceDate(b.items[i]).Some?
    && !IsSubtask(b, i) && !b.items[i].itype.Waiting?
  }

  lemma MovableExists(b: Board, i: nat)
    requires Movable(b, i)
    ensures i < |b.items|
  {}

  function MoveEach(b: Board, moves: seq<(nat, Instant)>, leadMinutes: nat, origin: Option<Origin>, now: Instant): Board
    decreases |moves|
  {
    if moves == [] then b
    else if Movable(b, moves[0].0) then
      var i := moves[0].0;
      var c := Log(Redate(b, i, Dated(b.items[i], moves[0].1), leadMinutes, now, true), i, Rescheduled, origin);
      MoveEach(c, moves[1..], leadMinutes, None, now)
    else MoveEach(b, moves[1..], leadMinutes, origin, now)
  }

  // ---------------------------------------------------------------- requests

  datatype Op =
    | OpComplete(i: nat)
    | OpCancel(i: nat)
    | OpReopen(i: nat)
    | OpReceived(i: nat)
    | OpReplied(i: nat)
    | OpArchive(i: nat)
    | OpReschedule(i: nat, date: Instant, leadMinutes: nat)
    | OpMoveToBucket(i: nat, target: Option<Instant>, leadMinutes: nat)
    | OpEdit(i: nat, itype: WorkItemType, update: bool, at: Option<Instant>, topic: bool, people: bool)
    | OpEditDetails(i: nat)
    | OpAddNote(i: nat)
    | OpEditTitle(i: nat, blank: bool)
    | OpConvertToTask(i: nat)
    | OpChangePlanner(i: nat, planner: PlannerStatus)
    | OpCreateSubtask(i: nat)
    | OpAddDecision(i: nat)
    | OpFollowUp(i: nat, requireReceived: bool)
    | OpSnooze(row: nat, until: Instant)
    | OpMoveDigestItems(moves: seq<(nat, Instant)>, leadMinutes: nat)

  /** `stale` is the outcome of comparing the card's revision with the stored one. */
  datatype Request = Request(origin: Origin, stale: bool, now: Instant, op: Op)

  datatype Outcome = Applied | Replayed(event: nat) | Refused | Nothing

  datatype Reply = Reply(board: Board, outcome: Outcome)

  predicate BoundAt(events: seq<Event>, origin: Origin, k: nat) {
    k < |events| && events[k].origin == Some(origin)
  }

  predicate Bound(events: seq<Event>, origin: Origin) {
    exists k :: 0 <= k < |events| && BoundAt(events, origin, k)
  }

  /** The stored event of the origin, or the length of the history. */
  function EventFor(events: seq<Event>, origin: Origin): (k: nat)
    ensures k <= |events|
    ensures k < |events| <==> Bound(events, origin)
    ensures k < |events| ==> BoundAt(events, origin, k)
  {
    if events == [] then 0
    else if events[0].origin == Some(origin) then
      assert BoundAt(events, origin, 0);
      0
    else
      var rest := EventFor(events[1..], origin);
      assert forall k: nat :: BoundAt(events[1..], origin, k) ==> BoundAt(events, origin, k + 1);
      assert forall k: nat :: k > 0 && BoundAt(events, origin, k) ==> BoundAt(events[1..], origin, k - 1);
      1 + rest
  }

  /** Whether the current state allows the request. */
  predicate Allowed(b: Board, op: Op, now: Instant) {
    match op
    case OpComplete(i) => i < |b.items| && OpenStatus(b.items[i].status)
    case OpCancel(i) => i < |b.items| && OpenStatus(b.items[i].status)
    case OpReopen(i) => i < |b.items| && b.items[i].status.Done?
    case OpReceived(i) => i < |b.items| && b.items[i].itype.Waiting? && OpenStatus(b.items[i].status)
    case OpReplied(i) => i < |b.items| && b.items[i].itype.FollowUp? && OpenStatus(b.items[i].status)
    case OpArchive(i) => i < |b.items| && !b.items[i].status.Archived?
    case OpReschedule(i, _, _) => i < |b.items| && OpenStatus(b.items[i].status)
    case OpMoveToBucket(i, _, _) =>
      i < |b.items| && OpenStatus(b.items[i].status) && !b.items[i].itype.Decision? && !b.items[i].itype.AgendaItem?
    case OpEdit(i, _, _, _, _, _) => i < |b.items| && !b.items[i].status.Archived?
    case OpEditDetails(i) => i < |b.items| && !b.items[i].status.Archived?
    case OpAddNote(i) => i < |b.items| && !b.items[i].status.Archived?
    case OpEditTitle(i, _) => i < |b.items| && !b.items[i].status.Archived?
    case OpConvertToTask(i) =>
      i < |b.items| && OpenStatus(b.items[i].status) && (b.items[i].itype.AgendaItem? || b.items[i].itype.Question?)
    case OpChangePlanner(i, planner) =>
      i < |b.items| && EligibleForPlanner(b.items[i].itype) && OpenStatus(b.items[i].status) && b.items[i].planner != planner
    case OpCreateSubtask(i) => i < |b.items| && OpenStatus(b.items[i].status) && !IsSubtask(b, i)
    case OpAddDecision(i) => i < |b.items| && !b.items[i].status.Archived?
    case OpFollowUp(i, requireReceived) =>
      i < |b.items| && b.items[i].itype.Waiting?
      && (b.items[i].status.Done? || (!requireReceived && OpenStatus(b.items[i].status)))
    case OpSnooze(r, until) =>
      && r < |b.rows| && b.rows[r].item.Some? && b.rows[r].item.value < |b.items| && until > now
      && OpenStatus(b.items[b.rows[r].item.value].status) && MaySnooze(b.rows[r])
      && (if b.rows[r].rtype.FollowUp? then b.items[b.rows[r].item.value].followUpAt.Some?
          else b.items[b.rows[r].item.value].dueAt.Some?)
    case OpMoveDigestItems(_, _) => true
  }

  /** Whether an allowed request has anything to do. */
  predicate Effective(b: Board, op: Op) {
    match op
    case OpFollowUp(i, _) => !HasFollowUp(b, i)
    case OpMoveDigestItems(moves, _) => exists k :: 0 <= k < |moves| && Movable(b, moves[k].0)
    case _ => true
  }

  function Mutated(b: Board, origin: Origin, now: Instant, op: Op): Board
    requires Allowed(b, op, now)
  {
    match op
    case OpComplete(i) => CompleteItem(b, i, Completed, origin, now)
    case OpCancel(i) => CancelItem(b, i, origin, now)
    case OpReopen(i) => ReopenItem(b, i, origin)
    case OpReceived(i) => CompleteItem(b, i, WaitingReceived, origin, now)
    case OpReplied(i) => ReplyItem(b, i, origin, now)
    case OpArchive(i) => ArchiveItem(b, i, origin, now)
    case OpReschedule(i, date, lead) => RescheduleItem(b, i, date, lead, origin, now)
    case OpMoveToBucket(i, target, lead) => MoveToBucket(b, i, target, lead, origin, now)
    case OpEdit(i, itype, update, at, topic, people) => EditItem(b, i, itype, update, at, topic, people, origin, now)
    case OpEditDetails(i) => SyncPlanner(Log(b, i, DetailChanged, Some(origin)), i, false)
    case OpAddNote(i) => Log(b, i, NoteAdded, Some(origin))
    case OpEditTitle(i, blank) => if blank then BlankTitle(b, i, origin, now) else Log(b, i, Updated, Some(origin))
    case OpConvertToTask(i) => ConvertItem(b, i, origin, now)
    case OpChangePlanner(i, planner) => ChangePlanner(b, i, planner, origin, now)
    case OpCreateSubtask(i) => CreateSubtask(b, i, origin, now)
    case OpAddDecision(i) => AddDecision(b, i, origin, now)
    case OpFollowUp(i, _) => FollowUp(b, i, origin, now)
    case OpSnooze(r, until) => SnoozeRow(b, r, until, origin)
    case OpMoveDigestItems(moves, lead) => MoveEach(b, moves, lead, Some(origin), now)
  }

  /** One request, as one transaction: a known origin is answered from history, a disallowed request changes nothing. */
  function Handle(b: Board, q: Request): Reply {
    var known := EventFor(b.events, q.origin);
    if known < |b.events| then Reply(b, Replayed(known))
    else if q.stale || !Allowed(b, q.op, q.now) then Reply(b, Refused)
    else if !Effective(b, q.op) then Reply(b, Nothing)
    else Reply(Mutated(b, q.origin, q.now, q.op), Applied)
  }

  /** A capture creates an item, and may set a custom reminder for it. */
  function Capture(b: Board, itype: WorkItemType, status: WorkItemStatus, dueAt: Option<Instant>, followUpAt: Option<Instant>,
                   custom: Option<Instant>, draftItem: nat, leadMinutes: nat, now: Instant): Board
  {
    var item := NewItem(itype, status, dueAt, followUpAt, if status.Done? then Some(now) else None);
    var b1 := AddItem(b, item, None, leadMinutes, now);
    if custom.None? || itype.FollowUp? then b1
    else b1.(rows := WithReminder(b1.rows, NewRow(Some(|b.items|), Custom, Manual, CustomKey(draftItem), custom.value, custom, None, false)))
  }

  function CustomKey(draftItem: nat): string {
    "draft-item:" + Decimal(draftItem) + ":reminder"
  }
}
