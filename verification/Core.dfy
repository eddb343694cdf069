/** Values shared by every module: optional values, instants, and the enumerations of the work item
    and reminder tables. */
module Core {

  datatype Option<+T> = None | Some(value: T)

  /** Microseconds since the Unix epoch, in UTC. */
  type Instant = int

  const SECOND: int := 1_000_000
  const MINUTE: int := 60 * SECOND
  const DAY_SECONDS: int := 86_400

  function Max(a: int, b: int): int {
    if a < b then b else a
  }

  function Min(a: int, b: int): int {
    if a < b then a else b
  }

  /** The value of `first`, or `second` where `first` is absent (SQL's coalesce with two arguments). */
  function Coalesce(first: Option<Instant>, second: Instant): (at: Instant)
  {
    if first.Some? then first.value else second
  }

  /** A comparison with an absent value is never true, as in SQL. */
  predicate AtOrBefore(value: Option<Instant>, bound: Instant) {
    value.Some? && value.value <= bound
  }

  datatype WorkItemType = Task | FollowUp | Waiting | Question | Decision | AgendaItem

  datatype WorkItemStatus = Inbox | Planned | Active | Waiting | Snoozed | Done | Cancelled | Archived

  predicate OpenStatus(status: WorkItemStatus) {
    status.Inbox? || status.Planned? || status.Active? || status.Waiting? || status.Snoozed?
  }

  datatype PlannerStatus = NotRequired | NeedsTransfer | Transferred | UpdateRequired | NoLongerRelevant

  datatype ReminderType = Deadline | FollowUp | Waiting | MorningDigest | EveningDigest | Custom

  datatype ReminderStatus = Pending | Processing | Sent | Snoozed | Cancelled | Failed | DeliveryUnknown

  datatype ScheduleKind = Manual | Exact | BeforeDeadline | Snooze

  /** The part of a work item that its life cycle and its reminders depend on. */
  datatype Item = Item(
    itype: WorkItemType,
    status: WorkItemStatus,
    dueAt: Option<Instant>,
    followUpAt: Option<Instant>,
    completedAt: Option<Instant>,
    planner: PlannerStatus,
    transferredAt: Option<Instant>)

  /** The date a managed reminder of the item must still refer to when it is delivered. */
  function ReferenceDate(item: Item): Option<Instant> {
    if item.itype.FollowUp? then item.followUpAt else item.dueAt
  }

  lemma {:induction false} SubsetSize(a: set<nat>, b: set<nat>)
    requires a <= b
    ensures |a| <= |b|
    decreases |a|
  {
    if a != {} {
      var x :| x in a;
      SubsetSize(a - {x}, b - {x});
    }
  }
}
