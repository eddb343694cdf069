/** One row of the reminder table and every transition a transaction can make on it. */
module ReminderRows {
  import opened Core

  datatype Row = Row(
    item: Option<nat>,
    rtype: ReminderType,
    kind: ScheduleKind,
    key: string,
    scheduledAt: Instant,
    referenceAt: Option<Instant>,
    digestDate: Option<int>,
    legacy: bool, // a digest stored for a workspace other than the canonical one
    status: ReminderStatus,
    snoozedUntil: Option<Instant>,
    nextAttemptAt: Option<Instant>,
    processingStartedAt: Option<Instant>,
    token: Option<nat>,
    deliveryStartedAt: Option<Instant>,
    deliveryUnknownAt: Option<Instant>,
    sentAt: Option<Instant>,
    cancelledAt: Option<Instant>,
    attempts: int)

  /** The worker's delivery settings, fixed for a deployment. */
  datatype Limits = Limits(maxAttempts: int, timeout: int)

  predicate ValidLimits(limits: Limits) {
    limits.maxAttempts > 0 && limits.timeout > 0
  }

  predicate Managed(row: Row) {
    !row.kind.Manual?
  }

  predicate Digest(row: Row) {
    row.rtype.MorningDigest? || row.rtype.EveningDigest?
  }

  predicate ActiveStatus(status: ReminderStatus) {
    status.Pending? || status.Processing? || status.Snoozed?
  }

  /** The test every worker transaction makes before it touches a claimed row. */
  predicate HeldBy(row: Row, token: nat) {
    row.status.Processing? && row.token == Some(token)
  }

  function NewRow(item: Option<nat>, rtype: ReminderType, kind: ScheduleKind, key: string,
                  scheduledAt: Instant, referenceAt: Option<Instant>, digestDate: Option<int>, legacy: bool): Row
  {
    Row(item, rtype, kind, key, scheduledAt, referenceAt, digestDate, legacy, ReminderStatus.Pending,
        None, None, None, None, None, None, None, None, 0)
  }

  // ---------------------------------------------------------------- claiming

  predicate Stale(row: Row, now: Instant, limits: Limits) {
    row.status.Processing? && AtOrBefore(row.processingStartedAt, now - limits.timeout)
  }

  /** The two bulk updates that precede a claim: an expired lease with a started delivery has an unknown
      outcome, and one without attempts left has failed. */
  function Swept(row: Row, now: Instant, limits: Limits): Row {
    if !Stale(row, now, limits) then row
    else if row.deliveryStartedAt.Some? then
      row.(status := ReminderStatus.DeliveryUnknown, deliveryUnknownAt := Some(now),
           processingStartedAt := None, token := None)
    else if row.attempts >= limits.maxAttempts then
      row.(status := ReminderStatus.Failed, processingStartedAt := None, token := None)
    else row
  }

  predicate PendingOrSnoozedDue(row: Row, now: Instant) {
    || (row.status.Pending? && Coalesce(row.nextAttemptAt, row.scheduledAt) <= now)
    || (row.status.Snoozed? && AtOrBefore(row.snoozedUntil, now))
  }

  predicate Claimable(row: Row, now: Instant, limits: Limits) {
    && (PendingOrSnoozedDue(row, now) || (Stale(row, now, limits) && row.deliveryStartedAt.None?))
    && row.attempts < limits.maxAttempts
  }

  function Claimed(row: Row, now: Instant, token: nat): Row {
    row.(status := ReminderStatus.Processing, processingStartedAt := Some(now), token := Some(token),
         attempts := row.attempts + 1)
  }

  // ---------------------------------------------------------------- the worker's transactions

  datatype CheckResult = Lost | Outdated | Deferred(until: Instant) | Deliver

  /** Whether a managed reminder no longer fits its work item. */
  predicate OutOfDate(row: Row, item: Option<Item>, now: Instant) {
    Managed(row) && (
      || item.None?
      || !OpenStatus(item.value.status)
      || ReferenceDate(item.value).None?
      || row.referenceAt != ReferenceDate(item.value)
      || (row.kind.BeforeDeadline? && AtOrBefore(row.referenceAt, now)))
  }

  /** What the worker learns when it re-reads its claim; `quietUntil` is the end of quiet hours that
      contain `now`, if there is one. */
  function Check(row: Row, token: nat, item: Option<Item>, now: Instant, quietUntil: Option<Instant>): CheckResult {
    if !HeldBy(row, token) then Lost
    else if OutOfDate(row, item, now) then Outdated
    else if !Digest(row) && quietUntil.Some? then Deferred(quietUntil.value)
    else Deliver
  }

  function Checked(row: Row, result: CheckResult, now: Instant): Row {
    match result
    case Lost => row
    case Deliver => row
    case Outdated => CancelledRecord(row, now)
    case Deferred(until) =>
      row.(status := ReminderStatus.Snoozed, snoozedUntil := Some(until), nextAttemptAt := None,
           processingStartedAt := None, token := None, attempts := Max(0, row.attempts - 1))
  }

  function Dropped(row: Row, token: nat, now: Instant): Row {
    if !HeldBy(row, token) then row
    else row.(status := ReminderStatus.Cancelled, cancelledAt := Some(now), processingStartedAt := None, token := None)
  }

  predicate MayStart(row: Row, token: nat) {
    HeldBy(row, token) && row.deliveryStartedAt.None?
  }

  function Started(row: Row, token: nat, now: Instant): Row {
    if MayStart(row, token) then row.(deliveryStartedAt := Some(now)) else row
  }

  function Delivered(row: Row, token: nat, now: Instant): Row {
    if !HeldBy(row, token) then row
    else row.(status := ReminderStatus.Sent, sentAt := Some(now), nextAttemptAt := None,
              processingStartedAt := None, token := None, deliveryStartedAt := None, deliveryUnknownAt := None)
  }

  function Rejected(row: Row, token: nat, now: Instant, permanent: bool, retryDelay: int, limits: Limits): Row {
    if !HeldBy(row, token) then row
    else
      var released := row.(processingStartedAt := None, token := None, deliveryStartedAt := None);
      if permanent || row.attempts >= limits.maxAttempts then
        released.(status := ReminderStatus.Failed, nextAttemptAt := None)
      else
        released.(status := ReminderStatus.Pending, nextAttemptAt := Some(now + retryDelay))
  }

  function OutcomeUnknown(row: Row, token: nat, now: Instant): Row {
    if !HeldBy(row, token) then row
    else row.(status := ReminderStatus.DeliveryUnknown, deliveryUnknownAt := Some(now),
              processingStartedAt := None, token := None, nextAttemptAt := None)
  }

  // ---------------------------------------------------------------- everyone else's transactions

  /** What reconciliation and the terminal work item transitions do to an active reminder. */
  function CancelledRecord(row: Row, now: Instant): Row {
    row.(status := ReminderStatus.Cancelled, cancelledAt := Some(now), nextAttemptAt := None,
         snoozedUntil := None, processingStartedAt := None, token := None)
  }

  predicate MayCancel(row: Row) {
    row.status.Pending? || row.status.Snoozed? || row.status.Failed?
  }

  function CancelledByUser(row: Row, now: Instant): Row {
    if !MayCancel(row) then row
    else row.(status := ReminderStatus.Cancelled, cancelledAt := Some(now), nextAttemptAt := None,
              processingStartedAt := None, token := None)
  }

  function Retried(row: Row, now: Instant): Row {
    if !row.status.DeliveryUnknown? then row
    else row.(status := ReminderStatus.Pending, scheduledAt := now, nextAttemptAt := Some(now), attempts := 0,
              deliveryStartedAt := None, deliveryUnknownAt := None)
  }

  predicate MaySnooze(row: Row) {
    && (row.rtype.Deadline? || row.rtype.FollowUp? || row.rtype.Waiting?)
    && !row.status.Cancelled? && !row.status.Failed?
  }

  function Postponed(row: Row, until: Instant): Row {
    row.(status := ReminderStatus.Snoozed, snoozedUntil := Some(until), nextAttemptAt := None,
         processingStartedAt := None, token := None, cancelledAt := None, attempts := 0)
  }

  /** A due reminder that falls into quiet hours is put off until they end. */
  function DeferredForQuiet(row: Row, until: Instant): Row {
    row.(status := ReminderStatus.Snoozed, snoozedUntil := Some(until), nextAttemptAt := None,
         processingStartedAt := None, token := None)
  }

  predicate QuietCandidate(row: Row, now: Instant) {
    PendingOrSnoozedDue(row, now) && !Digest(row)
  }

  /** The conflict branch of the daily digest upsert. */
  function DigestRefreshed(row: Row, key: string, scheduledAt: Instant): Row {
    var moved := row.(scheduledAt := scheduledAt, key := key);
    if row.sentAt.Some? then moved else moved.(status := ReminderStatus.Pending, cancelledAt := None)
  }

  predicate LegacyDigestDue(row: Row, rtype: ReminderType, date: int) {
    row.legacy && row.rtype == rtype && row.digestDate == Some(date) && row.sentAt.None? && MayCancel(row)
  }

  function LegacyDigestCancelled(row: Row, rtype: ReminderType, date: int, now: Instant): Row {
    if LegacyDigestDue(row, rtype, date) then CancelledRecord(row, now) else row
  }

  function FutureDigestCancelled(row: Row, rtype: ReminderType, now: Instant): Row {
    if row.rtype == rtype && (row.status.Pending? || row.status.Snoozed?) && row.sentAt.None? then
      row.(status := ReminderStatus.Cancelled, cancelledAt := Some(now), snoozedUntil := None)
    else row
  }
}
