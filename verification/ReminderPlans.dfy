/** Which reminders a work item is to have, and when, spelled out; and that reconciliation brings the table there. */
module ReminderPlans {
  import opened Core
  import opened DedupKeys
  import opened ReminderRows
  import opened ReminderSync

  predicate Closed(item: Item) {
    item.status.Done? || item.status.Cancelled? || item.status.Archived?
  }

  /** A follow-up goes by its own date, everything else by the due date. */
  function DateOf(item: Item): Option<Instant> {
    if item.itype.FollowUp? then item.followUpAt else item.dueAt
  }

  predicate RightType(rtype: ReminderType, itype: WorkItemType) {
    match rtype
    case FollowUp => itype.FollowUp?
    case Waiting => itype.Waiting?
    case Deadline => !itype.FollowUp? && !itype.Waiting?
    case _ => false
  }

  /** An open item with a date gets a reminder at that date. A deadline also gets one so many minutes before, unless that
      time is over. */
  predicate Gets(item: Item, kind: ScheduleKind, leadMinutes: nat, now: Instant) {
    && !Closed(item) && DateOf(item).Some?
    && match kind
       case Exact => true
       case BeforeDeadline =>
         !item.itype.FollowUp? && !item.itype.Waiting? && leadMinutes > 0 && now < item.dueAt.value - leadMinutes * 60_000_000
       case _ => false
  }

  /** The reminder is of this kind, for this item and its date. */
  predicate Serves(row: Row, id: nat, item: Item, kind: ScheduleKind) {
    row.item == Some(id) && row.kind == kind && RightType(row.rtype, item.itype) && row.referenceAt.Some? && row.referenceAt == DateOf(item)
  }

  predicate InPlan(row: Row, id: nat, item: Item, leadMinutes: nat, now: Instant) {
    Serves(row, id, item, row.kind) && Gets(item, row.kind, leadMinutes, now)
  }

  /** A reminder of this kind is there already: an active one, or a final one that may not be replaced. */
  predicate Served(rows: seq<Row>, id: nat, item: Item, kind: ScheduleKind, replaceFinal: bool) {
    exists r :: 0 <= r < |rows| && Serves(rows[r], id, item, kind) && (ActiveStatus(rows[r].status) || !replaceFinal)
  }

  function PlannedTime(kind: ScheduleKind, date: Instant, leadMinutes: nat): Instant {
    if kind.BeforeDeadline? then date - leadMinutes * 60_000_000 else date
  }

  // ---------------------------------------------------------------- plans and schedules

  /** The schedule of a kind, where the item gets one. */
  lemma PlanIsSchedule(item: Item, kind: ScheduleKind, leadMinutes: nat, now: Instant) returns (s: Schedule)
    requires Gets(item, kind, leadMinutes, now)
    ensures s in Schedules(item, leadMinutes, now) && s.kind == kind && RightType(s.rtype, item.itype)
    ensures Some(s.referenceAt) == DateOf(item) && s.scheduledAt == PlannedTime(kind, s.referenceAt, leadMinutes)
  {
    var all := Schedules(item, leadMinutes, now);
    s := if kind.Exact? then all[0] else all[1];
  }

  lemma ScheduleIsPlan(item: Item, s: Schedule, leadMinutes: nat, now: Instant)
    requires s in Schedules(item, leadMinutes, now)
    ensures Gets(item, s.kind, leadMinutes, now) && RightType(s.rtype, item.itype) && !s.kind.Manual?
    ensures Some(s.referenceAt) == DateOf(item) && s.scheduledAt == PlannedTime(s.kind, s.referenceAt, leadMinutes)
  {}

  lemma OneType(a: ReminderType, b: ReminderType, itype: WorkItemType)
    requires RightType(a, itype) && RightType(b, itype)
    ensures a == b
  {}

  /** A stored reminder belongs to a schedule exactly if it serves its kind. */
  lemma CandidateServes(row: Row, id: nat, item: Item, s: Schedule)
    requires KeyFits(row) && !s.kind.Manual? && RightType(s.rtype, item.itype) && Some(s.referenceAt) == DateOf(item)
    ensures Candidate(row, id, s) <==> Serves(row, id, item, s.kind)
  {
    hide MatchesBase, KeyBase;
    if Candidate(row, id, s) {
      CandidateMeans(row, id, s);
    }
    if Serves(row, id, item, s.kind) {
      OneType(row.rtype, s.rtype, item.itype);
      assert PurposeOf(id, s) == Purpose(row.item.value, row.rtype, row.kind, row.referenceAt.value);
    }
  }

  lemma NeedsUnserved(rows: seq<Row>, id: nat, item: Item, s: Schedule, replaceFinal: bool)
    requires TableFits(rows) && !s.kind.Manual? && RightType(s.rtype, item.itype) && Some(s.referenceAt) == DateOf(item)
    ensures Needs(rows, id, s, replaceFinal) <==> !Served(rows, id, item, s.kind, replaceFinal)
  {
    hide KeyFits, Candidate, Serves, ActiveStatus;
    forall r | 0 <= r < |rows| ensures Candidate(rows[r], id, s) <==> Serves(rows[r], id, item, s.kind) {
      CandidateServes(rows[r], id, item, s);
    }
  }

  /** An active managed reminder is cancelled exactly if it is not planned. */
  lemma UnwantedIsUnplanned(row: Row, id: nat, item: Item, leadMinutes: nat, now: Instant)
    requires KeyFits(row)
    ensures Unwanted(row, id, Schedules(item, leadMinutes, now)) <==>
              row.item == Some(id) && !row.kind.Manual? && ActiveStatus(row.status) && !InPlan(row, id, item, leadMinutes, now)
  {
    hide KeyFits, Schedules, Serves, Gets, MatchesBase;
    var schedules := Schedules(item, leadMinutes, now);
    if ManagedOf(row, id) && InPlan(row, id, item, leadMinutes, now) {
      var s := PlanIsSchedule(item, row.kind, leadMinutes, now);
      CandidateServes(row, id, item, s);
      assert MatchesBase(row.key, Base(id, s));
    }
    if ManagedOf(row, id) && Wanted(row, id, schedules) {
      var s :| s in schedules && MatchesBase(row.key, Base(id, s));
      ScheduleIsPlan(item, s, leadMinutes, now);
      CandidateServes(row, id, item, s);
      CandidateMeans(row, id, s);
    }
  }

  // ---------------------------------------------------------------- what reconciliation does

  /** The stored reminders: exactly the active managed ones that are not planned are cancelled. */
  lemma SyncCancelsUnplanned(rows: seq<Row>, id: nat, item: Item, leadMinutes: nat, now: Instant, replaceFinal: bool, r: nat)
    requires TableFits(rows) && r < |rows|
    ensures var row, synced := rows[r], Synced(rows, id, item, leadMinutes, now, replaceFinal);
            && |rows| <= |synced|
            && synced[r] == if row.item == Some(id) && !row.kind.Manual? && ActiveStatus(row.status) && !InPlan(row, id, item, leadMinutes, now)
                            then CancelledRecord(row, now) else row
  {
    hide KeyFits, Schedules, InPlan, Unwanted, Synced;
    SyncedIs(rows, id, item, leadMinutes, now, replaceFinal);
    UnwantedIsUnplanned(rows[r], id, item, leadMinutes, now);
  }

  /** The added reminders: each is pending, planned, and at its time. */
  lemma SyncAddsPlanned(rows: seq<Row>, id: nat, item: Item, leadMinutes: nat, now: Instant, replaceFinal: bool, r: nat)
    requires TableFits(rows) && |rows| <= r < |Synced(rows, id, item, leadMinutes, now, replaceFinal)|
    ensures var row := Synced(rows, id, item, leadMinutes, now, replaceFinal)[r];
            && row.status.Pending? && InPlan(row, id, item, leadMinutes, now) && !row.kind.Manual?
            && row.scheduledAt == PlannedTime(row.kind, row.referenceAt.value, leadMinutes)
            && row.attempts == 0 && row.nextAttemptAt.None? && row.deliveryStartedAt.None?
            && !Served(rows, id, item, row.kind, replaceFinal)
  {
    hide KeyFits, Schedules, Synced, Needs, Served;
    var schedules := Schedules(item, leadMinutes, now);
    SyncedIs(rows, id, item, leadMinutes, now, replaceFinal);
    SchedulesAreProper(item, leadMinutes, now);
    NewRowsAre(rows, id, schedules, replaceFinal);
    var row := NewRows(rows, id, schedules, replaceFinal)[r - |rows|];
    var s :| s in schedules && Needs(rows, id, s, replaceFinal) && row == ScheduledRow(rows, id, s);
    ScheduleIsPlan(item, s, leadMinutes, now);
    NeedsUnserved(rows, id, item, s, replaceFinal);
  }

  /** A kind of reminder is added exactly if the item gets it and none serves it yet, and then once. */
  lemma SyncAddsExactly(rows: seq<Row>, id: nat, item: Item, leadMinutes: nat, now: Instant, replaceFinal: bool, kind: ScheduleKind)
    requires TableFits(rows)
    ensures var synced := Synced(rows, id, item, leadMinutes, now, replaceFinal);
            && ((exists r :: |rows| <= r < |synced| && synced[r].kind == kind) <==>
                 Gets(item, kind, leadMinutes, now) && !Served(rows, id, item, kind, replaceFinal))
            && (forall q, r :: |rows| <= q < r < |synced| ==> synced[q].kind != synced[r].kind)
  {
    hide KeyFits, Schedules, Synced, Needs, Served, Gets, Serves, ScheduledRow;
    var schedules := Schedules(item, leadMinutes, now);
    var synced := Synced(rows, id, item, leadMinutes, now, replaceFinal);
    var added := NewRows(rows, id, schedules, replaceFinal);
    SyncedIs(rows, id, item, leadMinutes, now, replaceFinal);
    SchedulesAreProper(item, leadMinutes, now);
    NewRowsAre(rows, id, schedules, replaceFinal);
    forall r | |rows| <= r < |synced| ensures synced[r] == added[r - |rows|] {}
    if Gets(item, kind, leadMinutes, now) && !Served(rows, id, item, kind, replaceFinal) {
      var s := PlanIsSchedule(item, kind, leadMinutes, now);
      ScheduleIsPlan(item, s, leadMinutes, now);
      NeedsUnserved(rows, id, item, s, replaceFinal);
      var k :| 0 <= k < |added| && added[k] == ScheduledRow(rows, id, s);
      ScheduledRowKind(rows, id, s);
      assert synced[|rows| + k].kind == kind;
    }
    if r :| |rows| <= r < |synced| && synced[r].kind == kind {
      SyncAddsPlanned(rows, id, item, leadMinutes, now, replaceFinal, r);
    }
  }

  /** Afterwards a kind is served exactly by what was there before or was added, and by an active reminder wherever final
      ones may be replaced. */
  lemma SyncServes(rows: seq<Row>, id: nat, item: Item, leadMinutes: nat, now: Instant, replaceFinal: bool, kind: ScheduleKind) returns (r: nat)
    requires TableFits(rows) && Gets(item, kind, leadMinutes, now)
    ensures var synced := Synced(rows, id, item, leadMinutes, now, replaceFinal);
            && r < |synced| && Serves(synced[r], id, item, kind)
            && (ActiveStatus(synced[r].status) || (!replaceFinal && r < |rows| && synced[r] == rows[r]))
  {
    hide KeyFits, Synced, Gets, Serves, ActiveStatus;
    var synced := Synced(rows, id, item, leadMinutes, now, replaceFinal);
    SyncAddsExactly(rows, id, item, leadMinutes, now, replaceFinal, kind);
    if Served(rows, id, item, kind, replaceFinal) {
      r :| 0 <= r < |rows| && Serves(rows[r], id, item, kind) && (ActiveStatus(rows[r].status) || !replaceFinal);
      SyncCancelsUnplanned(rows, id, item, leadMinutes, now, replaceFinal, r);
      ServesIsKind(rows[r], id, item, kind);
    } else {
      r :| |rows| <= r < |synced| && synced[r].kind == kind;
      SyncAddsPlanned(rows, id, item, leadMinutes, now, replaceFinal, r);
      PendingIsActive(synced[r]);
    }
  }

  lemma ServesIsKind(row: Row, id: nat, item: Item, kind: ScheduleKind)
    requires Serves(row, id, item, kind)
    ensures row.kind == kind
  {}

  lemma PendingIsActive(row: Row)
    requires row.status.Pending?
    ensures ActiveStatus(row.status)
  {}
}
