/** Reconciliation of a work item's managed reminders with its current date. */
module ReminderSync {
  import opened Core
  import opened DedupKeys
  import opened ReminderRows

  datatype Schedule = Schedule(rtype: ReminderType, kind: ScheduleKind, scheduledAt: Instant, referenceAt: Instant)

  function Schedules(item: Item, leadMinutes: nat, now: Instant): seq<Schedule> {
    if !OpenStatus(item.status) then []
    else if item.itype.FollowUp? then
      if item.followUpAt.None? then []
      else [Schedule(ReminderType.FollowUp, Exact, item.followUpAt.value, item.followUpAt.value)]
    else if item.dueAt.None? then []
    else if item.itype.Waiting? then
      [Schedule(ReminderType.Waiting, Exact, item.dueAt.value, item.dueAt.value)]
    else
      var due := item.dueAt.value;
      var before := due - leadMinutes * MINUTE;
      [Schedule(ReminderType.Deadline, Exact, due, due)] +
      (if leadMinutes > 0 && before > now then [Schedule(ReminderType.Deadline, BeforeDeadline, before, due)] else [])
  }

  function PurposeOf(item: nat, s: Schedule): Purpose {
    Purpose(item, s.rtype, s.kind, s.referenceAt)
  }

  function Base(item: nat, s: Schedule): string {
    KeyBase(PurposeOf(item, s))
  }

  predicate ManagedOf(row: Row, item: nat) {
    row.item == Some(item) && Managed(row)
  }

  /** A reminder that belongs to the schedule, under any version of its key. */
  predicate Candidate(row: Row, item: nat, s: Schedule) {
    ManagedOf(row, item) && MatchesBase(row.key, Base(item, s))
  }

  predicate Wanted(row: Row, item: nat, schedules: seq<Schedule>) {
    exists s :: s in schedules && MatchesBase(row.key, Base(item, s))
  }

  predicate Unwanted(row: Row, item: nat, schedules: seq<Schedule>) {
    ManagedOf(row, item) && ActiveStatus(row.status) && !Wanted(row, item, schedules)
  }

  function CancelUnwanted(rows: seq<Row>, item: nat, schedules: seq<Schedule>, now: Instant): (r: seq<Row>)
    ensures |r| == |rows|
  {
    seq(|rows|, i requires 0 <= i < |rows| =>
      if Unwanted(rows[i], item, schedules) then CancelledRecord(rows[i], now) else rows[i])
  }

  predicate HasCandidate(rows: seq<Row>, item: nat, s: Schedule) {
    exists i :: 0 <= i < |rows| && Candidate(rows[i], item, s)
  }

  predicate HasActive(rows: seq<Row>, item: nat, s: Schedule) {
    exists i :: 0 <= i < |rows| && Candidate(rows[i], item, s) && ActiveStatus(rows[i].status)
  }

  function CandidateKeys(rows: seq<Row>, item: nat, s: Schedule): set<string> {
    set i | 0 <= i < |rows| && Candidate(rows[i], item, s) :: rows[i].key
  }

  predicate KeyTaken(rows: seq<Row>, key: string) {
    exists i :: 0 <= i < |rows| && rows[i].key == key
  }

  /** A reminder is stored only where its deduplication key is new; otherwise the stored one stands. */
  function WithReminder(rows: seq<Row>, row: Row): seq<Row> {
    if KeyTaken(rows, row.key) then rows else rows + [row]
  }

  function ScheduledRow(rows: seq<Row>, item: nat, s: Schedule): Row {
    NewRow(Some(item), s.rtype, s.kind, NextKey(Base(item, s), CandidateKeys(rows, item, s)),
           s.scheduledAt, Some(s.referenceAt), None, false)
  }

  function EnsureScheduled(rows: seq<Row>, item: nat, s: Schedule, replaceFinal: bool): seq<Row> {
    if HasActive(rows, item, s) || (HasCandidate(rows, item, s) && !replaceFinal) then rows
    else WithReminder(rows, ScheduledRow(rows, item, s))
  }

  function EnsureAll(rows: seq<Row>, item: nat, schedules: seq<Schedule>, replaceFinal: bool): seq<Row>
    decreases |schedules|
  {
    if schedules == [] then rows
    else EnsureAll(EnsureScheduled(rows, item, schedules[0], replaceFinal), item, schedules[1..], replaceFinal)
  }

  /** The whole reconciliation. */
  function Synced(rows: seq<Row>, id: nat, item: Item, leadMinutes: nat, now: Instant, replaceFinal: bool): seq<Row> {
    var schedules := Schedules(item, leadMinutes, now);
    EnsureAll(CancelUnwanted(rows, id, schedules, now), id, schedules, replaceFinal)
  }

  /** Every active reminder of an item, managed or not, is cancelled when the item closes. */
  function CancelAll(rows: seq<Row>, item: nat, now: Instant): (r: seq<Row>)
    ensures |r| == |rows|
  {
    seq(|rows|, i requires 0 <= i < |rows| =>
      if rows[i].item == Some(item) && ActiveStatus(rows[i].status) then CancelledRecord(rows[i], now) else rows[i])
  }

  // ---------------------------------------------------------------- key discipline of the table

  /** A managed reminder's key spells out its own item, type, kind and date; no other key looks managed. */
  predicate KeyFits(row: Row) {
    if Managed(row) then
      && row.item.Some? && row.referenceAt.Some?
      && MatchesBase(row.key, KeyBase(Purpose(row.item.value, row.rtype, row.kind, row.referenceAt.value)))
    else !("work-item:" <= row.key)
  }

  predicate TableFits(rows: seq<Row>) {
    forall i :: 0 <= i < |rows| ==> KeyFits(rows[i])
  }

  predicate DistinctKeys(rows: seq<Row>) {
    forall i, j :: 0 <= i < j < |rows| ==> rows[i].key != rows[j].key
  }

  lemma BaseStartsManaged(key: string, p: Purpose)
    requires MatchesBase(key, KeyBase(p))
    ensures "work-item:" <= key
  {
    assert KeyBase(p)[..|"work-item:"|] == "work-item:";
    assert key[..|"work-item:"|] == "work-item:";
  }

  /** A row matching a schedule's base was made for exactly that item, type, kind and date. */
  lemma CandidateMeans(row: Row, item: nat, s: Schedule)
    requires KeyFits(row) && MatchesBase(row.key, Base(item, s))
    ensures Managed(row) && row.item == Some(item) && row.referenceAt == Some(s.referenceAt)
    ensures row.rtype == s.rtype && row.kind == s.kind
  {
    BaseStartsManaged(row.key, PurposeOf(item, s));
    KeyMatchesOnePurpose(row.key, PurposeOf(item, s),
                         Purpose(row.item.value, row.rtype, row.kind, row.referenceAt.value));
  }

  /** Storing the chosen key never runs into a stored reminder, so reconciliation always inserts. */
  lemma ScheduledRowIsNew(rows: seq<Row>, item: nat, s: Schedule)
    requires TableFits(rows) && !s.kind.Manual?
    ensures !KeyTaken(rows, ScheduledRow(rows, item, s).key)
    ensures KeyFits(ScheduledRow(rows, item, s)) && Candidate(ScheduledRow(rows, item, s), item, s)
    ensures WithReminder(rows, ScheduledRow(rows, item, s)) == rows + [ScheduledRow(rows, item, s)]
  {
    var key := ScheduledRow(rows, item, s).key;
    NextKeyIsFree(Base(item, s), CandidateKeys(rows, item, s));
    forall i | 0 <= i < |rows| && MatchesBase(rows[i].key, Base(item, s))
      ensures rows[i].key in CandidateKeys(rows, item, s)
    {
      CandidateMeans(rows[i], item, s);
    }
  }

  // ---------------------------------------------------------------- convergence

  predicate ProperSchedules(schedules: seq<Schedule>) {
    && (forall k :: 0 <= k < |schedules| ==> !schedules[k].kind.Manual?)
    && (forall j, k :: 0 <= j < k < |schedules| ==> schedules[j].kind != schedules[k].kind)
  }

  /** Whether a schedule needs a new reminder. */
  predicate Needs(rows: seq<Row>, item: nat, s: Schedule, replaceFinal: bool) {
    !HasActive(rows, item, s) && (replaceFinal || !HasCandidate(rows, item, s))
  }

  /** The reminders a reconciliation adds: one for each schedule in need, judged on the rows it started from. */
  function NewRows(rows: seq<Row>, item: nat, schedules: seq<Schedule>, replaceFinal: bool): seq<Row> {
    if schedules == [] then []
    else
      (if Needs(rows, item, schedules[0], replaceFinal) then [ScheduledRow(rows, item, schedules[0])] else []) +
      NewRows(rows, item, schedules[1..], replaceFinal)
  }

  /** Adding a reminder for one schedule leaves what another schedule needs as it was. */
  lemma NeedsElsewhere(rows: seq<Row>, row: Row, item: nat, s: Schedule, t: Schedule, replaceFinal: bool)
    requires KeyFits(row) && Candidate(row, item, s) && s.kind != t.kind
    ensures Needs(rows + [row], item, t, replaceFinal) == Needs(rows, item, t, replaceFinal)
    ensures ScheduledRow(rows + [row], item, t) == ScheduledRow(rows, item, t)
  {
    hide KeyFits, MatchesBase, KeyBase, NextKey, ActiveStatus, NewRow;
    if Candidate(row, item, t) {
      CandidateMeans(row, item, s);
      CandidateMeans(row, item, t);
    }
    AppendedCandidates(rows, row, item, t);
  }

  /** A row that is no candidate changes nothing about the candidates. */
  lemma AppendedCandidates(rows: seq<Row>, row: Row, item: nat, t: Schedule)
    requires !Candidate(row, item, t)
    ensures HasActive(rows + [row], item, t) == HasActive(rows, item, t)
    ensures HasCandidate(rows + [row], item, t) == HasCandidate(rows, item, t)
    ensures CandidateKeys(rows + [row], item, t) == CandidateKeys(rows, item, t)
  {
    hide Candidate, ActiveStatus;
    var r := rows + [row];
    assert forall i :: 0 <= i < |rows| ==> r[i] == rows[i];
    if HasCandidate(rows, item, t) {
      var i :| 0 <= i < |rows| && Candidate(rows[i], item, t);
      assert Candidate(r[i], item, t);
    }
    if HasActive(rows, item, t) {
      var i :| 0 <= i < |rows| && Candidate(rows[i], item, t) && ActiveStatus(rows[i].status);
      assert Candidate(r[i], item, t) && ActiveStatus(r[i].status);
    }
  }

  lemma {:induction false} NewRowsElsewhere(rows: seq<Row>, row: Row, item: nat, s: Schedule,
                                            schedules: seq<Schedule>, replaceFinal: bool)
    requires KeyFits(row) && Candidate(row, item, s)
    requires forall k :: 0 <= k < |schedules| ==> schedules[k].kind != s.kind
    ensures NewRows(rows + [row], item, schedules, replaceFinal) == NewRows(rows, item, schedules, replaceFinal)
  {
    if schedules != [] {
      NeedsElsewhere(rows, row, item, s, schedules[0], replaceFinal);
      NewRowsElsewhere(rows, row, item, s, schedules[1..], replaceFinal);
    }
  }

  lemma EnsureScheduledAppends(rows: seq<Row>, item: nat, s: Schedule, replaceFinal: bool)
    requires TableFits(rows) && !s.kind.Manual?
    ensures var r := EnsureScheduled(rows, item, s, replaceFinal);
            && r == (if Needs(rows, item, s, replaceFinal) then rows + [ScheduledRow(rows, item, s)] else rows)
            && TableFits(r) && (DistinctKeys(rows) ==> DistinctKeys(r))
  {
    ScheduledRowIsNew(rows, item, s);
  }

  /** The loop over schedules appends exactly the reminders in need, in order. */
  lemma {:induction false} EnsureAllAppends(rows: seq<Row>, item: nat, schedules: seq<Schedule>, replaceFinal: bool)
    requires TableFits(rows) && ProperSchedules(schedules)
    ensures EnsureAll(rows, item, schedules, replaceFinal) == rows + NewRows(rows, item, schedules, replaceFinal)
    decreases |schedules|
  {
    hide Needs, ScheduledRow, EnsureScheduled, KeyFits, Candidate;
    if schedules != [] {
      var s, rest := schedules[0], schedules[1..];
      var mid := EnsureScheduled(rows, item, s, replaceFinal);
      EnsureScheduledAppends(rows, item, s, replaceFinal);
      EnsureAllAppends(mid, item, rest, replaceFinal);
      var row, more := ScheduledRow(rows, item, s), NewRows(rows, item, rest, replaceFinal);
      if Needs(rows, item, s, replaceFinal) {
        ScheduledRowIsNew(rows, item, s);
        NewRowsElsewhere(rows, row, item, s, rest, replaceFinal);
        assert mid + more == rows + ([row] + more);
      } else {
        assert [] + more == more;
      }
    }
  }

  lemma {:induction false} EnsureAllKeepsKeys(rows: seq<Row>, item: nat, schedules: seq<Schedule>, replaceFinal: bool)
    requires TableFits(rows) && ProperSchedules(schedules)
    ensures TableFits(EnsureAll(rows, item, schedules, replaceFinal))
    ensures DistinctKeys(rows) ==> DistinctKeys(EnsureAll(rows, item, schedules, replaceFinal))
    decreases |schedules|
  {
    hide Needs, ScheduledRow, EnsureScheduled, KeyFits, DistinctKeys;
    if schedules != [] {
      EnsureScheduledAppends(rows, item, schedules[0], replaceFinal);
      EnsureAllKeepsKeys(EnsureScheduled(rows, item, schedules[0], replaceFinal), item, schedules[1..], replaceFinal);
    }
  }

  /** The row is the one a schedule in need calls for. */
  predicate CalledFor(rows: seq<Row>, item: nat, schedules: seq<Schedule>, replaceFinal: bool, row: Row) {
    exists s :: s in schedules && Needs(rows, item, s, replaceFinal) && row == ScheduledRow(rows, item, s)
  }

  lemma CalledForLater(rows: seq<Row>, item: nat, schedules: seq<Schedule>, replaceFinal: bool, row: Row)
    requires schedules != [] && CalledFor(rows, item, schedules[1..], replaceFinal, row)
    ensures CalledFor(rows, item, schedules, replaceFinal, row)
    ensures row.kind != schedules[0].kind || !ProperSchedules(schedules)
  {
    var s :| s in schedules[1..] && Needs(rows, item, s, replaceFinal) && row == ScheduledRow(rows, item, s);
    var k :| 0 <= k < |schedules[1..]| && schedules[1..][k] == s;
    assert schedules[k + 1] == s;
  }

  lemma ScheduledRowKind(rows: seq<Row>, item: nat, s: Schedule)
    ensures ScheduledRow(rows, item, s).kind == s.kind
  {}

  lemma CalledForNow(rows: seq<Row>, item: nat, schedules: seq<Schedule>, replaceFinal: bool)
    requires schedules != [] && Needs(rows, item, schedules[0], replaceFinal)
    ensures CalledFor(rows, item, schedules, replaceFinal, ScheduledRow(rows, item, schedules[0]))
  {
    hide Needs, ScheduledRow;
  }

  lemma {:induction false} NewRowsAre(rows: seq<Row>, item: nat, schedules: seq<Schedule>, replaceFinal: bool)
    requires ProperSchedules(schedules)
    ensures var added := NewRows(rows, item, schedules, replaceFinal);
            && |added| <= |schedules|
            && (forall k :: 0 <= k < |added| ==> CalledFor(rows, item, schedules, replaceFinal, added[k]))
            && (forall s :: s in schedules && Needs(rows, item, s, replaceFinal) ==> ScheduledRow(rows, item, s) in added)
            && (forall j, k :: 0 <= j < k < |added| ==> added[j].kind != added[k].kind)
    decreases |schedules|
  {
    hide Needs, ScheduledRow, CalledFor;
    if schedules != [] {
      var rest := schedules[1..];
      NewRowsAre(rows, item, rest, replaceFinal);
      var later := NewRows(rows, item, rest, replaceFinal);
      forall k | 0 <= k < |later|
        ensures CalledFor(rows, item, schedules, replaceFinal, later[k]) && later[k].kind != schedules[0].kind
      {
        CalledForLater(rows, item, schedules, replaceFinal, later[k]);
      }
      assert schedules == [schedules[0]] + rest;
      if Needs(rows, item, schedules[0], replaceFinal) {
        ScheduledRowKind(rows, item, schedules[0]);
        CalledForNow(rows, item, schedules, replaceFinal);
        var added := [ScheduledRow(rows, item, schedules[0])] + later;
        assert forall k :: 0 < k < |added| ==> added[k] == later[k - 1];
        assert NewRows(rows, item, schedules, replaceFinal) == added;
      } else {
        assert [] + later == later;
      }
    }
  }

  lemma SchedulesAreProper(item: Item, leadMinutes: nat, now: Instant)
    ensures ProperSchedules(Schedules(item, leadMinutes, now)) && |Schedules(item, leadMinutes, now)| <= 2
    ensures forall s :: s in Schedules(item, leadMinutes, now) ==>
              OpenStatus(item.status) && ReferenceDate(item) == Some(s.referenceAt)
  {}

  lemma CancelUnwantedKeepsKeys(rows: seq<Row>, item: nat, schedules: seq<Schedule>, now: Instant)
    requires TableFits(rows)
    ensures var r := CancelUnwanted(rows, item, schedules, now);
            && TableFits(r) && (DistinctKeys(rows) ==> DistinctKeys(r))
            && (forall i :: 0 <= i < |rows| ==> !Unwanted(r[i], item, schedules))
            && (forall s, replaceFinal :: s in schedules ==>
                 Needs(r, item, s, replaceFinal) == Needs(rows, item, s, replaceFinal))
            && (forall s :: s in schedules ==> ScheduledRow(r, item, s) == ScheduledRow(rows, item, s))
  {
    var r := CancelUnwanted(rows, item, schedules, now);
    forall s | s in schedules
      ensures HasActive(r, item, s) == HasActive(rows, item, s)
      ensures HasCandidate(r, item, s) == HasCandidate(rows, item, s)
      ensures ScheduledRow(r, item, s) == ScheduledRow(rows, item, s)
    {
      assert forall i :: 0 <= i < |rows| ==> Candidate(r[i], item, s) == Candidate(rows[i], item, s);
      assert forall i :: 0 <= i < |rows| && Candidate(rows[i], item, s) ==> r[i] == rows[i];
      assert CandidateKeys(r, item, s) == CandidateKeys(rows, item, s);
    }
  }

  /** What reconciliation does to the table, in closed form. */
  lemma SyncedIs(rows: seq<Row>, id: nat, item: Item, leadMinutes: nat, now: Instant, replaceFinal: bool)
    requires TableFits(rows)
    ensures var schedules := Schedules(item, leadMinutes, now);
            Synced(rows, id, item, leadMinutes, now, replaceFinal)
              == CancelUnwanted(rows, id, schedules, now) + NewRows(rows, id, schedules, replaceFinal)
    ensures TableFits(Synced(rows, id, item, leadMinutes, now, replaceFinal))
    ensures DistinctKeys(rows) ==> DistinctKeys(Synced(rows, id, item, leadMinutes, now, replaceFinal))
  {
    hide Needs, ScheduledRow, KeyFits, Unwanted, Schedules, DistinctKeys;
    var schedules := Schedules(item, leadMinutes, now);
    var kept := CancelUnwanted(rows, id, schedules, now);
    SchedulesAreProper(item, leadMinutes, now);
    CancelUnwantedKeepsKeys(rows, id, schedules, now);
    EnsureAllAppends(kept, id, schedules, replaceFinal);
    EnsureAllKeepsKeys(kept, id, schedules, replaceFinal);
    NewRowsAgree(rows, kept, id, schedules, schedules, replaceFinal);
  }

  lemma {:induction false} NewRowsAgree(rows: seq<Row>, kept: seq<Row>, item: nat, all: seq<Schedule>,
                                        schedules: seq<Schedule>, replaceFinal: bool)
    requires forall s :: s in schedules ==> s in all
    requires forall s :: s in all ==> Needs(kept, item, s, replaceFinal) == Needs(rows, item, s, replaceFinal)
    requires forall s :: s in all ==> ScheduledRow(kept, item, s) == ScheduledRow(rows, item, s)
    ensures NewRows(kept, item, schedules, replaceFinal) == NewRows(rows, item, schedules, replaceFinal)
    decreases |schedules|
  {
    hide Needs, ScheduledRow;
    if schedules != [] {
      NewRowsAgree(rows, kept, item, all, schedules[1..], replaceFinal);
    }
  }

  /** No active managed reminder of the item is left outside its current schedules, and so each one refers
      to the item's current date. */
  lemma SyncLeavesNothingUnwanted(rows: seq<Row>, id: nat, item: Item, leadMinutes: nat, now: Instant,
                                  replaceFinal: bool, i: nat)
    requires TableFits(rows)
    requires i < |Synced(rows, id, item, leadMinutes, now, replaceFinal)|
    requires ManagedOf(Synced(rows, id, item, leadMinutes, now, replaceFinal)[i], id)
    requires ActiveStatus(Synced(rows, id, item, leadMinutes, now, replaceFinal)[i].status)
    ensures var row := Synced(rows, id, item, leadMinutes, now, replaceFinal)[i];
            && Wanted(row, id, Schedules(item, leadMinutes, now))
            && OpenStatus(item.status) && ReferenceDate(item).Some? && row.referenceAt == ReferenceDate(item)
  {
    hide Needs, ScheduledRow, KeyFits, Schedules, Base, MatchesBase;
    var schedules := Schedules(item, leadMinutes, now);
    var row := Synced(rows, id, item, leadMinutes, now, replaceFinal)[i];
    SchedulesAreProper(item, leadMinutes, now);
    SyncedIs(rows, id, item, leadMinutes, now, replaceFinal);
    if i < |rows| {
      CancelUnwantedKeepsKeys(rows, id, schedules, now);
    } else {
      NewRowsAre(rows, id, schedules, replaceFinal);
      var s :| s in schedules && row == ScheduledRow(rows, id, s);
      ScheduledRowIsNew(rows, id, s);
    }
    var s :| s in schedules && MatchesBase(row.key, Base(id, s));
    CandidateMeans(row, id, s);
  }

  /** Afterwards every schedule has an active reminder, unless only final ones exist and may not be replaced. */
  lemma SyncCoversEverySchedule(rows: seq<Row>, id: nat, item: Item, leadMinutes: nat, now: Instant,
                                replaceFinal: bool, s: Schedule)
    requires TableFits(rows) && s in Schedules(item, leadMinutes, now)
    ensures var r := Synced(rows, id, item, leadMinutes, now, replaceFinal);
            && !Needs(r, id, s, replaceFinal)
            && (HasActive(r, id, s) || (!replaceFinal && HasCandidate(rows, id, s) && !HasActive(rows, id, s)))
  {
    hide KeyFits, Schedules, Candidate, ActiveStatus, ScheduledRow, Synced;
    var schedules := Schedules(item, leadMinutes, now);
    var r := Synced(rows, id, item, leadMinutes, now, replaceFinal);
    var kept := CancelUnwanted(rows, id, schedules, now);
    SchedulesAreProper(item, leadMinutes, now);
    SyncedIs(rows, id, item, leadMinutes, now, replaceFinal);
    NewRowsAre(rows, id, schedules, replaceFinal);
    KeptCandidates(rows, id, schedules, now, s);
    if Needs(rows, id, s, replaceFinal) {
      ScheduledRowIsActive(rows, id, s);
      var k :| 0 <= k < |NewRows(rows, id, schedules, replaceFinal)|
               && NewRows(rows, id, schedules, replaceFinal)[k] == ScheduledRow(rows, id, s);
      ActiveAt(r, id, s, |rows| + k);
    } else if HasActive(rows, id, s) {
      var i :| 0 <= i < |rows| && Candidate(rows[i], id, s) && ActiveStatus(rows[i].status);
      assert r[i] == kept[i] == rows[i];
      ActiveAt(r, id, s, i);
    } else {
      var i :| 0 <= i < |rows| && Candidate(rows[i], id, s);
      assert r[i] == kept[i] == rows[i];
    }
  }

  lemma ActiveAt(rows: seq<Row>, id: nat, s: Schedule, i: nat)
    requires i < |rows| && Candidate(rows[i], id, s) && ActiveStatus(rows[i].status)
    ensures HasActive(rows, id, s)
  {}

  lemma ScheduledRowIsActive(rows: seq<Row>, id: nat, s: Schedule)
    requires TableFits(rows) && !s.kind.Manual?
    ensures Candidate(ScheduledRow(rows, id, s), id, s) && ActiveStatus(ScheduledRow(rows, id, s).status)
  {
    ScheduledRowIsNew(rows, id, s);
  }

  lemma KeptCandidates(rows: seq<Row>, id: nat, schedules: seq<Schedule>, now: Instant, s: Schedule)
    requires s in schedules
    ensures forall i :: 0 <= i < |rows| && Candidate(rows[i], id, s) ==>
              CancelUnwanted(rows, id, schedules, now)[i] == rows[i]
  {}

  /** Reconciling twice with the same item, policy and instant is reconciling once. */
  lemma SyncIsIdempotent(rows: seq<Row>, id: nat, item: Item, leadMinutes: nat, now: Instant, replaceFinal: bool)
    requires TableFits(rows)
    ensures var once := Synced(rows, id, item, leadMinutes, now, replaceFinal);
            Synced(once, id, item, leadMinutes, now, replaceFinal) == once
  {
    hide Needs, ScheduledRow, KeyFits, Schedules, Wanted;
    var schedules := Schedules(item, leadMinutes, now);
    var once := Synced(rows, id, item, leadMinutes, now, replaceFinal);
    SyncedIs(rows, id, item, leadMinutes, now, replaceFinal);
    SyncedIs(once, id, item, leadMinutes, now, replaceFinal);
    forall i | 0 <= i < |once| ensures !Unwanted(once[i], id, schedules) {
      if ManagedOf(once[i], id) && ActiveStatus(once[i].status) {
        SyncLeavesNothingUnwanted(rows, id, item, leadMinutes, now, replaceFinal, i);
      }
    }
    assert CancelUnwanted(once, id, schedules, now) == once;
    forall s | s in schedules ensures !Needs(once, id, s, replaceFinal) {
      SyncCoversEverySchedule(rows, id, item, leadMinutes, now, replaceFinal, s);
    }
    NothingNeeded(once, id, schedules, replaceFinal);
  }

  lemma {:induction false} NothingNeeded(rows: seq<Row>, item: nat, schedules: seq<Schedule>, replaceFinal: bool)
    requires forall s :: s in schedules ==> !Needs(rows, item, s, replaceFinal)
    ensures NewRows(rows, item, schedules, replaceFinal) == []
    decreases |schedules|
  {
    hide Needs, ScheduledRow;
    if schedules != [] {
      NothingNeeded(rows, item, schedules[1..], replaceFinal);
    }
  }

  /** Reconciliation never adds a second active reminder to a schedule: the added rows that belong to it are
      at most one, and none where an active one was already there. */
  lemma SyncNeverDoubles(rows: seq<Row>, id: nat, item: Item, leadMinutes: nat, now: Instant, replaceFinal: bool,
                         s: Schedule, i: nat, j: nat)
    requires TableFits(rows)
    requires |rows| <= i < |Synced(rows, id, item, leadMinutes, now, replaceFinal)|
    requires j < |Synced(rows, id, item, leadMinutes, now, replaceFinal)| && j != i
    requires Candidate(Synced(rows, id, item, leadMinutes, now, replaceFinal)[i], id, s)
    requires Candidate(Synced(rows, id, item, leadMinutes, now, replaceFinal)[j], id, s)
    ensures !ActiveStatus(Synced(rows, id, item, leadMinutes, now, replaceFinal)[j].status)
    ensures j < |rows|
  {
    hide KeyFits, Schedules, KeyBase, MatchesBase, NextKey, CandidateKeys;
    var schedules := Schedules(item, leadMinutes, now);
    var r := Synced(rows, id, item, leadMinutes, now, replaceFinal);
    SchedulesAreProper(item, leadMinutes, now);
    SyncedIs(rows, id, item, leadMinutes, now, replaceFinal);
    NewRowsAre(rows, id, schedules, replaceFinal);
    var added := NewRows(rows, id, schedules, replaceFinal);
    var t :| t in schedules && Needs(rows, id, t, replaceFinal) && added[i - |rows|] == ScheduledRow(rows, id, t);
    assert r[i] == added[i - |rows|];
    CandidateMeans(r[i], id, s);
    CandidateMeans(r[j], id, s);
    assert s.rtype == t.rtype && s.kind == t.kind && s.referenceAt == t.referenceAt;
    assert PurposeOf(id, s) == PurposeOf(id, t);
    if j < |rows| {
      assert Candidate(r[j], id, t);
      assert r[j] == rows[j];
    }
  }
}
