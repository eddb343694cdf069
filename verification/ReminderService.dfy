/** The reminder table as its transactions change it: rows are objects whose fields are assigned in place. */
module ReminderService {
  import opened Core
  import opened DedupKeys
  import opened ReminderRows
  import opened ReminderSync

  class Reminder {
    const item: Option<nat>
    const rtype: ReminderType
    const kind: ScheduleKind
    const digestDate: Option<int>
    const legacy: bool
    const referenceAt: Option<Instant>
    var key: string
    var scheduledAt: Instant
    var status: ReminderStatus
    var snoozedUntil: Option<Instant>
    var nextAttemptAt: Option<Instant>
    var processingStartedAt: Option<Instant>
    var token: Option<nat>
    var deliveryStartedAt: Option<Instant>
    var deliveryUnknownAt: Option<Instant>
    var sentAt: Option<Instant>
    var cancelledAt: Option<Instant>
    var attempts: int

    function Stored(): Row
      reads this
    {
      Row(item, rtype, kind, key, scheduledAt, referenceAt, digestDate, legacy, status, snoozedUntil, nextAttemptAt,
          processingStartedAt, token, deliveryStartedAt, deliveryUnknownAt, sentAt, cancelledAt, attempts)
    }

    constructor (item: Option<nat>, rtype: ReminderType, kind: ScheduleKind, key: string, scheduledAt: Instant,
                 referenceAt: Option<Instant>, digestDate: Option<int>, legacy: bool)
      ensures Stored() == NewRow(item, rtype, kind, key, scheduledAt, referenceAt, digestDate, legacy)
    {
      this.item, this.rtype, this.kind, this.key := item, rtype, kind, key;
      this.scheduledAt, this.referenceAt := scheduledAt, referenceAt;
      this.digestDate, this.legacy := digestDate, legacy;
      status, attempts := ReminderStatus.Pending, 0;
      snoozedUntil, nextAttemptAt, processingStartedAt, token := None, None, None, None;
      deliveryStartedAt, deliveryUnknownAt, sentAt, cancelledAt := None, None, None, None;
    }

    method CancelRecord(now: Instant)
      modifies this
      ensures Stored() == CancelledRecord(old(Stored()), now)
    {
      status := ReminderStatus.Cancelled;
      cancelledAt := Some(now);
      nextAttemptAt := None;
      snoozedUntil := None;
      processingStartedAt := None;
      token := None;
    }

    method Cancel(now: Instant) returns (allowed: bool)
      modifies this
      ensures allowed == (old(status).Cancelled? || MayCancel(old(Stored())))
      ensures Stored() == CancelledByUser(old(Stored()), now)
    {
      if status.Cancelled? {
        return true;
      }
      if !(status.Pending? || status.Snoozed? || status.Failed?) {
        return false;
      }
      status := ReminderStatus.Cancelled;
      cancelledAt := Some(now);
      nextAttemptAt := None;
      processingStartedAt := None;
      token := None;
      return true;
    }

    /** The first two statements of a claim, as they act on one row. */
    method Sweep(now: Instant, limits: Limits)
      requires ValidLimits(limits)
      modifies this
      ensures Stored() == Swept(old(Stored()), now, limits)
    {
      var staleBefore := now - limits.timeout;
      if status.Processing? && AtOrBefore(processingStartedAt, staleBefore) && deliveryStartedAt.Some? {
        status := ReminderStatus.DeliveryUnknown;
        deliveryUnknownAt := Some(now);
        processingStartedAt := None;
        token := None;
      }
      if status.Processing? && AtOrBefore(processingStartedAt, staleBefore) && attempts >= limits.maxAttempts {
        status := ReminderStatus.Failed;
        processingStartedAt := None;
        token := None;
      }
    }

    method Claim(now: Instant, newToken: nat)
      modifies this
      ensures Stored() == Claimed(old(Stored()), now, newToken)
    {
      status := ReminderStatus.Processing;
      processingStartedAt := Some(now);
      token := Some(newToken);
      attempts := attempts + 1;
    }

    /** Re-reads a claim just before delivery; a `Deliver` answer is the only one that lets the worker go on. */
    method GetClaimedDelivery(claim: nat, workItem: Option<Item>, now: Instant, quietUntil: Option<Instant>)
      returns (result: CheckResult)
      modifies this
      ensures result == Check(old(Stored()), claim, workItem, now, quietUntil)
      ensures Stored() == Checked(old(Stored()), result, now)
    {
      if !(status.Processing? && token == Some(claim)) {
        return Lost;
      }
      if !kind.Manual? {
        var stale := true;
        if workItem.Some? && OpenStatus(workItem.value.status) {
          var reference := if workItem.value.itype.FollowUp? then workItem.value.followUpAt else workItem.value.dueAt;
          stale := reference.None? || referenceAt != reference
                   || (kind.BeforeDeadline? && AtOrBefore(referenceAt, now));
        }
        if stale {
          CancelRecord(now);
          return Outdated;
        }
      }
      if !(rtype.MorningDigest? || rtype.EveningDigest?) && quietUntil.Some? {
        status := ReminderStatus.Snoozed;
        snoozedUntil := quietUntil;
        nextAttemptAt := None;
        processingStartedAt := None;
        token := None;
        attempts := Max(0, attempts - 1);
        return Deferred(quietUntil.value);
      }
      return Deliver;
    }

    method CancelClaimed(claim: nat, now: Instant) returns (done: bool)
      modifies this
      ensures done == HeldBy(old(Stored()), claim)
      ensures Stored() == Dropped(old(Stored()), claim, now)
    {
      if !(status.Processing? && token == Some(claim)) {
        return false;
      }
      status := ReminderStatus.Cancelled;
      cancelledAt := Some(now);
      processingStartedAt := None;
      token := None;
      return true;
    }

    method MarkStarted(claim: nat, now: Instant) returns (started: bool)
      modifies this
      ensures started == MayStart(old(Stored()), claim)
      ensures Stored() == Started(old(Stored()), claim, now)
    {
      if !(status.Processing? && token == Some(claim) && deliveryStartedAt.None?) {
        return false;
      }
      deliveryStartedAt := Some(now);
      return true;
    }

    method MarkSent(claim: nat, now: Instant) returns (marked: bool)
      modifies this
      ensures marked == HeldBy(old(Stored()), claim)
      ensures Stored() == Delivered(old(Stored()), claim, now)
    {
      if !(status.Processing? && token == Some(claim)) {
        return false;
      }
      status := ReminderStatus.Sent;
      sentAt := Some(now);
      nextAttemptAt := None;
      processingStartedAt := None;
      token := None;
      deliveryStartedAt := None;
      deliveryUnknownAt := None;
      return true;
    }

    method MarkFailure(claim: nat, now: Instant, permanent: bool, retryDelay: int, limits: Limits) returns (marked: bool)
      requires ValidLimits(limits) && retryDelay > 0
      modifies this
      ensures marked == HeldBy(old(Stored()), claim)
      ensures Stored() == Rejected(old(Stored()), claim, now, permanent, retryDelay, limits)
    {
      if !(status.Processing? && token == Some(claim)) {
        return false;
      }
      processingStartedAt := None;
      token := None;
      deliveryStartedAt := None;
      if permanent || attempts >= limits.maxAttempts {
        status := ReminderStatus.Failed;
        nextAttemptAt := None;
      } else {
        status := ReminderStatus.Pending;
        nextAttemptAt := Some(now + retryDelay);
      }
      return true;
    }

    method MarkUnknown(claim: nat, now: Instant) returns (marked: bool)
      modifies this
      ensures marked == HeldBy(old(Stored()), claim)
      ensures Stored() == OutcomeUnknown(old(Stored()), claim, now)
    {
      if !(status.Processing? && token == Some(claim)) {
        return false;
      }
      status := ReminderStatus.DeliveryUnknown;
      deliveryUnknownAt := Some(now);
      processingStartedAt := None;
      token := None;
      nextAttemptAt := None;
      return true;
    }

    method RetryUnknown(now: Instant) returns (retried: bool)
      modifies this
      ensures retried == old(status).DeliveryUnknown?
      ensures Stored() == Retried(old(Stored()), now)
    {
      if !status.DeliveryUnknown? {
        return false;
      }
      status := ReminderStatus.Pending;
      scheduledAt := now;
      nextAttemptAt := Some(now);
      attempts := 0;
      deliveryStartedAt := None;
      deliveryUnknownAt := None;
      return true;
    }

    method Snooze(until: Instant)
      modifies this
      ensures Stored() == Postponed(old(Stored()), until)
    {
      status := ReminderStatus.Snoozed;
      snoozedUntil := Some(until);
      nextAttemptAt := None;
      processingStartedAt := None;
      token := None;
      cancelledAt := None;
      attempts := 0;
    }

    method DeferForQuiet(until: Instant)
      modifies this
      ensures Stored() == DeferredForQuiet(old(Stored()), until)
    {
      status := ReminderStatus.Snoozed;
      snoozedUntil := Some(until);
      nextAttemptAt := None;
      processingStartedAt := None;
      token := None;
    }

    method CancelFuture(digestType: ReminderType, now: Instant)
      modifies this
      ensures Stored() == FutureDigestCancelled(old(Stored()), digestType, now)
    {
      if rtype == digestType && (status.Pending? || status.Snoozed?) && sentAt.None? {
        status := ReminderStatus.Cancelled;
        cancelledAt := Some(now);
        snoozedUntil := None;
      }
    }

    method RefreshDigest(newKey: string, at: Instant)
      modifies this
      ensures Stored() == DigestRefreshed(old(Stored()), newKey, at)
    {
      scheduledAt := at;
      key := newKey;
      if sentAt.None? {
        status := ReminderStatus.Pending;
        cancelledAt := None;
      }
    }
  }

  // ---------------------------------------------------------------- the statements on many rows, as values

  /** The rows after a claim and the tokens it handed out: `order` lists the rows in the order the query
      returned them, without the locked ones; fresh tokens are numbered from `nextToken`. */
  datatype Batch = Batch(rows: seq<Row>, nextToken: nat, claims: seq<(nat, nat)>)

  function SweptAll(rows: seq<Row>, now: Instant, limits: Limits): (r: seq<Row>)
    ensures |r| == |rows|
  {
    seq(|rows|, i requires 0 <= i < |rows| => Swept(rows[i], now, limits))
  }

  function ClaimOne(batch: Batch, id: nat, now: Instant, limit: nat, limits: Limits): Batch {
    if id < |batch.rows| && |batch.claims| < limit && Claimable(batch.rows[id], now, limits) then
      Batch(batch.rows[id := Claimed(batch.rows[id], now, batch.nextToken)], batch.nextToken + 1,
            batch.claims + [(id, batch.nextToken)])
    else batch
  }

  function ClaimEach(batch: Batch, order: seq<nat>, now: Instant, limit: nat, limits: Limits): Batch
    decreases |order|
  {
    if order == [] then batch
    else ClaimEach(ClaimOne(batch, order[0], now, limit, limits), order[1..], now, limit, limits)
  }

  function ClaimDue(rows: seq<Row>, nextToken: nat, order: seq<nat>, now: Instant, limit: nat, limits: Limits): Batch {
    ClaimEach(Batch(SweptAll(rows, now, limits), nextToken, []), order, now, limit, limits)
  }

  /** Each row chosen for deferral that is due and no digest sleeps until its user's quiet hours end. */
  function DeferDue(rows: seq<Row>, quiet: map<nat, Instant>, now: Instant): (r: seq<Row>)
    ensures |r| == |rows|
  {
    seq(|rows|, i requires 0 <= i < |rows| =>
      if i in quiet && QuietCandidate(rows[i], now) then DeferredForQuiet(rows[i], quiet[i]) else rows[i])
  }

  predicate IsDigestOf(row: Row, rtype: ReminderType, date: int) {
    row.rtype == rtype && row.digestDate == Some(date) && !row.legacy
  }

  /** The position of the stored canonical digest of the day, or the table's length. */
  function DigestAt(rows: seq<Row>, rtype: ReminderType, date: int): (i: nat)
    ensures i <= |rows|
    ensures i < |rows| ==> IsDigestOf(rows[i], rtype, date)
    ensures forall k :: 0 <= k < i ==> !IsDigestOf(rows[k], rtype, date)
  {
    if rows == [] || IsDigestOf(rows[0], rtype, date) then 0 else 1 + DigestAt(rows[1..], rtype, date)
  }

  function UpsertDigest(rows: seq<Row>, rtype: ReminderType, date: int, key: string, at: Instant): seq<Row> {
    var i := DigestAt(rows, rtype, date);
    if i < |rows| then rows[i := DigestRefreshed(rows[i], key, at)]
    else rows + [NewRow(None, rtype, Manual, key, at, None, Some(date), false)]
  }

  function CancelLegacyDigests(rows: seq<Row>, rtype: ReminderType, date: int, now: Instant): (r: seq<Row>)
    ensures |r| == |rows|
  {
    seq(|rows|, i requires 0 <= i < |rows| => LegacyDigestCancelled(rows[i], rtype, date, now))
  }

  function EnsureDigest(rows: seq<Row>, rtype: ReminderType, date: int, key: string, at: Instant, now: Instant): seq<Row> {
    CancelLegacyDigests(UpsertDigest(rows, rtype, date, key, at), rtype, date, now)
  }

  function CancelFutureDigests(rows: seq<Row>, rtype: ReminderType, now: Instant): (r: seq<Row>)
    ensures |r| == |rows|
  {
    seq(|rows|, i requires 0 <= i < |rows| => FutureDigestCancelled(rows[i], rtype, now))
  }

  lemma KeyFound(rows: seq<Row>, index: nat, key: string)
    requires index < |rows| && rows[index].key == key
    ensures KeyTaken(rows, key)
  {}

  lemma NewRowKey(item: Option<nat>, rtype: ReminderType, kind: ScheduleKind, key: string, at: Instant, referenceAt: Option<Instant>)
    ensures NewRow(item, rtype, kind, key, at, referenceAt, None, false).key == key
  {}

  class ReminderTable {
    var rows: seq<Reminder>
    var nextToken: nat

    ghost predicate Valid()
      reads this
    {
      forall i, j :: 0 <= i < j < |rows| ==> rows[i] != rows[j]
    }

    function Contents(): (r: seq<Row>)
      reads this, rows
      ensures |r| == |rows|
    {
      seq(|rows|, i requires 0 <= i < |rows| reads this, rows => rows[i].Stored())
    }

    constructor ()
      ensures Valid() && Contents() == [] && nextToken == 0
    {
      rows, nextToken := [], 0;
    }

    /** The position of the reminder stored under a key, or the table's length. */
    method FindKey(key: string) returns (index: nat)
      ensures index <= |rows|
      ensures index < |rows| ==> Contents()[index].key == key
      ensures index == |rows| ==> !KeyTaken(Contents(), key)
    {
      index := 0;
      while index < |rows| && rows[index].key != key
        invariant index <= |rows|
        invariant forall k :: 0 <= k < index ==> Contents()[k].key != key
      {
        index := index + 1;
      }
    }

    method Append(reminder: Reminder)
      requires Valid() && reminder !in rows
      modifies this`rows
      ensures Valid() && rows == old(rows) + [reminder]
      ensures Contents() == old(Contents()) + [reminder.Stored()]
    {
      rows := rows + [reminder];
    }

    method Create(item: Option<nat>, rtype: ReminderType, kind: ScheduleKind, key: string, scheduledAt: Instant,
                  referenceAt: Option<Instant>) returns (index: nat, created: bool)
      requires Valid()
      modifies this`rows
      ensures Valid() && forall k :: 0 <= k < |rows| ==> rows[k] in old(rows) || fresh(rows[k])
      ensures created == !KeyTaken(old(Contents()), key)
      ensures Contents() == WithReminder(old(Contents()), NewRow(item, rtype, kind, key, scheduledAt, referenceAt, None, false))
      ensures index < |rows| && Contents()[index].key == key
    {
      hide KeyTaken, NewRow;
      NewRowKey(item, rtype, kind, key, scheduledAt, referenceAt);
      index := FindKey(key);
      if index < |rows| {
        KeyFound(Contents(), index, key);
        return index, false;
      }
      var reminder := new Reminder(item, rtype, kind, key, scheduledAt, referenceAt, None, false);
      assert Contents() == old(Contents());
      Append(reminder);
      return |rows| - 1, true;
    }

    method SweepStaleClaims(now: Instant, limits: Limits)
      requires Valid() && ValidLimits(limits)
      modifies rows
      ensures Valid() && Contents() == SweptAll(old(Contents()), now, limits)
    {
      ghost var was := Contents();
      for i := 0 to |rows|
        invariant forall k :: 0 <= k < i ==> rows[k].Stored() == Swept(was[k], now, limits)
        invariant forall k :: i <= k < |rows| ==> rows[k].Stored() == was[k]
      {
        rows[i].Sweep(now, limits);
      }
    }

    method ClaimRow(id: nat, now: Instant)
      requires Valid() && id < |rows|
      modifies this`nextToken, rows[id]
      ensures Valid() && nextToken == old(nextToken) + 1
      ensures Contents() == old(Contents())[id := Claimed(old(Contents())[id], now, old(nextToken))]
    {
      rows[id].Claim(now, nextToken);
      nextToken := nextToken + 1;
    }

    method ClaimDueReminders(order: seq<nat>, now: Instant, limit: nat, limits: Limits) returns (claims: seq<(nat, nat)>)
      requires Valid() && ValidLimits(limits) && limit > 0
      modifies this`nextToken, rows
      ensures Valid() && rows == old(rows)
      ensures Batch(Contents(), nextToken, claims) == ClaimDue(old(Contents()), old(nextToken), order, now, limit, limits)
    {
      hide Claimable, Claimed, Swept;
      SweepStaleClaims(now, limits);
      claims := [];
      ghost var start := Batch(Contents(), nextToken, claims);
      for n := 0 to |order|
        invariant rows == old(rows)
        invariant ClaimEach(Batch(Contents(), nextToken, claims), order[n..], now, limit, limits)
               == ClaimEach(start, order, now, limit, limits)
      {
        ghost var batch := Batch(Contents(), nextToken, claims);
        assert order[n..][0] == order[n] && order[n..][1..] == order[n + 1..];
        var id := order[n];
        if id < |rows| && |claims| < limit && Claimable(rows[id].Stored(), now, limits) {
          claims := claims + [(id, nextToken)];
          ClaimRow(id, now);
        }
        assert Batch(Contents(), nextToken, claims) == ClaimOne(batch, id, now, limit, limits);
      }
      assert order[|order|..] == [];
    }

    method DeferDueReminders(quiet: map<nat, Instant>, now: Instant)
      requires Valid()
      modifies rows
      ensures Valid() && Contents() == DeferDue(old(Contents()), quiet, now)
    {
      hide QuietCandidate, DeferredForQuiet;
      ghost var was := Contents();
      for i := 0 to |rows|
        invariant forall k :: 0 <= k < i ==>
                    rows[k].Stored() == if k in quiet && QuietCandidate(was[k], now) then DeferredForQuiet(was[k], quiet[k]) else was[k]
        invariant forall k :: i <= k < |rows| ==> rows[k].Stored() == was[k]
      {
        if i in quiet && QuietCandidate(rows[i].Stored(), now) {
          rows[i].DeferForQuiet(quiet[i]);
        }
      }
    }

    method UpsertDailyDigest(rtype: ReminderType, date: int, key: string, at: Instant)
      requires Valid()
      modifies this`rows, rows
      ensures Valid() && forall k :: 0 <= k < |rows| ==> rows[k] in old(rows) || fresh(rows[k])
      ensures Contents() == UpsertDigest(old(Contents()), rtype, date, key, at)
    {
      ghost var was := Contents();
      var i := 0;
      while i < |rows| && !IsDigestOf(rows[i].Stored(), rtype, date)
        invariant i <= |rows|
        invariant forall k :: 0 <= k < i ==> !IsDigestOf(was[k], rtype, date)
      {
        assert was[i] == rows[i].Stored();
        i := i + 1;
      }
      assert i < |rows| ==> was[i] == rows[i].Stored();
      assert i == DigestAt(was, rtype, date);
      if i < |rows| {
        rows[i].RefreshDigest(key, at);
        assert Contents() == was[i := DigestRefreshed(was[i], key, at)];
      } else {
        var digest := new Reminder(None, rtype, Manual, key, at, None, Some(date), false);
        assert Contents() == was;
        Append(digest);
      }
    }

    method CancelLegacyDailyDigests(rtype: ReminderType, date: int, now: Instant)
      requires Valid()
      modifies rows
      ensures Valid() && Contents() == CancelLegacyDigests(old(Contents()), rtype, date, now)
    {
      hide LegacyDigestDue, CancelledRecord;
      ghost var was := Contents();
      for i := 0 to |rows|
        invariant forall k :: 0 <= k < i ==> rows[k].Stored() == LegacyDigestCancelled(was[k], rtype, date, now)
        invariant forall k :: i <= k < |rows| ==> rows[k].Stored() == was[k]
      {
        if LegacyDigestDue(rows[i].Stored(), rtype, date) {
          rows[i].CancelRecord(now);
        }
      }
    }

    method EnsureDailyDigest(rtype: ReminderType, date: int, key: string, at: Instant, now: Instant)
      requires Valid()
      modifies this`rows, rows
      ensures Valid() && Contents() == EnsureDigest(old(Contents()), rtype, date, key, at, now)
    {
      UpsertDailyDigest(rtype, date, key, at);
      CancelLegacyDailyDigests(rtype, date, now);
    }

    method CancelFutureDigestReminders(rtype: ReminderType, now: Instant)
      requires Valid()
      modifies rows
      ensures Valid() && Contents() == CancelFutureDigests(old(Contents()), rtype, now)
    {
      hide FutureDigestCancelled;
      ghost var was := Contents();
      for i := 0 to |rows|
        invariant forall k :: 0 <= k < i ==> rows[k].Stored() == FutureDigestCancelled(was[k], rtype, now)
        invariant forall k :: i <= k < |rows| ==> rows[k].Stored() == was[k]
      {
        rows[i].CancelFuture(rtype, now);
      }
    }

    method CancelWorkItemReminders(item: nat, now: Instant)
      requires Valid()
      modifies rows
      ensures Valid() && Contents() == CancelAll(old(Contents()), item, now)
    {
      ghost var was := Contents();
      for i := 0 to |rows|
        invariant forall k :: 0 <= k < i ==> rows[k].Stored() == CancelAll(was, item, now)[k]
        invariant forall k :: i <= k < |rows| ==> rows[k].Stored() == was[k]
      {
        if rows[i].item == Some(item) && ActiveStatus(rows[i].status) {
          rows[i].CancelRecord(now);
        }
      }
    }

    method CancelUnwantedReminders(id: nat, schedules: seq<Schedule>, now: Instant)
      requires Valid()
      modifies rows
      ensures Valid() && Contents() == CancelUnwanted(old(Contents()), id, schedules, now)
    {
      hide Unwanted;
      ghost var was := Contents();
      for i := 0 to |rows|
        invariant forall k :: 0 <= k < i ==> rows[k].Stored() == CancelUnwanted(was, id, schedules, now)[k]
        invariant forall k :: i <= k < |rows| ==> rows[k].Stored() == was[k]
      {
        if Unwanted(rows[i].Stored(), id, schedules) {
          rows[i].CancelRecord(now);
        }
      }
    }

    /** Looks through the stored reminders of one schedule. */
    method ScanCandidates(id: nat, s: Schedule) returns (active: bool, any: bool, keys: set<string>)
      ensures active == HasActive(Contents(), id, s) && any == HasCandidate(Contents(), id, s)
      ensures keys == CandidateKeys(Contents(), id, s)
    {
      hide Candidate;
      active, any, keys := false, false, {};
      for i := 0 to |rows|
        invariant active == exists k :: 0 <= k < i && Candidate(Contents()[k], id, s) && ActiveStatus(Contents()[k].status)
        invariant any == exists k :: 0 <= k < i && Candidate(Contents()[k], id, s)
        invariant keys == set k | 0 <= k < i && Candidate(Contents()[k], id, s) :: Contents()[k].key
      {
        assert Contents()[i] == rows[i].Stored();
        if Candidate(rows[i].Stored(), id, s) {
          any := true;
          active := active || ActiveStatus(rows[i].status);
          keys := keys + {rows[i].key};
        }
      }
    }

    method EnsureReminder(id: nat, s: Schedule, replaceFinal: bool)
      requires Valid()
      modifies this`rows
      ensures Valid() && forall k :: 0 <= k < |rows| ==> rows[k] in old(rows) || fresh(rows[k])
      ensures Contents() == EnsureScheduled(old(Contents()), id, s, replaceFinal)
    {
      hide HasActive, HasCandidate, CandidateKeys, WithReminder, NextKey, Base;
      var active, any, keys := ScanCandidates(id, s);
      if active || (any && !replaceFinal) {
        return;
      }
      var key := NextVersionedKey(Base(id, s), keys);
      var _, _ := Create(Some(id), s.rtype, s.kind, key, s.scheduledAt, Some(s.referenceAt));
    }

    /** Reconciles the item's managed reminders with its current date. */
    method SyncWorkItemReminders(id: nat, item: Item, leadMinutes: nat, now: Instant, replaceFinal: bool)
      requires Valid()
      modifies this`rows, rows
      ensures Valid() && forall k :: 0 <= k < |rows| ==> rows[k] in old(rows) || fresh(rows[k])
      ensures Contents() == Synced(old(Contents()), id, item, leadMinutes, now, replaceFinal)
    {
      hide EnsureScheduled, CancelUnwanted, Schedules;
      var schedules := Schedules(item, leadMinutes, now);
      CancelUnwantedReminders(id, schedules, now);
      ghost var kept := Contents();
      for n := 0 to |schedules|
        invariant Valid() && forall k :: 0 <= k < |rows| ==> rows[k] in old(rows) || fresh(rows[k])
        invariant EnsureAll(Contents(), id, schedules[n..], replaceFinal) == EnsureAll(kept, id, schedules, replaceFinal)
      {
        assert schedules[n..][0] == schedules[n] && schedules[n..][1..] == schedules[n + 1..];
        EnsureReminder(id, schedules[n], replaceFinal);
      }
      assert schedules[|schedules|..] == [];
    }
  }
}
