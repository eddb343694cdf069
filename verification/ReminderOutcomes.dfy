/** What each transaction of the delivery protocol leaves in the reminder table, column by column. */
module ReminderOutcomes {
  import opened Core
  import opened ReminderRows
  import opened ReminderService
  import opened Protocol
  import opened ProtocolMoves
  import opened DeliveryChances

  /** What a reminder is for, and the time it was made for, never change with its delivery. */
  predicate SameReminder(was: Row, row: Row) {
    && row.item == was.item && row.rtype == was.rtype && row.kind == was.kind && row.key == was.key
    && row.referenceAt == was.referenceAt && row.digestDate == was.digestDate && row.legacy == was.legacy
  }

  predicate Unclaimed(row: Row) {
    row.token.None? && row.processingStartedAt.None?
  }

  /** The marks that a delivery leaves: when it began, when it stayed unclear, when it arrived. */
  predicate SameMarks(was: Row, row: Row) {
    row.deliveryStartedAt == was.deliveryStartedAt && row.deliveryUnknownAt == was.deliveryUnknownAt && row.sentAt == was.sentAt
  }

  predicate SameTimes(was: Row, row: Row) {
    && row.scheduledAt == was.scheduledAt && row.snoozedUntil == was.snoozedUntil && row.nextAttemptAt == was.nextAttemptAt
    && row.cancelledAt == was.cancelledAt
  }

  /** One row changes, and nothing else of the board. */
  predicate OnlyRow(s: State, n: State, r: nat)
    requires r < |s.board.rows|
  {
    && |n.board.rows| == |s.board.rows| && n.board.items == s.board.items && n.board.links == s.board.links
    && n.board.events == s.board.events && (forall k :: 0 <= k < |s.board.rows| && k != r ==> n.board.rows[k] == s.board.rows[k])
    && SameReminder(s.board.rows[r], n.board.rows[r])
  }

  predicate LeaseIsOut(row: Row, now: Instant, timeout: int) {
    row.status.Processing? && row.processingStartedAt.Some? && row.processingStartedAt.value + timeout <= now
  }

  // ---------------------------------------------------------------- claims

  /** A claim statement decides every abandoned claim. One whose delivery had begun becomes unclear and keeps that mark; one
      that was the last attempt fails; any other may be handed out again. A claim whose lease runs stands. */
  lemma ClaimStatementDecides(s: State, order: seq<nat>, now: Instant, limit: nat, r: nat, cfg: Config)
    requires Inv(s, cfg) && r < |s.board.rows| && s.board.rows[r].status.Processing?
    ensures var was := s.board.rows[r];
            var n := Step(s, ClaimBatch(order, now, limit), cfg);
            && r < |n.board.rows| && SameReminder(was, n.board.rows[r])
            && var row := n.board.rows[r];
               if !LeaseIsOut(was, now, cfg.limits.timeout) then row == was
               else if was.deliveryStartedAt.Some? then
                 && row.status.DeliveryUnknown? && row.deliveryUnknownAt == Some(now) && row.deliveryStartedAt == was.deliveryStartedAt
                 && Unclaimed(row) && SameTimes(was, row) && row.attempts == was.attempts
               else if was.attempts >= cfg.limits.maxAttempts then
                 row.status.Failed? && Unclaimed(row) && SameTimes(was, row) && SameMarks(was, row) && row.attempts == was.attempts
               else row == was || Claims(was, row, now, s.nextToken)
  {
    hide Inv, Claimable, Swept;
    InvLimits(s, cfg);
    ClaimDueIs(s.board.rows, s.nextToken, order, now, limit, cfg.limits);
    var batch := ClaimDue(s.board.rows, s.nextToken, order, now, limit, cfg.limits);
    SweptMeans(s.board.rows[r], now, cfg.limits);
    if ClaimedIn(batch, r) {
      var k :| 0 <= k < |batch.claims| && batch.claims[k].0 == r;
    }
  }

  lemma InvLimits(s: State, cfg: Config)
    requires Inv(s, cfg)
    ensures ValidLimits(cfg.limits)
  {}

  lemma SweptMeans(was: Row, now: Instant, limits: Limits)
    requires was.status.Processing?
    ensures var row := Swept(was, now, limits);
            && (!LeaseIsOut(was, now, limits.timeout) ==> row == was && !Claimable(row, now, limits))
            && (LeaseIsOut(was, now, limits.timeout) && was.deliveryStartedAt.Some? ==>
                  && row == was.(status := ReminderStatus.DeliveryUnknown, deliveryUnknownAt := Some(now), token := None, processingStartedAt := None)
                  && !Claimable(row, now, limits))
            && (LeaseIsOut(was, now, limits.timeout) && was.deliveryStartedAt.None? && was.attempts >= limits.maxAttempts ==>
                  && row == was.(status := ReminderStatus.Failed, token := None, processingStartedAt := None)
                  && !Claimable(row, now, limits))
            && (LeaseIsOut(was, now, limits.timeout) && was.deliveryStartedAt.None? && was.attempts < limits.maxAttempts ==> row == was)
  {}

  /** A claim: one attempt more, a fresh token, and a lease from now on. */
  predicate Claims(was: Row, row: Row, now: Instant, first: nat) {
    && row.status.Processing? && row.processingStartedAt == Some(now) && row.token.Some? && row.token.value >= first
    && row.attempts == was.attempts + 1 && SameTimes(was, row) && SameMarks(was, row)
  }

  /** A claim statement leaves any other reminder alone or claims it, and claims only what is due and has attempts left. */
  lemma ClaimStatementTakesDue(s: State, order: seq<nat>, now: Instant, limit: nat, r: nat, cfg: Config)
    requires Inv(s, cfg) && r < |s.board.rows| && !s.board.rows[r].status.Processing?
    ensures var was := s.board.rows[r];
            var n := Step(s, ClaimBatch(order, now, limit), cfg);
            && r < |n.board.rows|
            && (n.board.rows[r] == was
                || (Claims(was, n.board.rows[r], now, s.nextToken) && SameReminder(was, n.board.rows[r])
                    && ComesUp(was, now, cfg.limits.timeout) && was.attempts < cfg.limits.maxAttempts))
  {
    hide Inv, ComesUp, HasChance;
    InvLimits(s, cfg);
    ClaimDueIs(s.board.rows, s.nextToken, order, now, limit, cfg.limits);
    var batch := ClaimDue(s.board.rows, s.nextToken, order, now, limit, cfg.limits);
    ComesUpIsChance(s.board.rows[r].(deliveryStartedAt := None), now, cfg.limits);
    ComesUpAnyway(s.board.rows[r], now, cfg.limits);
    if ClaimedIn(batch, r) {
      var k :| 0 <= k < |batch.claims| && batch.claims[k].0 == r;
    }
  }

  lemma ComesUpAnyway(row: Row, now: Instant, limits: Limits)
    requires !row.status.Processing?
    ensures Swept(row, now, limits) == row
    ensures Claimable(row, now, limits) ==> ComesUp(row, now, limits.timeout) && row.attempts < limits.maxAttempts
  {}

  // ---------------------------------------------------------------- the worker

  /** The check before a delivery. Who lost the claim learns so and changes nothing; a reminder that no longer fits is
      cancelled; one in quiet hours sleeps until they end and gets its attempt back; otherwise delivery may go on. */
  lemma CheckDecides(s: State, t: nat, now: Instant, quietUntil: Option<Instant>, cfg: Config)
    requires At(s, t, Pc.Claimed)
    ensures var r := s.attempts[t].reminder;
            var n := Step(s, CheckClaim(t, now, quietUntil), cfg);
            var was := s.board.rows[r];
            && OnlyRow(s, n, r) && t in n.attempts && n.ledgers == s.ledgers
            && var row, pc := n.board.rows[r], n.attempts[t].pc;
               if !(was.status.Processing? && was.token == Some(t)) then row == was && pc.Over?
               else if !FitsItem(s, r, now) then
                 pc.Over? && Cancels(was, row, now) && row.snoozedUntil.None? && row.nextAttemptAt.None?
               else if quietUntil.Some? && was.rtype != MorningDigest && was.rtype != EveningDigest then
                 && pc.Over? && row.status.Snoozed? && row.snoozedUntil == quietUntil && row.nextAttemptAt.None? && Unclaimed(row)
                 && row.attempts == (if was.attempts > 0 then was.attempts - 1 else 0)
                 && SameMarks(was, row) && row.scheduledAt == was.scheduledAt
               else row == was && pc.Ready?
  {
    hide OutOfDate, FitsItem;
    FitsMeans(s, s.attempts[t].reminder, now);
  }

  /** Cancelled now, held by nobody; attempts, marks and the original time stay for the record. */
  predicate Cancels(was: Row, row: Row, now: Instant) {
    && row.status.Cancelled? && row.cancelledAt == Some(now) && Unclaimed(row)
    && row.attempts == was.attempts && SameMarks(was, row) && row.scheduledAt == was.scheduledAt
  }

  /** Giving up an empty or outdated digest cancels it, if the worker still holds it. */
  lemma GivingUpCancels(s: State, t: nat, now: Instant, cfg: Config)
    requires At(s, t, Ready) && Digest(s.board.rows[s.attempts[t].reminder])
    ensures var r := s.attempts[t].reminder;
            var n := Step(s, GiveUpDigest(t, now), cfg);
            && OnlyRow(s, n, r) && t in n.attempts && n.attempts[t].pc.Over? && n.ledgers == s.ledgers
            && if HeldBy(s.board.rows[r], t) then Cancels(s.board.rows[r], n.board.rows[r], now) else n.board.rows[r] == s.board.rows[r]
  {}

  /** A delivery begins exactly for who holds the claim, if it never began before; the mark is set before the network call. */
  lemma StartDecides(s: State, t: nat, now: Instant, cfg: Config)
    requires At(s, t, Ready) && cfg.linked
    ensures var r := s.attempts[t].reminder;
            var was, n := s.board.rows[r], Step(s, Start(t, now), cfg);
            && OnlyRow(s, n, r) && t in n.attempts && |n.ledgers| == |s.ledgers|
            && if HeldBy(was, t) && was.deliveryStartedAt.None? then
                 && n.board.rows[r].deliveryStartedAt == Some(now) && n.board.rows[r].(deliveryStartedAt := None) == was
                 && n.attempts[t].pc.Sending? && t in n.ledgers[r].started
               else n.board.rows[r] == was && n.attempts[t].pc.Over? && n.ledgers == s.ledgers
  {}

  /** What the messenger answers decides what will be recorded: accepted, refused for good, refused for now where it names a
      delay, and unclear for anything else; only refusals are certain not to have reached the user. */
  lemma AnswerDecides(s: State, t: nat, outcome: SendOutcome, cfg: Config)
    requires At(s, t, Sending)
    ensures var r := s.attempts[t].reminder;
            var n := Step(s, SendReturns(t, outcome), cfg);
            && n.board == s.board && t in n.attempts && r < |n.ledgers|
            && n.attempts[t].pc == (match outcome
                                    case SendAccepted => Accepted
                                    case PermanentError => Pc.Rejected(true)
                                    case RetryAfter => Pc.Rejected(false)
                                    case NoAnswer(_) => Unclear)
            && (t in n.ledgers[r].refused <==> t in s.ledgers[r].refused || outcome.PermanentError? || outcome.RetryAfter?)
            && (t in n.ledgers[r].reached <==> t in s.ledgers[r].reached || outcome.SendAccepted? || outcome == NoAnswer(true))
  {}

  /** What the worker records in the end. A delivery that arrived is sent and leaves no doubt. A refusal clears its start, and
      is final if the messenger says so or no attempt is left; otherwise the next attempt is due after the delay. An unclear
      outcome keeps its start. Whoever lost the claim records nothing. */
  lemma MarkDecides(s: State, t: nat, now: Instant, delay: int, cfg: Config)
    requires t in s.attempts && At(s, t, s.attempts[t].pc)
    requires var pc := s.attempts[t].pc; pc.Accepted? || pc.Rejected? || pc.NoChat? || pc.Unclear?
    ensures var r, pc := s.attempts[t].reminder, s.attempts[t].pc;
            var n := Step(s, Mark(t, now, delay), cfg);
            var was := s.board.rows[r];
            && OnlyRow(s, n, r) && t in n.attempts && n.attempts[t].pc.Over? && n.ledgers == s.ledgers
            && var row := n.board.rows[r];
               if !HeldBy(was, t) then row == was
               else
                 && Unclaimed(row) && row.attempts == was.attempts && row.scheduledAt == was.scheduledAt
                 && row.snoozedUntil == was.snoozedUntil && row.cancelledAt == was.cancelledAt
                 && if pc.Accepted? then
                      && row.status.Sent? && row.sentAt == Some(now) && row.deliveryStartedAt.None? && row.deliveryUnknownAt.None?
                      && row.nextAttemptAt.None?
                    else if pc.Unclear? then
                      && row.status.DeliveryUnknown? && row.deliveryUnknownAt == Some(now) && row.nextAttemptAt.None?
                      && row.deliveryStartedAt == was.deliveryStartedAt && row.sentAt == was.sentAt
                    else
                      && row.deliveryStartedAt.None? && row.deliveryUnknownAt == was.deliveryUnknownAt && row.sentAt == was.sentAt
                      && if pc.NoChat? || pc.permanent || was.attempts >= cfg.limits.maxAttempts then
                           row.status.Failed? && row.nextAttemptAt.None?
                         else row.status.Pending? && row.nextAttemptAt == Some(now + delay)
  {}

  // ---------------------------------------------------------------- users, operators, schedulers

  /** A user may cancel what waits or has failed, and nothing else. */
  lemma UserCancelDecides(s: State, r: nat, now: Instant, cfg: Config)
    requires r < |s.board.rows|
    ensures var was, n := s.board.rows[r], Step(s, UserCancels(r, now), cfg);
            && OnlyRow(s, n, r)
            && if was.status in {ReminderStatus.Pending, ReminderStatus.Snoozed, ReminderStatus.Failed} then Cancels(was, n.board.rows[r], now)
               else n.board.rows[r] == was
  {}

  /** An operator may retry what stayed unclear: it is due at once, with all attempts and no doubt left. */
  lemma OperatorRetryDecides(s: State, r: nat, now: Instant, cfg: Config)
    requires r < |s.board.rows| == |s.ledgers|
    ensures var was, n := s.board.rows[r], Step(s, OperatorRetries(r, now), cfg);
            && OnlyRow(s, n, r)
            && var row := n.board.rows[r];
               if was.status.DeliveryUnknown? then
                 && row.status.Pending? && row.scheduledAt == now && row.nextAttemptAt == Some(now) && row.attempts == 0
                 && row.deliveryStartedAt.None? && row.deliveryUnknownAt.None? && row.sentAt == was.sentAt
               else row == was
  {}

  /** Deferral for quiet hours: exactly the chosen reminders that are due and no digest sleep until their quiet hours end. */
  lemma DeferralPutsToSleep(s: State, quiet: map<nat, Instant>, now: Instant, r: nat, cfg: Config)
    requires r < |s.board.rows|
    ensures var was, n := s.board.rows[r], Step(s, DeferForQuietHours(quiet, now), cfg);
            && |n.board.rows| == |s.board.rows|
            && var row := n.board.rows[r];
               if r in quiet && was.rtype != MorningDigest && was.rtype != EveningDigest && !was.status.Processing? && ComesUp(was, now, 0) then
                 && row.status.Snoozed? && row.snoozedUntil == Some(quiet[r]) && row.nextAttemptAt.None? && Unclaimed(row)
                 && SameReminder(was, row) && SameMarks(was, row) && row.attempts == was.attempts && row.scheduledAt == was.scheduledAt
               else row == was
  {}

  // ---------------------------------------------------------------- digests

  predicate OfDay(row: Row, rtype: ReminderType, date: int, legacy: bool) {
    row.rtype == rtype && row.digestDate == Some(date) && row.legacy == legacy
  }

  lemma DailyDigestRows(s: State, rtype: ReminderType, date: int, at: Instant, now: Instant, cfg: Config)
    requires rtype.MorningDigest? || rtype.EveningDigest?
    ensures var rows := Step(s, DailyDigest(rtype, date, at, now), cfg).board.rows;
            var i := DigestAt(s.board.rows, rtype, date);
            && |rows| == |s.board.rows| + (if i == |s.board.rows| then 1 else 0)
            && (forall r :: 0 <= r < |s.board.rows| ==>
                 rows[r] == LegacyDigestCancelled(if r == i then DigestRefreshed(s.board.rows[r], DigestKey(rtype, date), at) else s.board.rows[r],
                                                  rtype, date, now))
            && (i == |s.board.rows| ==> rows[i] == LegacyDigestCancelled(NewRow(None, rtype, Manual, DigestKey(rtype, date), at, None, Some(date), false),
                                                                         rtype, date, now))
  {
    hide DigestKey, LegacyDigestCancelled, DigestRefreshed, IsDigestOf;
  }

  /** Scheduling the day's digest: a canonical one for the day waits for the given time, or was sent already. */
  lemma DailyDigestIsThere(s: State, rtype: ReminderType, date: int, at: Instant, now: Instant, cfg: Config) returns (r: nat)
    requires rtype.MorningDigest? || rtype.EveningDigest?
    ensures var n := Step(s, DailyDigest(rtype, date, at, now), cfg);
            && |s.board.rows| <= |n.board.rows| <= |s.board.rows| + 1
            && r < |n.board.rows| && OfDay(n.board.rows[r], rtype, date, false) && n.board.rows[r].scheduledAt == at
            && (n.board.rows[r].sentAt.Some? || n.board.rows[r].status.Pending?)
  {
    hide DigestKey, Step;
    DailyDigestRows(s, rtype, date, at, now, cfg);
    r := DigestAt(s.board.rows, rtype, date);
  }

  /** What it does to a stored reminder: an unsent older digest of the day that waits or failed is cancelled; a canonical one
      of the day gets the new time, and is otherwise woken or left as sent; any other stands. */
  lemma DailyDigestDecides(s: State, rtype: ReminderType, date: int, at: Instant, now: Instant, r: nat, cfg: Config)
    requires (rtype.MorningDigest? || rtype.EveningDigest?) && r < |s.board.rows|
    ensures var was, n := s.board.rows[r], Step(s, DailyDigest(rtype, date, at, now), cfg);
            && r < |n.board.rows|
            && var row := n.board.rows[r];
               if OfDay(was, rtype, date, true) then
                 if was.sentAt.None? && was.status in {ReminderStatus.Pending, ReminderStatus.Snoozed, ReminderStatus.Failed}
                 then Cancels(was, row, now) && row.snoozedUntil.None? && SameReminder(was, row) else row == was
               else if OfDay(was, rtype, date, false) then
                 || row == was
                 || (&& row.scheduledAt == at && SameMarks(was, row) && row.attempts == was.attempts
                     && row.status == (if was.sentAt.Some? then was.status else ReminderStatus.Pending))
               else row == was
  {
    hide DigestKey, Step;
    DailyDigestRows(s, rtype, date, at, now, cfg);
  }

  /** Dropping coming digests cancels exactly the waiting, unsent ones of the kind. */
  lemma DroppingDigestsCancels(s: State, rtype: ReminderType, now: Instant, r: nat, cfg: Config)
    requires (rtype.MorningDigest? || rtype.EveningDigest?) && r < |s.board.rows|
    ensures var was, n := s.board.rows[r], Step(s, DropFutureDigests(rtype, now), cfg);
            && |n.board.rows| == |s.board.rows|
            && var row := n.board.rows[r];
               if was.rtype == rtype && was.sentAt.None? && (was.status.Pending? || was.status.Snoozed?) then
                 && row.status.Cancelled? && row.cancelledAt == Some(now) && row.snoozedUntil.None? && SameReminder(was, row)
                 && SameMarks(was, row) && row.attempts == was.attempts && row.scheduledAt == was.scheduledAt
               else row == was
  {}
}
