/** What one claim statement hands out, and what any one action may do to any one reminder. */
module ProtocolMoves {
  import opened Core
  import opened ReminderRows
  import opened ReminderService
  import opened WorkItems
  import opened BoardSteps
  import opened Protocol
  import opened ProtocolInvariant

  // ---------------------------------------------------------------- what one claim statement hands out

  predicate ClaimedIn(batch: Batch, r: nat) {
    exists k :: 0 <= k < |batch.claims| && batch.claims[k].0 == r
  }

  /** The batch so far: consecutive fresh tokens, no row twice, every other row untouched. */
  predicate BatchOk(rows: seq<Row>, first: nat, batch: Batch, now: Instant, limit: nat, limits: Limits) {
    && |batch.rows| == |rows| && |batch.claims| <= limit && batch.nextToken == first + |batch.claims|
    && (forall k :: 0 <= k < |batch.claims| ==> batch.claims[k].0 < |rows| && batch.claims[k].1 == first + k)
    && (forall k :: 0 <= k < |batch.claims| ==>
         && Claimable(rows[batch.claims[k].0], now, limits)
         && batch.rows[batch.claims[k].0] == ReminderRows.Claimed(rows[batch.claims[k].0], now, batch.claims[k].1))
    && (forall r :: 0 <= r < |rows| ==> ClaimedIn(batch, r) || batch.rows[r] == rows[r])
  }

  /** A fresh claim is not stale yet, so no statement claims a row twice. */
  lemma ClaimedIsTaken(row: Row, now: Instant, token: nat, limits: Limits)
    requires ValidLimits(limits)
    ensures !Claimable(ReminderRows.Claimed(row, now, token), now, limits)
  {}

  lemma ClaimOneOk(rows: seq<Row>, first: nat, batch: Batch, id: nat, now: Instant, limit: nat, limits: Limits)
    requires BatchOk(rows, first, batch, now, limit, limits) && ValidLimits(limits)
    ensures BatchOk(rows, first, ClaimOne(batch, id, now, limit, limits), now, limit, limits)
    ensures batch.claims <= ClaimOne(batch, id, now, limit, limits).claims
    ensures id < |rows| && Claimable(rows[id], now, limits) && |ClaimOne(batch, id, now, limit, limits).claims| < limit ==>
              ClaimedIn(ClaimOne(batch, id, now, limit, limits), id)
  {
    hide Claimable, ReminderRows.Claimed;
    var next := ClaimOne(batch, id, now, limit, limits);
    if id < |rows| && ClaimedIn(batch, id) {
      var k :| 0 <= k < |batch.claims| && batch.claims[k].0 == id;
      ClaimedIsTaken(rows[id], now, batch.claims[k].1, limits);
      assert next == batch;
    } else if next != batch {
      assert next.claims[|batch.claims|].0 == id;
      forall r | 0 <= r < |rows| ensures ClaimedIn(next, r) || next.rows[r] == rows[r] {
        if ClaimedIn(batch, r) {
          var k :| 0 <= k < |batch.claims| && batch.claims[k].0 == r;
          assert next.claims[k].0 == r;
        }
      }
    }
  }

  lemma {:induction false} ClaimEachOk(rows: seq<Row>, first: nat, batch: Batch, order: seq<nat>, now: Instant, limit: nat, limits: Limits)
    requires BatchOk(rows, first, batch, now, limit, limits) && ValidLimits(limits)
    ensures BatchOk(rows, first, ClaimEach(batch, order, now, limit, limits), now, limit, limits)
    ensures batch.claims <= ClaimEach(batch, order, now, limit, limits).claims
    ensures forall id | id in order && id < |rows| && Claimable(rows[id], now, limits) ::
              |ClaimEach(batch, order, now, limit, limits).claims| < limit ==> ClaimedIn(ClaimEach(batch, order, now, limit, limits), id)
    decreases |order|
  {
    hide BatchOk, Claimable, ClaimOne, ClaimedIn;
    if order != [] {
      var next := ClaimOne(batch, order[0], now, limit, limits);
      ClaimOneOk(rows, first, batch, order[0], now, limit, limits);
      ClaimEachOk(rows, first, next, order[1..], now, limit, limits);
      ClaimedInLater(next, ClaimEach(next, order[1..], now, limit, limits), order[0]);
    }
  }

  lemma ClaimedInLater(batch: Batch, later: Batch, id: nat)
    requires batch.claims <= later.claims
    ensures ClaimedIn(batch, id) ==> ClaimedIn(later, id)
  {
    if ClaimedIn(batch, id) {
      var k :| 0 <= k < |batch.claims| && batch.claims[k].0 == id;
      assert later.claims[k].0 == id;
    }
  }

  /** A claim statement gives every claimed row its own fresh token, claims only what was due or abandoned before
      its delivery began, and stops short of its limit only when nothing claimable is left among the rows it saw. */
  lemma ClaimDueIs(rows: seq<Row>, first: nat, order: seq<nat>, now: Instant, limit: nat, limits: Limits)
    requires ValidLimits(limits)
    ensures var batch := ClaimDue(rows, first, order, now, limit, limits);
            && BatchOk(SweptAll(rows, now, limits), first, batch, now, limit, limits)
            && (forall id | id in order && id < |rows| && Claimable(Swept(rows[id], now, limits), now, limits) ::
                 |batch.claims| < limit ==> ClaimedIn(batch, id))
            && (forall j, k :: 0 <= j < k < |batch.claims| ==> batch.claims[j].0 != batch.claims[k].0)
  {
    hide Claimable, Swept, ReminderRows.Claimed;
    var swept := SweptAll(rows, now, limits);
    var batch := ClaimDue(rows, first, order, now, limit, limits);
    ClaimEachOk(swept, first, Batch(swept, first, []), order, now, limit, limits);
    forall j, k | 0 <= j < k < |batch.claims| ensures batch.claims[j].0 != batch.claims[k].0 {
      ClaimedToken(swept[batch.claims[j].0], now, batch.claims[j].1);
      ClaimedToken(swept[batch.claims[k].0], now, batch.claims[k].1);
    }
  }

  lemma ClaimedToken(row: Row, now: Instant, token: nat)
    ensures ReminderRows.Claimed(row, now, token).token == Some(token)
  {}

  // ---------------------------------------------------------------- what one action does to one reminder

  predicate Snoozes(a: Action, r: nat) {
    a.Manage? && a.q.op.OpSnooze? && a.q.op.row == r
  }

  predicate Retries(a: Action, r: nat) {
    a.OperatorRetries? && a.r == r
  }

  /** The worker holding the reminder records a known outcome. */
  predicate Settles(s: State, a: Action, r: nat)
    requires r < |s.board.rows|
  {
    && a.Mark? && a.token in s.attempts && s.attempts[a.token].reminder == r && HeldBy(s.board.rows[r], a.token)
    && (s.attempts[a.token].pc.Accepted? || s.attempts[a.token].pc.Rejected? || s.attempts[a.token].pc.NoChat?)
  }

  predicate Begins(s: State, a: Action, r: nat, cfg: Config)
    requires r < |s.board.rows|
  {
    a.Start? && cfg.linked && At(s, a.token, Ready) && s.attempts[a.token].reminder == r && MayStart(s.board.rows[r], a.token)
  }

  /** A row is being processed only under the claim it had, or under a new one. */
  predicate ClaimMoves(s: State, was: Row, row: Row) {
    row.status.Processing? ==>
      || (was.status.Processing? && row.token == was.token && row.attempts == was.attempts)
      || (row.token.Some? && row.token.value >= s.nextToken && row.attempts == was.attempts + 1)
  }

  predicate RowMoves(s: State, a: Action, r: nat, row: Row)
    requires r < |s.board.rows|
  {
    var was := s.board.rows[r];
    && row.rtype == was.rtype
    && ClaimMoves(s, was, row)
    && (was.status.Sent? && (Digest(was) || !Snoozes(a, r)) ==> row.status.Sent?)
    && (was.deliveryStartedAt.Some? && !Retries(a, r) && !Settles(s, a, r) ==> row.deliveryStartedAt.Some?)
  }

  predicate LedgerMoves(s: State, a: Action, r: nat, ledger: Ledger, cfg: Config)
    requires r < |s.board.rows| == |s.ledgers|
  {
    var was := s.ledgers[r];
    && ledger.retries <= was.retries + (if Retries(a, r) then 1 else 0)
    && ledger.resends <= was.resends + (if Snoozes(a, r) && !Digest(s.board.rows[r]) then 1 else 0)
    && was.started <= ledger.started && was.refused <= ledger.refused && was.reached <= ledger.reached
    && (ledger.started == was.started || (Begins(s, a, r, cfg) && ledger.started == was.started + {a.token}))
  }

  lemma KeptRowMoves(s: State, a: Action, r: nat, row: Row)
    requires r < |s.board.rows| && RowKept(s.board.rows[r], row)
    ensures RowMoves(s, a, r, row)
  {}

  lemma ManageMoves(s: State, q: Request, r: nat, cfg: Config)
    requires Inv(s, cfg) && r < |s.board.rows|
    ensures r < |StepManage(s, q).board.rows| == |StepManage(s, q).ledgers| && r < |s.ledgers|
    ensures RowMoves(s, Manage(q), r, StepManage(s, q).board.rows[r])
    ensures |s.ledgers| == |s.board.rows| && LedgerMoves(s, Manage(q), r, StepManage(s, q).ledgers[r], cfg)
  {
    hide Inv, Mutated, Allowed, Effective, RowsOk, KeepsAgreement, ClosesQuietly, RowMoves, LedgerMoves, RowKept;
    InvParts(s, cfg);
    if Handle(s.board, q).outcome.Applied? && !q.op.OpSnooze? {
      MutatedEvolves(s.board, q.origin, q.now, q.op);
      KeptRowMoves(s, Manage(q), r, StepManage(s, q).board.rows[r]);
      LedgerStands(s, Manage(q), r, StepManage(s, q).ledgers[r], cfg);
    } else if Handle(s.board, q).outcome.Applied? {
      SnoozeMoves(s, q, r, cfg);
    } else {
      assert SetBoard(s, s.board) == s;
      UnchangedMoves(s, Manage(q), r, cfg);
    }
  }

  lemma UnchangedMoves(s: State, a: Action, r: nat, cfg: Config)
    requires r < |s.board.rows| == |s.ledgers|
    ensures RowMoves(s, a, r, s.board.rows[r]) && LedgerMoves(s, a, r, s.ledgers[r], cfg)
  {}

  lemma SnoozeMoves(s: State, q: Request, r: nat, cfg: Config)
    requires r < |s.board.rows| == |s.ledgers| && q.op.OpSnooze? && Allowed(s.board, q.op, q.now)
    requires Handle(s.board, q).outcome.Applied?
    ensures r < |StepManage(s, q).board.rows| == |StepManage(s, q).ledgers|
    ensures RowMoves(s, Manage(q), r, StepManage(s, q).board.rows[r])
    ensures LedgerMoves(s, Manage(q), r, StepManage(s, q).ledgers[r], cfg)
  {}

  lemma BatchMoves(s: State, order: seq<nat>, now: Instant, limit: nat, r: nat, cfg: Config)
    requires r < |s.board.rows| && ValidLimits(cfg.limits)
    ensures var batch := ClaimDue(s.board.rows, s.nextToken, order, now, limit, cfg.limits);
            r < |batch.rows| == |s.board.rows| && RowMoves(s, ClaimBatch(order, now, limit), r, batch.rows[r])
  {
    hide Claimable, Swept, ClaimDue;
    var batch := ClaimDue(s.board.rows, s.nextToken, order, now, limit, cfg.limits);
    var swept := SweptAll(s.board.rows, now, cfg.limits);
    ClaimDueIs(s.board.rows, s.nextToken, order, now, limit, cfg.limits);
    SweptMoves(s, ClaimBatch(order, now, limit), r, now, cfg.limits);
    if ClaimedIn(batch, r) {
      var k :| 0 <= k < |batch.claims| && batch.claims[k].0 == r;
      SweptClaimMoves(s, ClaimBatch(order, now, limit), r, now, s.nextToken + k, cfg.limits);
    }
  }

  lemma SweptMoves(s: State, a: Action, r: nat, now: Instant, limits: Limits)
    requires r < |s.board.rows|
    ensures RowMoves(s, a, r, Swept(s.board.rows[r], now, limits))
  {}

  lemma SweptClaimMoves(s: State, a: Action, r: nat, now: Instant, token: nat, limits: Limits)
    requires r < |s.board.rows| && token >= s.nextToken && Claimable(Swept(s.board.rows[r], now, limits), now, limits)
    ensures RowMoves(s, a, r, ReminderRows.Claimed(Swept(s.board.rows[r], now, limits), now, token))
  {}

  lemma CheckMoves(s: State, a: Action, r: nat, cfg: Config)
    requires r < |s.board.rows| == |s.ledgers| && (a.CheckClaim? || a.GiveUpDigest?)
    ensures |Step(s, a, cfg).board.rows| == |Step(s, a, cfg).ledgers| == |s.board.rows|
    ensures RowMoves(s, a, r, Step(s, a, cfg).board.rows[r]) && LedgerMoves(s, a, r, Step(s, a, cfg).ledgers[r], cfg)
  {
    hide OutOfDate, StepMark, StepStart, StepSend, StepCrash, StepManage, StepRetry, Digest;
  }

  lemma SendMoves(s: State, a: Action, r: nat, cfg: Config)
    requires r < |s.board.rows| == |s.ledgers| && (a.Build? || a.Start? || a.SendReturns? || a.Crash?)
    ensures |Step(s, a, cfg).board.rows| == |Step(s, a, cfg).ledgers| == |s.board.rows|
    ensures RowMoves(s, a, r, Step(s, a, cfg).board.rows[r]) && LedgerMoves(s, a, r, Step(s, a, cfg).ledgers[r], cfg)
  {
    hide StepCheck, StepMark, StepGiveUp, StepManage, StepRetry, Digest;
  }

  lemma MarkMoves(s: State, a: Action, r: nat, cfg: Config)
    requires r < |s.board.rows| == |s.ledgers| && a.Mark?
    ensures |Step(s, a, cfg).board.rows| == |Step(s, a, cfg).ledgers| == |s.board.rows|
    ensures RowMoves(s, a, r, Step(s, a, cfg).board.rows[r]) && LedgerMoves(s, a, r, Step(s, a, cfg).ledgers[r], cfg)
  {
    hide StepCheck, StepStart, StepSend, StepCrash, StepGiveUp, StepManage, StepRetry, Digest;
  }

  lemma UserMoves(s: State, a: Action, r: nat, cfg: Config)
    requires r < |s.board.rows| == |s.ledgers| && (a.DeferForQuietHours? || a.UserCancels? || a.OperatorRetries?)
    ensures |Step(s, a, cfg).board.rows| == |Step(s, a, cfg).ledgers| == |s.board.rows|
    ensures RowMoves(s, a, r, Step(s, a, cfg).board.rows[r]) && LedgerMoves(s, a, r, Step(s, a, cfg).ledgers[r], cfg)
  {
    hide StepCheck, StepStart, StepSend, StepCrash, StepGiveUp, StepManage, StepMark, Digest;
  }

  lemma CaptureMoves(s: State, a: Action, r: nat, cfg: Config)
    requires Inv(s, cfg) && r < |s.board.rows| && a.CaptureItem?
    ensures |s.board.rows| == |s.ledgers| && r < |Step(s, a, cfg).board.rows| == |Step(s, a, cfg).ledgers|
    ensures RowMoves(s, a, r, Step(s, a, cfg).board.rows[r]) && LedgerMoves(s, a, r, Step(s, a, cfg).ledgers[r], cfg)
  {
    hide Inv, Capture, RowsOk, KeepsAgreement, ClosesQuietly;
    InvParts(s, cfg);
    if OpenStatus(a.status) {
      CaptureEvolves(s.board, a.itype, a.status, a.dueAt, a.followUpAt, a.custom, a.draftItem, a.leadMinutes, a.now);
    }
    KeptRowMoves(s, a, r, Step(s, a, cfg).board.rows[r]);
  }

  lemma ManageStepMoves(s: State, a: Action, r: nat, cfg: Config)
    requires Inv(s, cfg) && r < |s.board.rows| && a.Manage?
    ensures |s.board.rows| == |s.ledgers| && r < |Step(s, a, cfg).board.rows| == |Step(s, a, cfg).ledgers|
    ensures RowMoves(s, a, r, Step(s, a, cfg).board.rows[r]) && LedgerMoves(s, a, r, Step(s, a, cfg).ledgers[r], cfg)
  {
    hide Inv, RowMoves, LedgerMoves, StepManage;
    ManageMoves(s, a.q, r, cfg);
  }

  lemma BatchStepMoves(s: State, a: Action, r: nat, cfg: Config)
    requires Inv(s, cfg) && r < |s.board.rows| && a.ClaimBatch?
    ensures |s.board.rows| == |s.ledgers| && r < |Step(s, a, cfg).board.rows| == |Step(s, a, cfg).ledgers|
    ensures RowMoves(s, a, r, Step(s, a, cfg).board.rows[r]) && LedgerMoves(s, a, r, Step(s, a, cfg).ledgers[r], cfg)
  {
    hide Inv, RowMoves, ClaimDue;
    InvParts(s, cfg);
    BatchMoves(s, a.order, a.now, a.limit, r, cfg);
  }

  lemma StepMoves(s: State, a: Action, r: nat, cfg: Config)
    requires Inv(s, cfg) && r < |s.board.rows|
    ensures |s.board.rows| == |s.ledgers| && r < |Step(s, a, cfg).board.rows| == |Step(s, a, cfg).ledgers|
    ensures RowMoves(s, a, r, Step(s, a, cfg).board.rows[r]) && LedgerMoves(s, a, r, Step(s, a, cfg).ledgers[r], cfg)
  {
    hide Inv, Step, RowMoves, LedgerMoves, Capture, RowOk, Digest, RowKept, SetRows, RowsOk, KeepsAgreement, ClosesQuietly, ClaimDue, Claimable, Swept;
    InvParts(s, cfg);
    match a
    case Manage(_) => ManageStepMoves(s, a, r, cfg);
    case CaptureItem(_, _, _, _, _, _, _, _) => CaptureMoves(s, a, r, cfg);
    case ClaimBatch(_, _, _) => BatchStepMoves(s, a, r, cfg);
    case CheckClaim(_, _, _) => CheckMoves(s, a, r, cfg);
    case GiveUpDigest(_, _) => CheckMoves(s, a, r, cfg);
    case Build(_) => SendMoves(s, a, r, cfg);
    case Start(_, _) => SendMoves(s, a, r, cfg);
    case SendReturns(_, _) => SendMoves(s, a, r, cfg);
    case Mark(_, _, _) => MarkMoves(s, a, r, cfg);
    case Crash(_, _) => SendMoves(s, a, r, cfg);
    case DailyDigest(_, _, _, _) => SentParts(s, r, cfg); DigestMoves(s, a, r, cfg);
    case LegacyDigest(_, _, _) => SentParts(s, r, cfg); DigestMoves(s, a, r, cfg);
    case DropFutureDigests(_, _) => SentParts(s, r, cfg); DigestMoves(s, a, r, cfg);
    case DeferForQuietHours(_, _) => UserMoves(s, a, r, cfg);
    case UserCancels(_, _) => UserMoves(s, a, r, cfg);
    case OperatorRetries(_, _) => UserMoves(s, a, r, cfg);
  }

  lemma SentParts(s: State, r: nat, cfg: Config)
    requires Inv(s, cfg) && r < |s.board.rows|
    ensures Digest(s.board.rows[r]) && s.board.rows[r].sentAt.Some? ==> s.board.rows[r].status.Sent?
    ensures s.board.rows[r].status.Sent? ==> s.board.rows[r].sentAt.Some?
  {}

  /** What the three digest transactions do to a row that is there already. */
  lemma DigestRowMoves(s: State, a: Action, r: nat, rtype: ReminderType, date: int, key: string, at: Instant, now: Instant)
    requires r < |s.board.rows| && !Retries(a, r)
    requires var was := s.board.rows[r]; (Digest(was) && was.sentAt.Some? ==> was.status.Sent?) && (was.status.Sent? ==> was.sentAt.Some?)
    ensures RowMoves(s, a, r, s.board.rows[r])
    ensures RowMoves(s, a, r, LegacyDigestCancelled(s.board.rows[r], rtype, date, now))
    ensures RowMoves(s, a, r, LegacyDigestCancelled(DigestRefreshed(s.board.rows[r], key, at), rtype, date, now))
    ensures RowMoves(s, a, r, FutureDigestCancelled(s.board.rows[r], rtype, now))
  {
    hide Digest, Snoozes, Settles, LegacyDigestDue, CancelledRecord, DigestRefreshed;
    var was := s.board.rows[r];
    RefreshedMoves(was, key, at);
    LegacyMoves(was, rtype, date, now);
    LegacyMoves(DigestRefreshed(was, key, at), rtype, date, now);
  }

  /** What a digest transaction keeps of a row. */
  predicate DigestMoved(was: Row, row: Row) {
    && row.rtype == was.rtype && row.deliveryStartedAt == was.deliveryStartedAt && row.attempts == was.attempts
    && (row.status.Processing? ==> was.status.Processing? && row.token == was.token)
    && (was.status.Sent? && was.sentAt.Some? ==> row.status.Sent? && row.sentAt.Some?)
  }

  lemma RefreshedMoves(was: Row, key: string, at: Instant)
    ensures DigestMoved(was, DigestRefreshed(was, key, at))
  {}

  lemma LegacyMoves(was: Row, rtype: ReminderType, date: int, now: Instant)
    ensures DigestMoved(was, LegacyDigestCancelled(was, rtype, date, now))
  {}

  lemma LedgerStands(s: State, a: Action, r: nat, ledger: Ledger, cfg: Config)
    requires r < |s.board.rows| == |s.ledgers| && ledger == s.ledgers[r]
    ensures LedgerMoves(s, a, r, ledger, cfg)
  {}

  lemma DigestMoves(s: State, a: Action, r: nat, cfg: Config)
    requires r < |s.board.rows| == |s.ledgers|
    requires Digest(s.board.rows[r]) && s.board.rows[r].sentAt.Some? ==> s.board.rows[r].status.Sent?
    requires s.board.rows[r].status.Sent? ==> s.board.rows[r].sentAt.Some?
    requires a.DailyDigest? || a.LegacyDigest? || a.DropFutureDigests?
    ensures r < |Step(s, a, cfg).board.rows| == |Step(s, a, cfg).ledgers|
    ensures RowMoves(s, a, r, Step(s, a, cfg).board.rows[r]) && LedgerMoves(s, a, r, Step(s, a, cfg).ledgers[r], cfg)
  {
    hide RowMoves, LedgerMoves, LegacyDigestCancelled, DigestRefreshed, FutureDigestCancelled, IsDigestOf, Digest, DigestKey;
    LedgerStands(s, a, r, s.ledgers[r], cfg);
    if a.DailyDigest? {
      DigestRowMoves(s, a, r, a.rtype, a.date, DigestKey(a.rtype, a.date), a.at, a.now);
    } else if a.DropFutureDigests? {
      DigestRowMoves(s, a, r, a.rtype, 0, "", 0, a.now);
    } else {
      DigestRowMoves(s, a, r, a.rtype, 0, "", 0, 0);
    }
  }

  // ---------------------------------------------------------------- what one action does to one attempt

  predicate PcMoves(s: State, t: nat, pc: Pc, cfg: Config)
    requires t in s.attempts
  {
    var was := s.attempts[t].pc;
    || pc == was || pc.Over?
    || (was.Claimed? && pc.Ready?)
    || (was.Ready? && pc.NoChat? && !cfg.linked)
    || (was.Ready? && pc.Sending? && s.attempts[t].reminder < |s.board.rows| && MayStart(s.board.rows[s.attempts[t].reminder], t))
    || (was.Sending? && (pc.Accepted? || pc.Rejected? || pc.Unclear?))
  }

  predicate AttemptsMove(s: State, n: State, cfg: Config) {
    && (forall t <- s.attempts :: t in n.attempts && n.attempts[t].reminder == s.attempts[t].reminder && PcMoves(s, t, n.attempts[t].pc, cfg))
    && (forall t <- n.attempts :: t in s.attempts || (t >= s.nextToken && n.attempts[t].pc.Claimed?))
    && s.nextToken <= n.nextToken
  }

  lemma {:induction false} ClaimsAdded(attempts: map<nat, Attempt>, claims: seq<(nat, nat)>, first: nat)
    requires forall t <- attempts :: t < first
    requires forall k :: 0 <= k < |claims| ==> claims[k].1 >= first
    ensures forall t <- attempts :: t in WithClaims(attempts, claims) && WithClaims(attempts, claims)[t] == attempts[t]
    ensures forall t <- WithClaims(attempts, claims) ::
              t in attempts || (t >= first && WithClaims(attempts, claims)[t].pc.Claimed?)
    decreases |claims|
  {
    if claims != [] {
      ClaimsAdded(attempts, claims[..|claims| - 1], first);
    }
  }

  lemma BatchAttempts(s: State, order: seq<nat>, now: Instant, limit: nat, cfg: Config)
    requires TokensFine(s) && ValidLimits(cfg.limits)
    ensures AttemptsMove(s, AfterBatch(s, ClaimDue(s.board.rows, s.nextToken, order, now, limit, cfg.limits)), cfg)
  {
    hide Claimable, Swept, ClaimDue, TokenKnown, MayStart;
    var batch := ClaimDue(s.board.rows, s.nextToken, order, now, limit, cfg.limits);
    ClaimDueIs(s.board.rows, s.nextToken, order, now, limit, cfg.limits);
    ClaimsAdded(s.attempts, batch.claims, s.nextToken);
  }

  lemma OtherAttempts(s: State, a: Action, cfg: Config)
    requires !a.ClaimBatch? && !a.Mark? && !a.SendReturns? && !a.Start? && !a.CheckClaim?
    ensures AttemptsMove(s, Step(s, a, cfg), cfg)
  {
    hide Handle, Capture, EnsureDigest, MayStart, Digest, StepMark, StepSend, StepStart, StepCheck;
  }

  /** One attempt moves on, or ends. */
  lemma OneAttemptMoves(s: State, n: State, t: nat, pc: Pc, cfg: Config)
    requires t in s.attempts && PcMoves(s, t, pc, cfg) && n.nextToken == s.nextToken
    requires n.attempts == s.attempts[t := s.attempts[t].(pc := pc)]
    ensures AttemptsMove(s, n, cfg)
  {
    hide MayStart;
  }

  lemma WorkerAttempts(s: State, a: Action, cfg: Config)
    requires a.Mark? || a.SendReturns? || a.Start? || a.CheckClaim?
    ensures AttemptsMove(s, Step(s, a, cfg), cfg)
  {
    hide AttemptsMove, StepManage, StepGiveUp, StepCrash, StepRetry, MayStart, Check, Checked, Started, ReminderRows.Delivered,
         ReminderRows.Rejected, OutcomeUnknown, Digest;
    var n := Step(s, a, cfg);
    if a.token in s.attempts && n != s {
      OneAttemptMoves(s, n, a.token, n.attempts[a.token].pc, cfg);
    } else {
      NoAttemptMoves(s, cfg);
    }
  }

  lemma NoAttemptMoves(s: State, cfg: Config)
    ensures AttemptsMove(s, s, cfg)
  {}

  lemma StepAttempts(s: State, a: Action, cfg: Config)
    requires Inv(s, cfg)
    ensures AttemptsMove(s, Step(s, a, cfg), cfg)
  {
    hide Inv, AttemptsMove, ClaimDue;
    if a.ClaimBatch? {
      InvParts(s, cfg);
      BatchAttempts(s, a.order, a.now, a.limit, cfg);
    } else if a.Mark? || a.SendReturns? || a.Start? || a.CheckClaim? {
      WorkerAttempts(s, a, cfg);
    } else {
      OtherAttempts(s, a, cfg);
    }
  }

  /** A new reminder has no history. */
  lemma NewLedger(s: State, a: Action, r: nat, cfg: Config)
    requires Inv(s, cfg) && |s.board.rows| <= r < |Step(s, a, cfg).ledgers|
    ensures Step(s, a, cfg).ledgers[r] == NO_HISTORY
  {
    hide Handle, Capture, RowOk, ClaimDue, EnsureDigest, RowsOk, AttemptsFine, DormantFine, TokensFine, Check, MayStart, Digest;
  }
}
