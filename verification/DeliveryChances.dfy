/** When a reminder can be delivered again: an undisturbed worker reaches the user exactly if it has a chance and fits. */
module DeliveryChances {
  import opened Core
  import opened ReminderRows
  import opened ReminderService
  import opened WorkItems
  import opened BoardSteps
  import opened Protocol
  import opened ProtocolInvariant
  import opened ProtocolMoves
  import opened Worker

  /** A claim at this instant could be followed by a start. */
  predicate HasChance(row: Row, at: Instant, limits: Limits) {
    Claimable(row, at, limits) && row.deliveryStartedAt.None?
  }

  ghost predicate HasNoChance(row: Row, limits: Limits) {
    forall at :: !Claimable(row, at, limits)
  }

  ghost predicate HasChanceFrom(row: Row, start: Instant, limits: Limits) {
    forall at :: HasChance(row, at, limits) <==> at >= start
  }

  /** What each recorded outcome of a claim decides: a delivered reminder, an unclear one and one refused for good have no
      further chance; a refusal with attempts left gives one exactly from the end of the retry delay on. */
  lemma OutcomesDecideChances(row: Row, token: nat, now: Instant, permanent: bool, delay: int, limits: Limits)
    requires ValidLimits(limits) && HeldBy(row, token)
    ensures HasNoChance(ReminderRows.Delivered(row, token, now), limits) && HasNoChance(OutcomeUnknown(row, token, now), limits)
    ensures HasNoChance(Dropped(row, token, now), limits) && HasNoChance(CancelledRecord(row, now), limits)
    ensures var refused := ReminderRows.Rejected(row, token, now, permanent, delay, limits);
            if permanent || row.attempts >= limits.maxAttempts then HasNoChance(refused, limits) && refused.status.Failed?
            else HasChanceFrom(refused, now + delay, limits)
  {}

  /** What users, operators and quiet hours decide: a retried reminder has its chance at once and all its attempts back; a
      snoozed or deferred one from the end of its sleep on, unless a delivery of it had begun and was never cleared. */
  lemma RequestsDecideChances(row: Row, now: Instant, until: Instant, limits: Limits)
    requires ValidLimits(limits)
    ensures row.status.DeliveryUnknown? ==> HasChanceFrom(Retried(row, now), now, limits) && Retried(row, now).attempts == 0
    ensures if row.deliveryStartedAt.None? then HasChanceFrom(Postponed(row, until), until, limits)
            else forall at :: !HasChance(Postponed(row, until), at, limits)
    ensures row.attempts < limits.maxAttempts && row.deliveryStartedAt.None? ==> HasChanceFrom(DeferredForQuiet(row, until), until, limits)
    ensures MayCancel(row) ==> HasNoChance(CancelledByUser(row, now), limits)
  {}

  /** One worker that meets a reminder with a chance, claims it and is not interrupted. */
  function Undisturbed(r: nat, token: nat, now: Instant): seq<Action> {
    [ClaimBatch([r], now, 1), CheckClaim(token, now, None), Start(token, now), SendReturns(token, SendAccepted), Mark(token, now, 1)]
  }

  lemma ClaimDueOfOne(rows: seq<Row>, first: nat, r: nat, now: Instant, limits: Limits)
    requires r < |rows|
    ensures var batch := ClaimDue(rows, first, [r], now, 1, limits);
            var row := Swept(rows[r], now, limits);
            && |batch.rows| == |rows|
            && (Claimable(row, now, limits) ==> batch.claims == [(r, first)] && batch.rows[r] == ReminderRows.Claimed(row, now, first))
            && (!Claimable(row, now, limits) ==> batch.claims == [])
  {
    hide Swept, Claimable;
    var swept := Batch(SweptAll(rows, now, limits), first, []);
    var one := ClaimOne(swept, r, now, 1, limits);
    assert ClaimEach(swept, [r], now, 1, limits) == ClaimEach(one, [], now, 1, limits) by {
      hide ClaimOne, SweptAll;
      assert [r][1..] == [];
    }
  }

  lemma AttemptOfOne(attempts: map<nat, Attempt>, r: nat, t: nat)
    ensures WithClaims(attempts, []) == attempts && WithClaims(attempts, [(r, t)]) == attempts[t := Attempt(r, Pc.Claimed)]
  {
    assert [(r, t)][..0] == [];
    assert WithClaims(attempts, [(r, t)]) == WithClaims(attempts, [])[t := Attempt(r, Pc.Claimed)];
  }

  lemma ClaimOfOne(s: State, r: nat, now: Instant, cfg: Config)
    requires Inv(s, cfg) && r < |s.board.rows| && HasChance(s.board.rows[r], now, cfg.limits)
    ensures var n := Step(s, ClaimBatch([r], now, 1), cfg);
            && |n.board.rows| == |s.board.rows| && n.board.items == s.board.items
            && n.board.rows[r] == ReminderRows.Claimed(s.board.rows[r], now, s.nextToken)
            && At(n, s.nextToken, Pc.Claimed) && n.attempts[s.nextToken].reminder == r
  {
    hide Inv, Swept, ClaimDue, WithClaims, Claimable, ReminderRows.Claimed;
    Lengths(s, cfg);
    ChanceSurvivesSweep(s.board.rows[r], now, cfg.limits);
    ClaimDueOfOne(s.board.rows, s.nextToken, r, now, cfg.limits);
    AttemptOfOne(s.attempts, r, s.nextToken);
  }

  lemma ChanceSurvivesSweep(row: Row, now: Instant, limits: Limits)
    requires HasChance(row, now, limits)
    ensures Swept(row, now, limits) == row
  {}

  lemma RunStepwise(s: State, a: seq<Action>, cfg: Config)
    ensures Run(s, [], cfg) == s
    ensures forall k :: 0 <= k < |a| ==> Run(s, a[..k + 1], cfg) == Step(Run(s, a[..k], cfg), a[k], cfg)
  {
    hide Step;
    forall k | 0 <= k < |a| ensures Run(s, a[..k + 1], cfg) == Step(Run(s, a[..k], cfg), a[k], cfg) {
      assert a[..k + 1] == a[..k] + [a[k]];
      RunConcat(s, a[..k], [a[k]], cfg);
      RunOne(Run(s, a[..k], cfg), a[k], cfg);
    }
  }

  /** A chance suffices: if a reminder has one and still fits its work item, a worker that is not disturbed delivers it. */
  lemma ChanceSuffices(s: State, r: nat, now: Instant, cfg: Config)
    requires Inv(s, cfg) && cfg.linked && r < |s.board.rows| && HasChance(s.board.rows[r], now, cfg.limits)
    requires !OutOfDate(s.board.rows[r], ItemOf(s.board, s.board.rows[r]), now)
    ensures var n := Run(s, Undisturbed(r, s.nextToken, now), cfg);
            && r < |n.board.rows| && n.board.rows[r].status.Sent? && n.board.rows[r].sentAt == Some(now)
            && r < |n.ledgers| && s.nextToken in n.ledgers[r].reached
  {
    hide Step, Run, Inv, Claimable, ReminderRows.Claimed, Check, Checked, Started, MayStart, ReminderRows.Delivered;
    var t := s.nextToken;
    var a := Undisturbed(r, t, now);
    var n1 := Step(s, a[0], cfg);
    ClaimOfOne(s, r, now, cfg);
    var n2 := Step(n1, a[1], cfg);
    CheckGoes(n1, r, t, now, None, cfg);
    ClaimedDelivers(s.board.rows[r], ItemOf(s.board, s.board.rows[r]), t, now, cfg.limits);
    var n3 := Step(n2, a[2], cfg);
    ReadyGoes(n2, r, t, now, cfg);
    var n4 := Step(n3, a[3], cfg);
    SendingGoes(n3, r, t, SendAccepted, cfg);
    SendReaches(n3, r, t, cfg);
    MarkLeavesLedgers(n4, t, now, 1, cfg);
    MarkGoes(n4, r, t, Accepted, now, 1, cfg);
    UndisturbedRun(s, r, now, cfg);
  }

  lemma UndisturbedRun(s: State, r: nat, now: Instant, cfg: Config)
    ensures var a := Undisturbed(r, s.nextToken, now);
            Run(s, a, cfg) == Step(Step(Step(Step(Step(s, a[0], cfg), a[1], cfg), a[2], cfg), a[3], cfg), a[4], cfg)
  {
    hide Step, Run;
    var a := Undisturbed(r, s.nextToken, now);
    RunStepwise(s, a, cfg);
    assert a[..0] == [] && a[..5] == a;
  }

  lemma SendReaches(s: State, r: nat, t: nat, cfg: Config)
    requires At(s, t, Sending) && s.attempts[t].reminder == r
    ensures var n := Step(s, SendReturns(t, SendAccepted), cfg); r < |n.ledgers| && t in n.ledgers[r].reached
  {}

  lemma MarkLeavesLedgers(s: State, t: nat, now: Instant, delay: int, cfg: Config)
    ensures Step(s, Mark(t, now, delay), cfg).ledgers == s.ledgers
  {
    hide ReminderRows.Delivered, ReminderRows.Rejected, OutcomeUnknown;
  }

  lemma ClaimedDelivers(row: Row, item: Option<Item>, t: nat, now: Instant, limits: Limits)
    requires row.deliveryStartedAt.None? && !OutOfDate(row, item, now)
    ensures var claimed := ReminderRows.Claimed(row, now, t);
            && Check(claimed, t, item, now, None).Deliver? && Checked(claimed, CheckResult.Deliver, now) == claimed
            && MayStart(claimed, t) && claimed.item == row.item
            && ReminderRows.Delivered(Started(claimed, t, now), t, now).status.Sent?
            && ReminderRows.Delivered(Started(claimed, t, now), t, now).sentAt == Some(now)
  {}

  // ---------------------------------------------------------------- a chance is needed, too

  /** An undisturbed worker that meets the reminder at this instant reaches the user. */
  predicate Reaches(s: State, r: nat, at: Instant, cfg: Config) {
    var n := Run(s, Undisturbed(r, s.nextToken, at), cfg);
    r < |n.ledgers| && s.nextToken in n.ledgers[r].reached
  }

  /** The attempt cannot start: it does not exist, it is over, or its reminder was started before. */
  predicate Stuck(s: State, r: nat, t: nat) {
    t in s.attempts ==>
      && s.attempts[t].reminder == r && r < |s.board.rows|
      && (s.attempts[t].pc.Over? || ((s.attempts[t].pc.Claimed? || s.attempts[t].pc.Ready?) && s.board.rows[r].deliveryStartedAt.Some?))
  }

  lemma SweptHasNoChance(row: Row, now: Instant, limits: Limits)
    requires !HasChance(row, now, limits)
    ensures Claimable(Swept(row, now, limits), now, limits) ==> Swept(row, now, limits).deliveryStartedAt.Some?
  {}

  lemma TokenIsFresh(s: State, cfg: Config)
    requires Inv(s, cfg)
    ensures s.nextToken !in s.attempts
  {}

  lemma ClaimSticks(s: State, r: nat, now: Instant, cfg: Config)
    requires Inv(s, cfg) && r < |s.board.rows| && !HasChance(s.board.rows[r], now, cfg.limits)
    ensures var n := Step(s, ClaimBatch([r], now, 1), cfg); Stuck(n, r, s.nextToken) && n.ledgers == s.ledgers
  {
    hide Inv, Swept, Claimable, HasChance, ClaimDue, WithClaims;
    TokenIsFresh(s, cfg);
    SweptHasNoChance(s.board.rows[r], now, cfg.limits);
    ClaimDueOfOne(s.board.rows, s.nextToken, r, now, cfg.limits);
    AttemptOfOne(s.attempts, r, s.nextToken);
  }

  /** An outdated reminder is claimed and cancelled. */
  lemma OutdatedSticks(s: State, r: nat, t: nat, now: Instant, cfg: Config)
    requires At(s, t, Pc.Claimed) && s.attempts[t].reminder == r
    requires OutOfDate(s.board.rows[r], ItemOf(s.board, s.board.rows[r]), now)
    ensures var n := Step(s, CheckClaim(t, now, None), cfg); Stuck(n, r, t) && n.ledgers == s.ledgers
  {
    hide OutOfDate;
  }

  lemma StuckChecks(s: State, r: nat, t: nat, now: Instant, cfg: Config)
    requires Stuck(s, r, t)
    ensures var n := Step(s, CheckClaim(t, now, None), cfg); Stuck(n, r, t) && n.ledgers == s.ledgers
  {
    hide OutOfDate;
  }

  lemma StuckStays(s: State, r: nat, t: nat, now: Instant, cfg: Config)
    requires Stuck(s, r, t)
    ensures Step(Step(Step(s, Start(t, now), cfg), SendReturns(t, SendAccepted), cfg), Mark(t, now, 1), cfg).ledgers == s.ledgers
  {
    var n3 := Step(s, Start(t, now), cfg);
    assert n3.ledgers == s.ledgers && !At(n3, t, Sending);
    var n4 := Step(n3, SendReturns(t, SendAccepted), cfg);
    assert n4 == n3;
    MarkLeavesLedgers(n4, t, now, 1, cfg);
  }

  lemma FreshReachedNobody(s: State, r: nat, cfg: Config)
    requires Inv(s, cfg) && r < |s.board.rows|
    ensures r < |s.ledgers| && s.nextToken !in s.ledgers[r].reached
  {
    InvParts(s, cfg);
    forall t | t in s.ledgers[r].reached ensures t in s.attempts {
      assert RowOk(s.board.rows[r], s.ledgers[r], cfg);
      assert TokenKnown(s, r, Some(t));
    }
  }

  lemma ReachedByChance(s: State, r: nat, at: Instant, cfg: Config)
    requires Inv(s, cfg) && cfg.linked && r < |s.board.rows|
    ensures Reaches(s, r, at, cfg) <==>
              HasChance(s.board.rows[r], at, cfg.limits) && !OutOfDate(s.board.rows[r], ItemOf(s.board, s.board.rows[r]), at)
  {
    hide Step, Run, Inv, HasChance, OutOfDate, Stuck;
    var t := s.nextToken;
    var a := Undisturbed(r, t, at);
    var row := s.board.rows[r];
    if HasChance(row, at, cfg.limits) && !OutOfDate(row, ItemOf(s.board, row), at) {
      ChanceSuffices(s, r, at, cfg);
    } else {
      UndisturbedRun(s, r, at, cfg);
      FreshReachedNobody(s, r, cfg);
      var n1 := Step(s, a[0], cfg);
      if HasChance(row, at, cfg.limits) {
        ClaimOfOne(s, r, at, cfg);
        ClaimKeepsFit(s, n1, r, at, t);
        ClaimLeavesLedgers(s, r, at, cfg);
        OutdatedSticks(n1, r, t, at, cfg);
      } else {
        ClaimSticks(s, r, at, cfg);
        StuckChecks(n1, r, t, at, cfg);
      }
      StuckStays(Step(n1, a[1], cfg), r, t, at, cfg);
    }
  }

  lemma ClaimLeavesLedgers(s: State, r: nat, now: Instant, cfg: Config)
    ensures Step(s, ClaimBatch([r], now, 1), cfg).ledgers == s.ledgers
  {
    hide ClaimDue;
  }

  lemma ClaimKeepsFit(s: State, n: State, r: nat, now: Instant, t: nat)
    requires r < |s.board.rows| == |n.board.rows| && n.board.items == s.board.items
    requires n.board.rows[r] == ReminderRows.Claimed(s.board.rows[r], now, t)
    ensures OutOfDate(n.board.rows[r], ItemOf(n.board, n.board.rows[r]), now) == OutOfDate(s.board.rows[r], ItemOf(s.board, s.board.rows[r]), now)
  {}

  // ---------------------------------------------------------------- what decides the next delivery

  /** A reminder the program manages fits while its item is open and has the date it refers to; an early one, only until
      that date. */
  predicate FitsItem(s: State, r: nat, at: Instant) {
    && r < |s.board.rows|
    && var row := s.board.rows[r];
       || row.kind.Manual?
       || (&& row.item.Some? && row.item.value < |s.board.items| && row.referenceAt.Some?
           && var item := s.board.items[row.item.value];
              && !item.status.Done? && !item.status.Cancelled? && !item.status.Archived?
              && (if item.itype.FollowUp? then item.followUpAt else item.dueAt) == row.referenceAt
              && (row.kind.BeforeDeadline? ==> at < row.referenceAt.value))
  }

  /** A reminder comes up when its time has come, and again when the lease of its claim has run out. */
  predicate ComesUp(row: Row, at: Instant, timeout: int) {
    match row.status
    case Pending => (if row.nextAttemptAt.Some? then row.nextAttemptAt.value else row.scheduledAt) <= at
    case Snoozed => row.snoozedUntil.Some? && row.snoozedUntil.value <= at
    case Processing => row.processingStartedAt.Some? && row.processingStartedAt.value + timeout <= at
    case _ => false
  }

  lemma FitsMeans(s: State, r: nat, at: Instant)
    requires r < |s.board.rows|
    ensures FitsItem(s, r, at) <==> !OutOfDate(s.board.rows[r], ItemOf(s.board, s.board.rows[r]), at)
  {}

  /** Exactly: an undisturbed worker reaches the user if and only if the reminder has come up, has attempts left, was never
      started, and fits its work item. */
  lemma ReachedExactly(s: State, r: nat, at: Instant, cfg: Config)
    requires Inv(s, cfg) && cfg.linked && r < |s.board.rows|
    ensures var row := s.board.rows[r];
            Reaches(s, r, at, cfg) <==>
              row.deliveryStartedAt.None? && row.attempts < cfg.limits.maxAttempts && ComesUp(row, at, cfg.limits.timeout)
              && FitsItem(s, r, at)
  {
    hide Inv, Reaches, FitsItem, OutOfDate;
    ReachedByChance(s, r, at, cfg);
    FitsMeans(s, r, at);
  }

  /** A claim whose worker gave no sign before the start is taken up again, exactly once its lease has run out. */
  lemma AbandonedDecides(s: State, r: nat, at: Instant, cfg: Config)
    requires Inv(s, cfg) && cfg.linked && r < |s.board.rows|
    requires s.board.rows[r].status.Processing? && s.board.rows[r].deliveryStartedAt.None? && s.board.rows[r].processingStartedAt.Some?
    ensures Reaches(s, r, at, cfg) <==>
              && s.board.rows[r].processingStartedAt.value + cfg.limits.timeout <= at
              && s.board.rows[r].attempts < cfg.limits.maxAttempts && FitsItem(s, r, at)
  {
    hide Inv, Reaches, FitsItem;
    ReachedExactly(s, r, at, cfg);
  }

  /** The same from the start: a worker claims a reminder and crashes; another reaches the user exactly once the lease has
      run out, if the crash left an attempt. */
  lemma CrashedClaimDecides(s: State, r: nat, now: Instant, at: Instant, cfg: Config)
    requires Inv(s, cfg) && cfg.linked && r < |s.board.rows|
    requires var row := s.board.rows[r];
             row.deliveryStartedAt.None? && row.attempts < cfg.limits.maxAttempts && ComesUp(row, now, cfg.limits.timeout)
    ensures var n := Run(s, [ClaimBatch([r], now, 1), Crash(s.nextToken, false)], cfg);
            Reaches(n, r, at, cfg) <==>
              now + cfg.limits.timeout <= at && s.board.rows[r].attempts + 1 < cfg.limits.maxAttempts && FitsItem(s, r, at)
  {
    hide Inv, Reaches, Step, Run, HasChance, OutOfDate;
    var claim, crash := ClaimBatch([r], now, 1), Crash(s.nextToken, false);
    var n1 := Step(s, claim, cfg);
    var n2 := Step(n1, crash, cfg);
    ComesUpIsChance(s.board.rows[r], now, cfg.limits);
    ClaimOfOne(s, r, now, cfg);
    CrashLeavesBoard(n1, s.nextToken, cfg);
    RunConcat(s, [claim], [crash], cfg);
    assert [claim] + [crash] == [claim, crash];
    RunOne(s, claim, cfg);
    RunOne(n1, crash, cfg);
    StepInv(s, claim, cfg);
    StepInv(n1, crash, cfg);
    ReachedExactly(n2, r, at, cfg);
  }

  lemma ComesUpIsChance(row: Row, at: Instant, limits: Limits)
    ensures HasChance(row, at, limits) <==>
              row.deliveryStartedAt.None? && row.attempts < limits.maxAttempts && ComesUp(row, at, limits.timeout)
  {}

  lemma CrashLeavesBoard(s: State, t: nat, cfg: Config)
    ensures Step(s, Crash(t, false), cfg).board == s.board
  {}

  /** What becomes of one row decides from when on the user can be reached. */
  lemma ChanceDecides(s: State, a: Action, r: nat, row: Row, later: Instant, cfg: Config)
    requires Inv(s, cfg) && cfg.linked && r < |s.board.rows|
    requires var n := Step(s, a, cfg);
             && r < |n.board.rows| && n.board.items == s.board.items && n.board.rows[r] == row
             && row.item == s.board.rows[r].item && row.kind == s.board.rows[r].kind && row.referenceAt == s.board.rows[r].referenceAt
    ensures Reaches(Step(s, a, cfg), r, later, cfg) <==> HasChance(row, later, cfg.limits) && FitsItem(s, r, later)
  {
    hide Inv, Step, HasChance, Reaches;
    StepInv(s, a, cfg);
    ReachedByChance(Step(s, a, cfg), r, later, cfg);
    FitsMeans(s, r, later);
    FitsMeans(Step(s, a, cfg), r, later);
  }

  /** After its outcome was recorded, a reminder reaches the user again exactly if it was refused for now, with attempts
      left, once the retry delay is over. */
  lemma OutcomeDecides(s: State, t: nat, now: Instant, delay: int, later: Instant, cfg: Config)
    requires Inv(s, cfg) && cfg.linked && t in s.attempts && At(s, t, s.attempts[t].pc)
    requires HeldBy(s.board.rows[s.attempts[t].reminder], t)
    requires s.attempts[t].pc.Accepted? || s.attempts[t].pc.Rejected? || s.attempts[t].pc.Unclear?
    ensures var r := s.attempts[t].reminder;
            Reaches(Step(s, Mark(t, now, delay), cfg), r, later, cfg) <==>
              && s.attempts[t].pc == Pc.Rejected(false) && s.board.rows[r].attempts < cfg.limits.maxAttempts
              && later >= now + delay && FitsItem(s, r, later)
  {
    hide Inv, Step, Reaches, HasChance, Claimable, FitsItem, ReminderRows.Delivered, ReminderRows.Rejected, OutcomeUnknown;
    var r, pc := s.attempts[t].reminder, s.attempts[t].pc;
    var row := s.board.rows[r];
    InvParts(s, cfg);
    MarkGoes(s, r, t, pc, now, delay, cfg);
    MarkedStays(row, t, pc, now, delay, cfg);
    ItemsStand(s, Mark(t, now, delay), cfg);
    ChanceDecides(s, Mark(t, now, delay), r, Marked(row, t, pc, now, delay, cfg), later, cfg);
    OutcomesDecideChances(row, t, now, pc == Pc.Rejected(true), delay, cfg.limits);
    if pc.Rejected? && !pc.permanent && row.attempts < cfg.limits.maxAttempts {
      assert HasChanceFrom(ReminderRows.Rejected(row, t, now, false, delay, cfg.limits), now + delay, cfg.limits);
    } else {
      NoChanceAt(Marked(row, t, pc, now, delay, cfg), later, cfg.limits);
    }
  }

  lemma NoChanceAt(row: Row, at: Instant, limits: Limits)
    requires HasNoChance(row, limits)
    ensures !HasChance(row, at, limits)
  {}

  lemma MarkedStays(row: Row, t: nat, pc: Pc, now: Instant, delay: int, cfg: Config)
    ensures var marked := Marked(row, t, pc, now, delay, cfg);
            marked.item == row.item && marked.kind == row.kind && marked.referenceAt == row.referenceAt
  {}

  lemma ItemsStand(s: State, a: Action, cfg: Config)
    requires !a.Manage? && !a.CaptureItem?
    ensures Step(s, a, cfg).board.items == s.board.items
  {
    hide StepManage, Capture, EnsureDigest, ClaimDue, Check, Checked;
  }

  /** A retried reminder reaches the user from the retry on. */
  lemma RetryDecides(s: State, r: nat, now: Instant, later: Instant, cfg: Config)
    requires Inv(s, cfg) && cfg.linked && r < |s.board.rows| && s.board.rows[r].status.DeliveryUnknown?
    ensures Reaches(Step(s, OperatorRetries(r, now), cfg), r, later, cfg) <==> later >= now && FitsItem(s, r, later)
  {
    hide Inv, Reaches, HasChance, FitsItem;
    InvParts(s, cfg);
    RequestsDecideChances(s.board.rows[r], now, now, cfg.limits);
    ChanceDecides(s, OperatorRetries(r, now), r, Retried(s.board.rows[r], now), later, cfg);
    assert HasChanceFrom(Retried(s.board.rows[r], now), now, cfg.limits);
  }

  /** A snoozed reminder reaches the user from the end of its sleep on, unless a delivery of it was begun and never cleared. */
  lemma SnoozeDecides(s: State, q: Request, later: Instant, cfg: Config)
    requires Inv(s, cfg) && cfg.linked && q.op.OpSnooze? && Handle(s.board, q).outcome.Applied?
    ensures q.op.row < |s.board.rows|
    ensures Reaches(Step(s, Manage(q), cfg), q.op.row, later, cfg) <==>
              s.board.rows[q.op.row].deliveryStartedAt.None? && later >= q.op.until && FitsItem(s, q.op.row, later)
  {
    hide Inv, Reaches, HasChance, FitsItem;
    InvParts(s, cfg);
    var row := s.board.rows[q.op.row];
    RequestsDecideChances(row, q.now, q.op.until, cfg.limits);
    ChanceDecides(s, Manage(q), q.op.row, Postponed(row, q.op.until), later, cfg);
    assert row.deliveryStartedAt.None? ==> HasChanceFrom(Postponed(row, q.op.until), q.op.until, cfg.limits);
  }

  /** A reminder deferred for quiet hours reaches the user from their end on, if it has attempts left and no delivery of it
      was begun. */
  lemma DeferralDecides(s: State, quiet: map<nat, Instant>, now: Instant, r: nat, later: Instant, cfg: Config)
    requires Inv(s, cfg) && cfg.linked && r < |s.board.rows| && r in quiet && QuietCandidate(s.board.rows[r], now)
    ensures Reaches(Step(s, DeferForQuietHours(quiet, now), cfg), r, later, cfg) <==>
              && s.board.rows[r].attempts < cfg.limits.maxAttempts && s.board.rows[r].deliveryStartedAt.None?
              && later >= quiet[r] && FitsItem(s, r, later)
  {
    hide Inv, Reaches, FitsItem;
    ChanceDecides(s, DeferForQuietHours(quiet, now), r, DeferredForQuiet(s.board.rows[r], quiet[r]), later, cfg);
  }

  /** A reminder that its user cancelled reaches nobody. */
  lemma CancelDecides(s: State, r: nat, now: Instant, later: Instant, cfg: Config)
    requires Inv(s, cfg) && cfg.linked && r < |s.board.rows| && MayCancel(s.board.rows[r])
    ensures !Reaches(Step(s, UserCancels(r, now), cfg), r, later, cfg)
  {
    hide Inv, Reaches, FitsItem;
    ChanceDecides(s, UserCancels(r, now), r, CancelledByUser(s.board.rows[r], now), later, cfg);
  }

  /** A claim released for quiet hours reaches the user from their end on, even if it was the last attempt allowed. */
  lemma ReleaseDecides(s: State, t: nat, now: Instant, until: Instant, later: Instant, cfg: Config)
    requires Inv(s, cfg) && cfg.linked && At(s, t, Pc.Claimed)
    requires var row := s.board.rows[s.attempts[t].reminder]; Check(row, t, ItemOf(s.board, row), now, Some(until)).Deferred?
    ensures var r := s.attempts[t].reminder;
            Reaches(Step(s, CheckClaim(t, now, Some(until)), cfg), r, later, cfg) <==>
              s.board.rows[r].deliveryStartedAt.None? && later >= until && FitsItem(s, r, later)
  {
    hide Inv, Reaches, FitsItem, OutOfDate;
    var r := s.attempts[t].reminder;
    var row := s.board.rows[r];
    InvParts(s, cfg);
    InvAt(s, r, cfg);
    ReleasedChance(row, t, ItemOf(s.board, row), now, until, later, cfg.limits);
    ChanceDecides(s, CheckClaim(t, now, Some(until)), r, Checked(row, Check(row, t, ItemOf(s.board, row), now, Some(until)), now), later, cfg);
  }

  lemma ReleasedChance(row: Row, token: nat, item: Option<Item>, now: Instant, until: Instant, later: Instant, limits: Limits)
    requires ValidLimits(limits) && 1 <= row.attempts <= limits.maxAttempts
    requires Check(row, token, item, now, Some(until)).Deferred?
    ensures HasChance(Checked(row, Check(row, token, item, now, Some(until)), now), later, limits) <==>
              row.deliveryStartedAt.None? && later >= until
  {
    hide OutOfDate;
  }

  /** A reminder that is new and pending, whichever action made it, reaches the user exactly from its scheduled time on. */
  lemma NewReminderDecides(s: State, a: Action, r: nat, later: Instant, cfg: Config)
    requires Inv(s, cfg) && cfg.linked && |s.board.rows| <= r < |Step(s, a, cfg).board.rows|
    requires Step(s, a, cfg).board.rows[r].status.Pending?
    ensures var n := Step(s, a, cfg);
            Reaches(n, r, later, cfg) <==> later >= n.board.rows[r].scheduledAt && FitsItem(n, r, later)
  {
    hide Inv, Step, Reaches;
    StepInv(s, a, cfg);
    InvParts(s, cfg);
    NewIsUntouched(s, a, r, cfg);
    ReachedByChance(Step(s, a, cfg), r, later, cfg);
  }

  lemma NewIsUntouched(s: State, a: Action, r: nat, cfg: Config)
    requires Inv(s, cfg) && |s.board.rows| <= r < |Step(s, a, cfg).board.rows|
    ensures var row := Step(s, a, cfg).board.rows[r]; row.attempts == 0 && row.deliveryStartedAt.None? && row.nextAttemptAt.None?
  {
    hide Inv, Mutated, Allowed, Effective, Capture, RowsOk, KeepsAgreement, ClosesQuietly, ClaimDue, DeferDue, Check, Checked;
    InvParts(s, cfg);
    match a
    case Manage(q) =>
      if Handle(s.board, q).outcome.Applied? && !q.op.OpSnooze? {
        MutatedEvolves(s.board, q.origin, q.now, q.op);
        assert BrandNew(Step(s, a, cfg).board.rows[r]);
      } else {
        SnoozeAddsNothing(s.board, q);
      }
    case CaptureItem(itype, status, dueAt, followUpAt, custom, draftItem, lead, now) =>
      if OpenStatus(status) {
        CaptureEvolves(s.board, itype, status, dueAt, followUpAt, custom, draftItem, lead, now);
        assert BrandNew(Step(s, a, cfg).board.rows[r]);
      }
    case DailyDigest(_, _, _, _) =>
    case LegacyDigest(_, _, _) =>
    case _ => OthersAddNothing(s, a, cfg);
  }

  lemma OthersAddNothing(s: State, a: Action, cfg: Config)
    requires ValidLimits(cfg.limits) && !a.Manage? && !a.CaptureItem? && !a.DailyDigest? && !a.LegacyDigest?
    ensures |Step(s, a, cfg).board.rows| == |s.board.rows|
  {
    hide StepManage, Capture, ClaimDue, Check, Checked, Claimable;
    if a.ClaimBatch? {
      ClaimDueIs(s.board.rows, s.nextToken, a.order, a.now, a.limit, cfg.limits);
    }
  }

  lemma SnoozeAddsNothing(b: Board, q: Request)
    requires q.op.OpSnooze? || !Handle(b, q).outcome.Applied?
    ensures |Handle(b, q).board.rows| == |b.rows|
  {}
}
