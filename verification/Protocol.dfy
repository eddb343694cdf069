/** The delivery protocol: any number of workers, users and operators acting on one board of reminders, one
    transaction at a time. A run is a sequence of actions; choices the system does not control (clocks, locked
    rows, the outcome of a send, crashes) are part of the action. */
module Protocol {
  import opened Core
  import opened DedupKeys
  import opened ReminderRows
  import opened ReminderSync
  import opened ReminderService
  import opened WorkItems
  import opened BoardSteps

  /** Where a delivery attempt stands in the worker's program. */
  datatype Pc = Claimed | Ready | NoChat | Sending | Accepted | Rejected(permanent: bool) | Unclear | Over

  /** One claim of one reminder, identified by its token. */
  datatype Attempt = Attempt(reminder: nat, pc: Pc)

  /** The history of one reminder: the attempts whose network call began, those the messenger refused for
      certain, those that reached the user, and how often a delivered reminder was snoozed back to life and
      an unclear one was retried by an operator. */
  datatype Ledger = Ledger(started: set<nat>, refused: set<nat>, reached: set<nat>, resends: nat, retries: nat)

  const NO_HISTORY := Ledger({}, {}, {}, 0, 0)

  /** The deployment: delivery limits, and whether the user has a chat to deliver to. */
  datatype Config = Config(limits: Limits, linked: bool)

  datatype State = State(board: Board, attempts: map<nat, Attempt>, nextToken: nat, ledgers: seq<Ledger>)

  const EMPTY := State(Board([], [], [], []), map[], 0, [])

  datatype SendOutcome = SendAccepted | PermanentError | RetryAfter | NoAnswer(reached: bool)

  datatype Action =
    | Manage(q: Request)
    | CaptureItem(itype: WorkItemType, status: WorkItemStatus, dueAt: Option<Instant>, followUpAt: Option<Instant>,
                  custom: Option<Instant>, draftItem: nat, leadMinutes: nat, now: Instant)
    | DeferForQuietHours(quiet: map<nat, Instant>, now: Instant)
    | DailyDigest(rtype: ReminderType, date: int, at: Instant, now: Instant)
    | LegacyDigest(rtype: ReminderType, date: int, at: Instant)
    | DropFutureDigests(rtype: ReminderType, now: Instant)
    | ClaimBatch(order: seq<nat>, now: Instant, limit: nat)
    | CheckClaim(token: nat, now: Instant, quietUntil: Option<Instant>)
    | GiveUpDigest(token: nat, now: Instant)
    | Build(token: nat)
    | Start(token: nat, now: Instant)
    | SendReturns(token: nat, outcome: SendOutcome)
    | Mark(token: nat, now: Instant, retryDelay: int)
    | Crash(token: nat, reached: bool)
    | UserCancels(r: nat, now: Instant)
    | OperatorRetries(r: nat, now: Instant)

  function DigestKey(rtype: ReminderType, date: int): string {
    "digest:" + TypeText(rtype) + ":" + Signed(date)
  }

  function SetRows(s: State, rows: seq<Row>): State {
    s.(board := s.board.(rows := rows), ledgers := s.ledgers + seq(Max(0, |rows| - |s.ledgers|), i => NO_HISTORY))
  }

  function SetBoard(s: State, board: Board): State {
    SetRows(s, board.rows).(board := board)
  }

  function SetRow(s: State, r: nat, row: Row): State
    requires r < |s.board.rows|
  {
    s.(board := s.board.(rows := s.board.rows[r := row]))
  }

  function SetLedger(s: State, r: nat, ledger: Ledger): State
    requires r < |s.ledgers|
  {
    s.(ledgers := s.ledgers[r := ledger])
  }

  function SetPc(s: State, t: nat, pc: Pc): State
    requires t in s.attempts
  {
    s.(attempts := s.attempts[t := s.attempts[t].(pc := pc)])
  }

  function WithClaims(attempts: map<nat, Attempt>, claims: seq<(nat, nat)>): map<nat, Attempt> {
    if claims == [] then attempts
    else
      var last := claims[|claims| - 1];
      WithClaims(attempts, claims[..|claims| - 1])[last.1 := Attempt(last.0, Claimed)]
  }

  function AfterBatch(s: State, batch: Batch): State {
    State(s.board.(rows := batch.rows), WithClaims(s.attempts, batch.claims), batch.nextToken, s.ledgers)
  }

  /** Whether the attempt exists and stands at the given point. */
  predicate At(s: State, t: nat, pc: Pc) {
    t in s.attempts && s.attempts[t].pc == pc && s.attempts[t].reminder < |s.board.rows| && s.attempts[t].reminder < |s.ledgers|
  }

  function ItemOf(b: Board, row: Row): Option<Item> {
    if row.item.Some? && row.item.value < |b.items| then Some(b.items[row.item.value]) else None
  }

  function StepManage(s: State, q: Request): State {
    var reply := Handle(s.board, q);
    var next := SetBoard(s, reply.board);
    if reply.outcome.Applied? && q.op.OpSnooze? && q.op.row < |s.board.rows| && q.op.row < |next.ledgers|
       && s.board.rows[q.op.row].status.Sent? then
      SetLedger(next, q.op.row, next.ledgers[q.op.row].(resends := next.ledgers[q.op.row].resends + 1))
    else next
  }

  function StepCheck(s: State, t: nat, now: Instant, quietUntil: Option<Instant>): State {
    if !At(s, t, Claimed) then s
    else
      var r := s.attempts[t].reminder;
      var row := s.board.rows[r];
      var result := Check(row, t, ItemOf(s.board, row), now, quietUntil);
      SetPc(SetRow(s, r, Checked(row, result, now)), t, if result.Deliver? then Ready else Over)
  }

  function StepStart(s: State, t: nat, now: Instant, cfg: Config): State {
    if !At(s, t, Ready) || !cfg.linked then s
    else
      var r := s.attempts[t].reminder;
      var row := s.board.rows[r];
      if !MayStart(row, t) then SetPc(s, t, Over)
      else
        var ledger := s.ledgers[r].(started := s.ledgers[r].started + {t});
        SetPc(SetLedger(SetRow(s, r, Started(row, t, now)), r, ledger), t, Sending)
  }

  function StepSend(s: State, t: nat, outcome: SendOutcome): State {
    if !At(s, t, Sending) then s
    else
      var r := s.attempts[t].reminder;
      var ledger := s.ledgers[r];
      match outcome
      case SendAccepted => SetPc(SetLedger(s, r, ledger.(reached := ledger.reached + {t})), t, Accepted)
      case PermanentError => SetPc(SetLedger(s, r, ledger.(refused := ledger.refused + {t})), t, Pc.Rejected(true))
      case RetryAfter => SetPc(SetLedger(s, r, ledger.(refused := ledger.refused + {t})), t, Pc.Rejected(false))
      case NoAnswer(reached) =>
        SetPc(if reached then SetLedger(s, r, ledger.(reached := ledger.reached + {t})) else s, t, Unclear)
  }

  /** The worker records what it knows, and is done with the claim. */
  function StepMark(s: State, t: nat, now: Instant, retryDelay: int, cfg: Config): State {
    if t !in s.attempts || s.attempts[t].reminder >= |s.board.rows| then s
    else
      var r := s.attempts[t].reminder;
      var row := s.board.rows[r];
      match s.attempts[t].pc
      case Accepted => SetPc(SetRow(s, r, ReminderRows.Delivered(row, t, now)), t, Over)
      case Rejected(permanent) => SetPc(SetRow(s, r, ReminderRows.Rejected(row, t, now, permanent, retryDelay, cfg.limits)), t, Over)
      case NoChat => SetPc(SetRow(s, r, ReminderRows.Rejected(row, t, now, true, retryDelay, cfg.limits)), t, Over)
      case Unclear => SetPc(SetRow(s, r, OutcomeUnknown(row, t, now)), t, Over)
      case _ => s
  }

  function StepCrash(s: State, t: nat, reached: bool): State {
    if t !in s.attempts then s
    else if reached && At(s, t, Sending) then
      var r := s.attempts[t].reminder;
      SetPc(SetLedger(s, r, s.ledgers[r].(reached := s.ledgers[r].reached + {t})), t, Over)
    else SetPc(s, t, Over)
  }

  function StepGiveUp(s: State, t: nat, now: Instant): State {
    if !At(s, t, Ready) || !Digest(s.board.rows[s.attempts[t].reminder]) then s
    else
      var r := s.attempts[t].reminder;
      SetPc(SetRow(s, r, Dropped(s.board.rows[r], t, now)), t, Over)
  }

  function StepRetry(s: State, r: nat, now: Instant): State {
    if r >= |s.board.rows| || r >= |s.ledgers| || !s.board.rows[r].status.DeliveryUnknown? then s
    else SetLedger(SetRow(s, r, Retried(s.board.rows[r], now)), r, s.ledgers[r].(retries := s.ledgers[r].retries + 1))
  }

  function Step(s: State, a: Action, cfg: Config): State {
    match a
    case Manage(q) => StepManage(s, q)
    case CaptureItem(itype, status, dueAt, followUpAt, custom, draftItem, lead, now) =>
      if OpenStatus(status) then SetBoard(s, Capture(s.board, itype, status, dueAt, followUpAt, custom, draftItem, lead, now)) else s
    case DeferForQuietHours(quiet, now) => SetRows(s, DeferDue(s.board.rows, quiet, now))
    case DailyDigest(rtype, date, at, now) =>
      if rtype.MorningDigest? || rtype.EveningDigest? then
        SetRows(s, EnsureDigest(s.board.rows, rtype, date, DigestKey(rtype, date), at, now))
      else s
    case LegacyDigest(rtype, date, at) =>
      if rtype.MorningDigest? || rtype.EveningDigest? then
        SetRows(s, s.board.rows + [NewRow(None, rtype, Manual, DigestKey(rtype, date), at, None, Some(date), true)])
      else s
    case DropFutureDigests(rtype, now) =>
      if rtype.MorningDigest? || rtype.EveningDigest? then SetRows(s, CancelFutureDigests(s.board.rows, rtype, now)) else s
    case ClaimBatch(order, now, limit) =>
      AfterBatch(s, ClaimDue(s.board.rows, s.nextToken, order, now, limit, cfg.limits))
    case CheckClaim(t, now, quietUntil) => StepCheck(s, t, now, quietUntil)
    case GiveUpDigest(t, now) => StepGiveUp(s, t, now)
    case Build(t) => if At(s, t, Ready) && !cfg.linked then SetPc(s, t, NoChat) else s
    case Start(t, now) => StepStart(s, t, now, cfg)
    case SendReturns(t, outcome) => StepSend(s, t, outcome)
    case Mark(t, now, retryDelay) => StepMark(s, t, now, retryDelay, cfg)
    case Crash(t, reached) => StepCrash(s, t, reached)
    case UserCancels(r, now) =>
      if r < |s.board.rows| then SetRow(s, r, CancelledByUser(s.board.rows[r], now)) else s
    case OperatorRetries(r, now) => StepRetry(s, r, now)
  }

  function Run(s: State, actions: seq<Action>, cfg: Config): State
    decreases |actions|
  {
    if actions == [] then s else Run(Step(s, actions[0], cfg), actions[1..], cfg)
  }

  lemma {:induction false} RunConcat(s: State, first: seq<Action>, second: seq<Action>, cfg: Config)
    ensures Run(s, first + second, cfg) == Run(Run(s, first, cfg), second, cfg)
    decreases |first|
  {
    hide Step;
    if first == [] {
      assert first + second == second;
    } else {
      assert (first + second)[1..] == first[1..] + second;
      RunConcat(Step(s, first[0], cfg), first[1..], second, cfg);
    }
  }

  lemma RunOne(s: State, a: Action, cfg: Config)
    ensures Run(s, [a], cfg) == Step(s, a, cfg)
  {
    assert Run(Step(s, a, cfg), [a][1..], cfg) == Step(s, a, cfg);
  }

  // ---------------------------------------------------------------- the invariant

  /** Starts that the messenger did not certainly refuse: each of them may have reached the user. */
  function MaybeDelivered(ledger: Ledger): nat {
    |ledger.started - ledger.refused|
  }

  function Renewals(ledger: Ledger): nat {
    ledger.resends + ledger.retries
  }

  predicate RowOk(row: Row, ledger: Ledger, cfg: Config) {
    && 0 <= row.attempts <= cfg.limits.maxAttempts
    && (row.status.Processing? ==> row.token.Some? && row.attempts >= 1)
    && (row.status.Sent? ==> row.sentAt.Some? && row.deliveryStartedAt.None?)
    && (row.status.DeliveryUnknown? ==> row.deliveryStartedAt.Some?)
    && (Digest(row) && row.sentAt.Some? ==> row.status.Sent?)
    && MaybeDelivered(ledger) <= 1 + Renewals(ledger)
    && (row.deliveryStartedAt.None? && !row.status.Sent? ==> MaybeDelivered(ledger) <= Renewals(ledger))
    && (!cfg.linked ==> ledger.started == {} && row.deliveryStartedAt.None?)
    && ledger.refused <= ledger.started && ledger.reached <= ledger.started - ledger.refused
  }

  predicate AttemptOk(row: Row, ledger: Ledger, items: seq<Item>, t: nat, pc: Pc, cfg: Config) {
    && (pc.Claimed? || pc.Ready? || pc.NoChat? ==> t !in ledger.started)
    && (pc.Sending? ==> t in ledger.started && t !in ledger.refused && t !in ledger.reached)
    && (pc.NoChat? ==> !cfg.linked)
    && (HeldBy(row, t) ==>
         && (pc.Ready? ==> Agrees(items, row))
         && (pc.Sending? || pc.Accepted? || pc.Rejected? || pc.Unclear? ==> row.deliveryStartedAt.Some?)
         && (pc.Rejected? ==> MaybeDelivered(ledger) <= Renewals(ledger)))
  }

  predicate RowsFine(s: State, cfg: Config) {
    && |s.ledgers| == |s.board.rows|
    && forall r :: 0 <= r < |s.board.rows| ==> RowOk(s.board.rows[r], s.ledgers[r], cfg)
  }

  predicate TokensFine(s: State) {
    && |s.ledgers| == |s.board.rows|
    && (forall t <- s.attempts :: t < s.nextToken && s.attempts[t].reminder < |s.board.rows|)
    && (forall r :: 0 <= r < |s.board.rows| ==> TokenKnown(s, r, s.board.rows[r].token))
    && (forall r, t :: 0 <= r < |s.board.rows| && t in s.ledgers[r].started ==> TokenKnown(s, r, Some(t)))
  }

  predicate TokenKnown(s: State, r: nat, token: Option<nat>) {
    token.Some? ==> token.value in s.attempts && s.attempts[token.value].reminder == r
  }

  predicate AttemptsFine(s: State, cfg: Config)
    requires TokensFine(s)
  {
    forall t <- s.attempts ::
      AttemptOk(s.board.rows[s.attempts[t].reminder], s.ledgers[s.attempts[t].reminder], s.board.items, t, s.attempts[t].pc, cfg)
  }

  /** An item that is not open has an active reminder, managed or not, only where an operator revived one. */
  predicate DormantFine(s: State)
    requires |s.ledgers| == |s.board.rows|
  {
    forall r | 0 <= r < |s.board.rows| ::
      ActiveStatus(s.board.rows[r].status) && Dormant(s.board, r) ==> s.ledgers[r].retries > 0
  }

  predicate Inv(s: State, cfg: Config) {
    && ValidLimits(cfg.limits)
    && RowsOk(s.board.items, s.board.rows)
    && RowsFine(s, cfg)
    && TokensFine(s)
    && AttemptsFine(s, cfg)
    && DormantFine(s)
  }

  lemma EmptyInv(cfg: Config)
    requires ValidLimits(cfg.limits)
    ensures Inv(EMPTY, cfg)
  {}

  // ---------------------------------------------------------------- steps that hand out no claim

  predicate SameSends(a: Ledger, b: Ledger) {
    a.started == b.started && a.refused == b.refused && a.reached == b.reached
  }

  /** The row stands as it is, or is no longer being processed. */
  predicate RowRests(was: Row, before: Ledger, row: Row, after: Ledger, cfg: Config) {
    && SameSends(before, after)
    && ((row == was && after == before)
        || (!row.status.Processing? && (row.token == was.token || row.token.None?) && RowOk(row, after, cfg)))
  }

  predicate RowArrives(row: Row, ledger: Ledger) {
    && ledger == NO_HISTORY && row.attempts == 0 && row.token.None? && row.deliveryStartedAt.None? && row.sentAt.None?
    && (row.status.Pending? || row.status.Cancelled?)
  }

  predicate AttemptsRest(before: map<nat, Attempt>, after: map<nat, Attempt>) {
    && before.Keys == after.Keys
    && forall t <- before :: after[t] == before[t] || after[t] == before[t].(pc := Over)
  }

  /** Most actions end claims and make none: they keep the invariant if each row rests or newly arrives. */
  lemma RestingStep(s: State, n: State, cfg: Config)
    requires Inv(s, cfg)
    requires n.nextToken == s.nextToken && AttemptsRest(s.attempts, n.attempts)
    requires |s.board.rows| <= |n.board.rows| == |n.ledgers|
    requires forall r :: 0 <= r < |s.board.rows| ==>
               RowRests(s.board.rows[r], s.ledgers[r], n.board.rows[r], n.ledgers[r], cfg)
    requires forall r :: |s.board.rows| <= r < |n.board.rows| ==> RowArrives(n.board.rows[r], n.ledgers[r])
    requires RowsOk(n.board.items, n.board.rows)
    requires KeepsAgreement(s.board, n.board)
    requires DormantFine(n)
    ensures Inv(n, cfg)
  {
    hide RowsOk, Agrees, RowOk, DormantFine, Managed;
    forall r | 0 <= r < |n.board.rows| ensures RowOk(n.board.rows[r], n.ledgers[r], cfg) {
      if r < |s.board.rows| {
        assert RowRests(s.board.rows[r], s.ledgers[r], n.board.rows[r], n.ledgers[r], cfg);
      } else {
        ArrivalOk(n.board.rows[r], n.ledgers[r], cfg);
      }
    }
    assert TokensFine(n) by {
      forall r | 0 <= r < |n.board.rows| ensures TokenKnown(n, r, n.board.rows[r].token) {
        if r < |s.board.rows| {
          assert RowRests(s.board.rows[r], s.ledgers[r], n.board.rows[r], n.ledgers[r], cfg);
          assert TokenKnown(s, r, s.board.rows[r].token);
        }
      }
      forall r, t | 0 <= r < |n.board.rows| && t in n.ledgers[r].started ensures TokenKnown(n, r, Some(t)) {
        if r < |s.board.rows| {
          assert RowRests(s.board.rows[r], s.ledgers[r], n.board.rows[r], n.ledgers[r], cfg);
          assert TokenKnown(s, r, Some(t));
        }
      }
    }
    forall t <- n.attempts
      ensures AttemptOk(n.board.rows[n.attempts[t].reminder], n.ledgers[n.attempts[t].reminder], n.board.items, t, n.attempts[t].pc, cfg)
    {
      var r := s.attempts[t].reminder;
      assert AttemptOk(s.board.rows[r], s.ledgers[r], s.board.items, t, s.attempts[t].pc, cfg);
      assert RowRests(s.board.rows[r], s.ledgers[r], n.board.rows[r], n.ledgers[r], cfg);
    }
  }

  lemma ArrivalOk(row: Row, ledger: Ledger, cfg: Config)
    requires RowArrives(row, ledger) && ValidLimits(cfg.limits)
    ensures RowOk(row, ledger, cfg)
  {}

  /** The plain case: the items stand, and the rows change without leaving their places. */
  lemma RowsStep(s: State, rows: seq<Row>, cfg: Config)
    requires Inv(s, cfg)
    requires |s.board.rows| <= |rows|
    requires forall r :: 0 <= r < |s.board.rows| ==>
               && RowRests(s.board.rows[r], s.ledgers[r], rows[r], s.ledgers[r], cfg)
               && SamePlace(s.board.rows[r], rows[r]) && StaysAsleep(s.board.rows[r], rows[r])
    requires forall r :: |s.board.rows| <= r < |rows| ==>
               RowArrives(rows[r], NO_HISTORY) && KeyFits(rows[r]) && rows[r].item.None? && !Managed(rows[r])
    ensures Inv(SetRows(s, rows), cfg)
  {
    hide RowOk, KeyFits, Agrees, Managed, Digest;
    var n := SetRows(s, rows);
    forall r | 0 <= r < |s.board.rows| ensures KeyFits(rows[r]) && Digest(rows[r]) == Digest(s.board.rows[r]) {
      SamePlaceFits(s.board.rows[r], rows[r]);
    }
    forall r | 0 <= r < |s.board.rows| ensures Managed(rows[r]) == Managed(s.board.rows[r]) {
      SamePlaceFits(s.board.rows[r], rows[r]);
    }
    RestingStep(s, n, cfg);
  }

  /** What a transaction on a single row never changes. */
  predicate SamePlace(was: Row, row: Row) {
    && row.item == was.item && row.rtype == was.rtype && row.kind == was.kind && row.referenceAt == was.referenceAt
    && (row.key == was.key || (!Managed(was) && !("work-item:" <= row.key)))
  }

  predicate StaysAsleep(was: Row, row: Row) {
    was.item.Some? && ActiveStatus(row.status) ==> ActiveStatus(was.status)
  }

  lemma SamePlaceFits(was: Row, row: Row)
    requires SamePlace(was, row)
    ensures KeyFits(was) ==> KeyFits(row)
    ensures Managed(row) == Managed(was) && Digest(row) == Digest(was)
  {
    hide MatchesBase;
  }

  predicate Rests(s: State, r: nat, row: Row, cfg: Config)
    requires r < |s.board.rows| && r < |s.ledgers|
  {
    && RowRests(s.board.rows[r], s.ledgers[r], row, s.ledgers[r], cfg)
    && SamePlace(s.board.rows[r], row) && StaysAsleep(s.board.rows[r], row)
  }

  predicate Arrives(row: Row) {
    RowArrives(row, NO_HISTORY) && KeyFits(row) && row.item.None? && !Managed(row)
  }

  lemma RestingRows(s: State, rows: seq<Row>, cfg: Config)
    requires Inv(s, cfg) && |s.ledgers| == |s.board.rows| <= |rows|
    requires forall r :: 0 <= r < |s.board.rows| ==> Rests(s, r, rows[r], cfg)
    requires forall r :: |s.board.rows| <= r < |rows| ==> Arrives(rows[r])
    ensures Inv(SetRows(s, rows), cfg)
  {
    hide RowRests, SamePlace, StaysAsleep, RowArrives, KeyFits, Inv, Managed;
    forall r | 0 <= r < |s.board.rows|
      ensures && RowRests(s.board.rows[r], s.ledgers[r], rows[r], s.ledgers[r], cfg)
              && SamePlace(s.board.rows[r], rows[r]) && StaysAsleep(s.board.rows[r], rows[r])
    {
      assert Rests(s, r, rows[r], cfg);
    }
    forall r | |s.board.rows| <= r < |rows|
      ensures RowArrives(rows[r], NO_HISTORY) && KeyFits(rows[r]) && rows[r].item.None? && !Managed(rows[r])
    {
      assert Arrives(rows[r]);
    }
    RowsStep(s, rows, cfg);
  }

  /** What the invariant says of one row. */
  lemma InvAt(s: State, r: nat, cfg: Config)
    requires Inv(s, cfg) && r < |s.board.rows|
    ensures |s.ledgers| == |s.board.rows| && RowOk(s.board.rows[r], s.ledgers[r], cfg) && KeyFits(s.board.rows[r])
    ensures Digest(s.board.rows[r]) ==> !Managed(s.board.rows[r]) && s.board.rows[r].item.None?
  {}

  lemma Lengths(s: State, cfg: Config)
    requires Inv(s, cfg)
    ensures |s.ledgers| == |s.board.rows|
  {}

  lemma DeferStep(s: State, quiet: map<nat, Instant>, now: Instant, cfg: Config)
    requires Inv(s, cfg)
    ensures Inv(SetRows(s, DeferDue(s.board.rows, quiet, now)), cfg)
  {
    hide KeyFits, Inv, Rests, RowOk;
    var rows := DeferDue(s.board.rows, quiet, now);
    Lengths(s, cfg);
    forall r | 0 <= r < |s.board.rows| ensures Rests(s, r, rows[r], cfg) {
      InvAt(s, r, cfg);
      DeferredRests(s, r, rows[r], cfg);
    }
    RestingRows(s, rows, cfg);
  }

  lemma DeferredRests(s: State, r: nat, row: Row, cfg: Config)
    requires r < |s.board.rows| && r < |s.ledgers| && RowOk(s.board.rows[r], s.ledgers[r], cfg)
    requires || row == s.board.rows[r]
             || (row.snoozedUntil.Some? && row == DeferredForQuiet(s.board.rows[r], row.snoozedUntil.value)
                 && (s.board.rows[r].status.Pending? || s.board.rows[r].status.Snoozed?) && !Digest(s.board.rows[r]))
    ensures Rests(s, r, row, cfg)
  {}

  lemma DigestKeyIsPlain(rtype: ReminderType, date: int)
    ensures !("work-item:" <= DigestKey(rtype, date))
  {
    assert DigestKey(rtype, date)[0] == 'd' && "work-item:"[0] == 'w';
  }

  lemma NewDigestArrives(rtype: ReminderType, date: int, at: Instant, legacy: bool, now: Instant)
    ensures var row := NewRow(None, rtype, Manual, DigestKey(rtype, date), at, None, Some(date), legacy);
            Arrives(row) && Arrives(LegacyDigestCancelled(row, rtype, date, now))
  {
    DigestKeyIsPlain(rtype, date);
  }

  lemma DailyDigestStep(s: State, rtype: ReminderType, date: int, at: Instant, now: Instant, cfg: Config)
    requires Inv(s, cfg) && (rtype.MorningDigest? || rtype.EveningDigest?)
    ensures Inv(SetRows(s, EnsureDigest(s.board.rows, rtype, date, DigestKey(rtype, date), at, now)), cfg)
  {
    hide KeyFits, Inv, Rests, Arrives, RowOk, DigestKey, Managed, LegacyDigestCancelled, DigestRefreshed;
    var key := DigestKey(rtype, date);
    var rows := EnsureDigest(s.board.rows, rtype, date, key, at, now);
    Lengths(s, cfg);
    DigestKeyIsPlain(rtype, date);
    forall r | 0 <= r < |s.board.rows| ensures Rests(s, r, rows[r], cfg) {
      InvAt(s, r, cfg);
      DigestRowRests(s, r, rtype, date, key, at, now, cfg);
    }
    NewDigestArrives(rtype, date, at, false, now);
    RestingRows(s, rows, cfg);
  }

  /** A digest row that was upserted, or cancelled as a legacy one, or both, rests. */
  lemma DigestRowRests(s: State, r: nat, rtype: ReminderType, date: int, key: string, at: Instant, now: Instant, cfg: Config)
    requires r < |s.board.rows| && r < |s.ledgers| && RowOk(s.board.rows[r], s.ledgers[r], cfg)
    requires (rtype.MorningDigest? || rtype.EveningDigest?) && !("work-item:" <= key)
    requires Digest(s.board.rows[r]) ==> !Managed(s.board.rows[r]) && s.board.rows[r].item.None?
    ensures Rests(s, r, LegacyDigestCancelled(s.board.rows[r], rtype, date, now), cfg)
    ensures IsDigestOf(s.board.rows[r], rtype, date) ==>
              Rests(s, r, LegacyDigestCancelled(DigestRefreshed(s.board.rows[r], key, at), rtype, date, now), cfg)
  {}

  lemma OtherDigestSteps(s: State, rtype: ReminderType, date: int, at: Instant, now: Instant, cfg: Config)
    requires Inv(s, cfg) && (rtype.MorningDigest? || rtype.EveningDigest?)
    ensures Inv(SetRows(s, s.board.rows + [NewRow(None, rtype, Manual, DigestKey(rtype, date), at, None, Some(date), true)]), cfg)
    ensures Inv(SetRows(s, CancelFutureDigests(s.board.rows, rtype, now)), cfg)
  {
    hide KeyFits, Inv, Rests, Arrives, RowOk, DigestKey, FutureDigestCancelled, Managed;
    Lengths(s, cfg);
    NewDigestArrives(rtype, date, at, true, now);
    var more := s.board.rows + [NewRow(None, rtype, Manual, DigestKey(rtype, date), at, None, Some(date), true)];
    forall r | 0 <= r < |s.board.rows|
      ensures Rests(s, r, more[r], cfg) && Rests(s, r, CancelFutureDigests(s.board.rows, rtype, now)[r], cfg)
    {
      InvAt(s, r, cfg);
      FutureDigestRests(s, r, rtype, now, cfg);
    }
    RestingRows(s, more, cfg);
    RestingRows(s, CancelFutureDigests(s.board.rows, rtype, now), cfg);
  }

  lemma FutureDigestRests(s: State, r: nat, rtype: ReminderType, now: Instant, cfg: Config)
    requires r < |s.board.rows| && r < |s.ledgers| && RowOk(s.board.rows[r], s.ledgers[r], cfg)
    requires (rtype.MorningDigest? || rtype.EveningDigest?) && (Digest(s.board.rows[r]) ==> !Managed(s.board.rows[r]))
    ensures Rests(s, r, s.board.rows[r], cfg)
    ensures Rests(s, r, FutureDigestCancelled(s.board.rows[r], rtype, now), cfg)
  {}
}
