/** The worker's program, as it runs on the reminder table: each of its transactions is a step of the protocol, in the
    program's order, with anything that others do in between. */
module Worker {
  import opened Core
  import opened ReminderRows
  import opened ReminderService
  import opened WorkItems
  import opened Protocol
  import opened ProtocolInvariant
  import opened ProtocolMoves

  /** What the worker meets on its way: the clock at each transaction, the end of quiet hours, whether a digest turns
      out empty or outdated, the messenger's answer, and what others do between its transactions. */
  datatype Encounter = Encounter(checkedAt: Instant, quietUntil: Option<Instant>, afterCheck: seq<Action>, emptyDigest: bool,
                                 startedAt: Instant, afterStart: seq<Action>, outcome: SendOutcome, afterSend: seq<Action>,
                                 markedAt: Instant, retryDelay: int)

  // ---------------------------------------------------------------- what others do

  /** The action belongs to the attempt with this token. */
  predicate ActsFor(a: Action, token: nat) {
    match a
    case CheckClaim(t, _, _) => t == token
    case GiveUpDigest(t, _) => t == token
    case Build(t) => t == token
    case Start(t, _) => t == token
    case SendReturns(t, _) => t == token
    case Mark(t, _, _) => t == token
    case Crash(t, _) => t == token
    case _ => false
  }

  predicate ByOthers(actions: seq<Action>, token: nat) {
    forall k :: 0 <= k < |actions| ==> !ActsFor(actions[k], token)
  }

  predicate Leaves(s: State, n: State, token: nat)
    requires token in s.attempts && s.attempts[token].reminder < |s.board.rows|
  {
    var r := s.attempts[token].reminder;
    && token in n.attempts && n.attempts[token] == s.attempts[token]
    && r < |n.board.rows| == |n.ledgers| && n.board.rows[r].rtype == s.board.rows[r].rtype
  }

  /** Whatever one participant does, another's attempt stays where it is in its program. */
  lemma OthersLeaveAttempt(s: State, a: Action, token: nat, cfg: Config)
    requires Inv(s, cfg) && token in s.attempts && s.attempts[token].reminder < |s.board.rows| && !ActsFor(a, token)
    ensures Leaves(s, Step(s, a, cfg), token)
  {
    hide Inv, LedgerMoves, ClaimMoves, Settles, Snoozes, Retries, Digest, ClaimDue;
    StepMoves(s, a, s.attempts[token].reminder, cfg);
    InvParts(s, cfg);
    if a.ClaimBatch? {
      ClaimDueIs(s.board.rows, s.nextToken, a.order, a.now, a.limit, cfg.limits);
      ClaimsAdded(s.attempts, ClaimDue(s.board.rows, s.nextToken, a.order, a.now, a.limit, cfg.limits).claims, s.nextToken);
    } else {
      OtherAttemptsStand(s, a, token, cfg);
    }
  }

  lemma OtherAttemptsStand(s: State, a: Action, token: nat, cfg: Config)
    requires token in s.attempts && !ActsFor(a, token) && !a.ClaimBatch?
    ensures token in Step(s, a, cfg).attempts && Step(s, a, cfg).attempts[token] == s.attempts[token]
  {
    hide Handle, Capture, EnsureDigest, MayStart, Digest, Check, Checked;
  }

  lemma {:induction false} OthersLeaveAttempts(s: State, actions: seq<Action>, token: nat, cfg: Config)
    requires Inv(s, cfg) && token in s.attempts && s.attempts[token].reminder < |s.board.rows| == |s.ledgers| && ByOthers(actions, token)
    ensures Leaves(s, Run(s, actions, cfg), token)
    decreases |actions|
  {
    hide Inv, Step, ActsFor;
    if actions != [] {
      OthersLeaveAttempt(s, actions[0], token, cfg);
      StepInv(s, actions[0], cfg);
      OthersLeaveAttempts(Step(s, actions[0], cfg), actions[1..], token, cfg);
    }
  }

  // ---------------------------------------------------------------- each transaction is a step

  /** The stored rows are those of the state, and the attempt stands at a point of its program. */
  ghost predicate Standing(table: ReminderTable, s: State, r: nat, token: nat, pc: Pc)
    reads table, table.rows
  {
    && table.Valid() && table.Contents() == s.board.rows && At(s, token, pc) && s.attempts[token].reminder == r
  }

  /** A step that changes one row and moves the attempt. */
  predicate Goes(s: State, n: State, r: nat, row: Row, token: nat, pc: Pc)
    requires r < |s.board.rows|
  {
    n.board.rows == s.board.rows[r := row] && At(n, token, pc) && n.attempts[token].reminder == r
  }

  lemma CheckGoes(s: State, r: nat, token: nat, now: Instant, quietUntil: Option<Instant>, cfg: Config)
    requires At(s, token, Pc.Claimed) && s.attempts[token].reminder == r
    ensures var row := s.board.rows[r];
            var result := Check(row, token, ItemOf(s.board, row), now, quietUntil);
            Goes(s, Step(s, CheckClaim(token, now, quietUntil), cfg), r, Checked(row, result, now), token, if result.Deliver? then Ready else Over)
  {
    hide Check, Checked;
  }

  lemma ReadyGoes(s: State, r: nat, token: nat, now: Instant, cfg: Config)
    requires At(s, token, Ready) && s.attempts[token].reminder == r
    ensures Digest(s.board.rows[r]) ==> Goes(s, Step(s, GiveUpDigest(token, now), cfg), r, Dropped(s.board.rows[r], token, now), token, Over)
    ensures !cfg.linked ==> Goes(s, Step(s, Build(token), cfg), r, s.board.rows[r], token, NoChat)
    ensures cfg.linked ==> Goes(s, Step(s, Start(token, now), cfg), r, Started(s.board.rows[r], token, now), token,
                                if MayStart(s.board.rows[r], token) then Sending else Over)
  {
    hide Digest, Dropped, MayStart;
    assert s.board.rows[r := s.board.rows[r]] == s.board.rows;
  }

  function Answered(outcome: SendOutcome): Pc {
    match outcome
    case SendAccepted => Accepted
    case PermanentError => Pc.Rejected(true)
    case RetryAfter => Pc.Rejected(false)
    case NoAnswer(_) => Unclear
  }

  lemma SendingGoes(s: State, r: nat, token: nat, outcome: SendOutcome, cfg: Config)
    requires At(s, token, Sending) && s.attempts[token].reminder == r
    ensures Goes(s, Step(s, SendReturns(token, outcome), cfg), r, s.board.rows[r], token, Answered(outcome))
  {
    assert s.board.rows[r := s.board.rows[r]] == s.board.rows;
  }

  /** What the worker's last transaction stores. */
  function Marked(row: Row, token: nat, pc: Pc, now: Instant, retryDelay: int, cfg: Config): Row {
    match pc
    case Accepted => ReminderRows.Delivered(row, token, now)
    case Rejected(permanent) => ReminderRows.Rejected(row, token, now, permanent, retryDelay, cfg.limits)
    case NoChat => ReminderRows.Rejected(row, token, now, true, retryDelay, cfg.limits)
    case Unclear => OutcomeUnknown(row, token, now)
    case _ => row
  }

  lemma MarkGoes(s: State, r: nat, token: nat, pc: Pc, now: Instant, retryDelay: int, cfg: Config)
    requires At(s, token, pc) && s.attempts[token].reminder == r && (pc.Accepted? || pc.Rejected? || pc.NoChat? || pc.Unclear?)
    ensures Goes(s, Step(s, Mark(token, now, retryDelay), cfg), r, Marked(s.board.rows[r], token, pc, now, retryDelay, cfg), token, Over)
  {
    hide ReminderRows.Delivered, ReminderRows.Rejected, OutcomeUnknown;
  }

  /** Records what became of the delivery. */
  method MarkOutcome(reminder: Reminder, token: nat, pc: Pc, e: Encounter, cfg: Config)
    requires ValidLimits(cfg.limits) && e.retryDelay > 0
    modifies reminder
    ensures reminder.Stored() == Marked(old(reminder.Stored()), token, pc, e.markedAt, e.retryDelay, cfg)
  {
    hide ReminderRows.Delivered, ReminderRows.Rejected, OutcomeUnknown;
    match pc {
      case Accepted =>
        var _ := reminder.MarkSent(token, e.markedAt);
      case Rejected(permanent) =>
        var _ := reminder.MarkFailure(token, e.markedAt, permanent, e.retryDelay, cfg.limits);
      case NoChat =>
        var _ := reminder.MarkFailure(token, e.markedAt, true, e.retryDelay, cfg.limits);
      case Unclear =>
        var _ := reminder.MarkUnknown(token, e.markedAt);
      case _ =>
    }
  }

  // ---------------------------------------------------------------- the program

  /** The ways the program may go, with the actions of others where they come in. */
  predicate Program(steps: seq<Action>, token: nat, e: Encounter) {
    var ready := [CheckClaim(token, e.checkedAt, e.quietUntil)] + e.afterCheck;
    || steps == [CheckClaim(token, e.checkedAt, e.quietUntil)]
    || steps == ready + [GiveUpDigest(token, e.startedAt)]
    || (ready <= steps && Delivery(steps[|ready|..], token, e))
  }

  /** The messenger is called only after the start was recorded, and what it answered is recorded last. */
  predicate Delivery(steps: seq<Action>, token: nat, e: Encounter) {
    var mark := [Mark(token, e.markedAt, e.retryDelay)];
    || steps == [Start(token, e.startedAt)]
    || steps == [Start(token, e.startedAt)] + e.afterStart + [SendReturns(token, e.outcome)] + e.afterSend + mark
    || steps == [Build(token)] + e.afterStart + mark
  }

  /** The table as the worker finds it when it comes back. */
  method Meanwhile(table: ReminderTable, rows: seq<Row>)
    modifies table`rows
    ensures table.Valid() && fresh(table.rows) && table.Contents() == rows
  {
    table.rows := [];
    for k := 0 to |rows|
      invariant table.Valid() && fresh(table.rows) && table.Contents() == rows[..k]
    {
      var reminder := Load(rows[k]);
      table.Append(reminder);
    }
    assert rows[..|rows|] == rows;
  }

  method Load(row: Row) returns (reminder: Reminder)
    ensures fresh(reminder) && reminder.Stored() == row
  {
    reminder := new Reminder(row.item, row.rtype, row.kind, row.key, row.scheduledAt, row.referenceAt, row.digestDate, row.legacy);
    reminder.status, reminder.attempts := row.status, row.attempts;
    reminder.snoozedUntil, reminder.nextAttemptAt := row.snoozedUntil, row.nextAttemptAt;
    reminder.processingStartedAt, reminder.token := row.processingStartedAt, row.token;
    reminder.deliveryStartedAt, reminder.deliveryUnknownAt := row.deliveryStartedAt, row.deliveryUnknownAt;
    reminder.sentAt, reminder.cancelledAt := row.sentAt, row.cancelledAt;
  }

  /** Others act, and the attempt stands where it stood. */
  method Wait(table: ReminderTable, s: State, others: seq<Action>, r: nat, token: nat, pc: Pc, cfg: Config) returns (n: State)
    requires Inv(s, cfg) && Standing(table, s, r, token, pc) && ByOthers(others, token)
    modifies table`rows
    ensures n == Run(s, others, cfg) && Inv(n, cfg) && fresh(table.rows) && Standing(table, n, r, token, pc)
    ensures n.board.rows[r].rtype == s.board.rows[r].rtype
  {
    hide Inv, Run;
    n := Run(s, others, cfg);
    Meanwhile(table, n.board.rows);
    Lengths(s, cfg);
    OthersLeaveAttempts(s, others, token, cfg);
    RunInv(s, others, cfg);
  }

  /** One transaction or call of the worker's own is one step of the run. */
  lemma OwnStep(s: State, a: Action, cfg: Config)
    requires Inv(s, cfg)
    ensures Run(s, [a], cfg) == Step(s, a, cfg) && Inv(Step(s, a, cfg), cfg)
  {
    hide Run, Step, Inv;
    RunOne(s, a, cfg);
    StepInv(s, a, cfg);
  }

  /** Processes one claim while others act in between. */
  method ProcessClaim(table: ReminderTable, s: State, r: nat, token: nat, e: Encounter, cfg: Config) returns (ghost steps: seq<Action>)
    requires Inv(s, cfg) && e.retryDelay > 0 && Standing(table, s, r, token, Pc.Claimed)
    requires ByOthers(e.afterCheck, token) && ByOthers(e.afterStart, token) && ByOthers(e.afterSend, token)
    modifies table`rows, table.rows[r]
    ensures Program(steps, token, e) && Standing(table, Run(s, steps, cfg), r, token, Over)
  {
    hide Inv, Run, Step, Check, Checked, Dropped, MayStart, Started, ByOthers;
    steps := [CheckClaim(token, e.checkedAt, e.quietUntil)];
    OwnStep(s, steps[0], cfg);
    CheckGoes(s, r, token, e.checkedAt, e.quietUntil, cfg);
    var result := table.rows[r].GetClaimedDelivery(token, ItemOf(s.board, s.board.rows[r]), e.checkedAt, e.quietUntil);
    var n := Step(s, CheckClaim(token, e.checkedAt, e.quietUntil), cfg);
    assert table.Contents() == n.board.rows;
    var digest := Digest(n.board.rows[r]);
    if !result.Deliver? {
      return;
    }
    RunConcat(s, steps, e.afterCheck, cfg);
    n := Wait(table, n, e.afterCheck, r, token, Ready, cfg);
    steps := steps + e.afterCheck;
    ReadyGoes(n, r, token, e.startedAt, cfg);
    if digest && e.emptyDigest {
      var _ := table.rows[r].CancelClaimed(token, e.startedAt);
      RunConcat(s, steps, [GiveUpDigest(token, e.startedAt)], cfg);
      OwnStep(n, GiveUpDigest(token, e.startedAt), cfg);
      steps := steps + [GiveUpDigest(token, e.startedAt)];
      assert table.Contents() == Run(s, steps, cfg).board.rows;
      return;
    }
    ghost var rest := Deliver(table, n, r, token, e, cfg);
    RunConcat(s, steps, rest, cfg);
    steps := steps + rest;
  }
  /** The rest of the program: build the notification, record the start, send, record the outcome. */
  method Deliver(table: ReminderTable, s: State, r: nat, token: nat, e: Encounter, cfg: Config) returns (ghost steps: seq<Action>)
    requires Inv(s, cfg) && e.retryDelay > 0 && Standing(table, s, r, token, Ready)
    requires ByOthers(e.afterStart, token) && ByOthers(e.afterSend, token)
    modifies table`rows, table.rows[r]
    ensures Delivery(steps, token, e) && Standing(table, Run(s, steps, cfg), r, token, Over)
  {
    hide Inv, Run, Step, Digest, Dropped, MayStart, Started, ByOthers;
    ReadyGoes(s, r, token, e.startedAt, cfg);
    var a := if cfg.linked then Start(token, e.startedAt) else Build(token);
    steps := [a];
    OwnStep(s, a, cfg);
    var n := Step(s, a, cfg);
    if cfg.linked {
      var started := table.rows[r].MarkStarted(token, e.startedAt);
      assert table.Contents() == n.board.rows;
      if !started {
        return;
      }
    } else {
      assert table.Contents() == n.board.rows;
    }
    var pc := if cfg.linked then Sending else NoChat;
    RunConcat(s, steps, e.afterStart, cfg);
    n := Wait(table, n, e.afterStart, r, token, pc, cfg);
    steps := steps + e.afterStart;
    if cfg.linked {
      ghost var sent := Send(table, n, r, token, e, cfg);
      RunConcat(s, steps, sent, cfg);
      steps := steps + sent;
    } else {
      ghost var marked := Record(table, n, r, token, pc, e, cfg);
      RunConcat(s, steps, marked, cfg);
      steps := steps + marked;
    }
  }

  /** The network call, which changes no row, and its record. */
  method Send(table: ReminderTable, s: State, r: nat, token: nat, e: Encounter, cfg: Config) returns (ghost steps: seq<Action>)
    requires Inv(s, cfg) && e.retryDelay > 0 && Standing(table, s, r, token, Sending) && ByOthers(e.afterSend, token)
    modifies table`rows, table.rows[r]
    ensures steps == [SendReturns(token, e.outcome)] + e.afterSend + [Mark(token, e.markedAt, e.retryDelay)]
    ensures Standing(table, Run(s, steps, cfg), r, token, Over)
  {
    hide Inv, Run, Step, ByOthers, Answered;
    SendingGoes(s, r, token, e.outcome, cfg);
    AnsweredIsOutcome(e.outcome);
    steps := [SendReturns(token, e.outcome)];
    OwnStep(s, steps[0], cfg);
    var n := Step(s, SendReturns(token, e.outcome), cfg);
    assert n.board.rows == s.board.rows;
    RunConcat(s, steps, e.afterSend, cfg);
    n := Wait(table, n, e.afterSend, r, token, Answered(e.outcome), cfg);
    steps := steps + e.afterSend;
    ghost var marked := Record(table, n, r, token, Answered(e.outcome), e, cfg);
    RunConcat(s, steps, marked, cfg);
    steps := steps + marked;
  }

  method Record(table: ReminderTable, s: State, r: nat, token: nat, pc: Pc, e: Encounter, cfg: Config) returns (ghost steps: seq<Action>)
    requires Inv(s, cfg) && e.retryDelay > 0 && Standing(table, s, r, token, pc)
    requires pc.Accepted? || pc.Rejected? || pc.NoChat? || pc.Unclear?
    modifies table.rows[r]
    ensures steps == [Mark(token, e.markedAt, e.retryDelay)] && Standing(table, Run(s, steps, cfg), r, token, Over)
  {
    hide Inv, Run, Step, Marked;
    InvParts(s, cfg);
    MarkGoes(s, r, token, pc, e.markedAt, e.retryDelay, cfg);
    MarkOutcome(table.rows[r], token, pc, e, cfg);
    steps := [Mark(token, e.markedAt, e.retryDelay)];
    OwnStep(s, steps[0], cfg);
    assert table.Contents() == Run(s, steps, cfg).board.rows;
  }

  lemma AnsweredIsOutcome(outcome: SendOutcome)
    ensures Answered(outcome).Accepted? || Answered(outcome).Rejected? || Answered(outcome).Unclear?
  {}
}
