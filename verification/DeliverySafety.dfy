/** The guarantees of the delivery protocol, for every run of every participant. */
module DeliverySafety {
  import opened Core
  import opened ReminderRows
  import opened ReminderService
  import opened Protocol
  import opened ProtocolInvariant
  import opened ProtocolMoves

  /** A reachable state: what some sequence of actions makes of an empty board. */
  function Reached(actions: seq<Action>, cfg: Config): State {
    Run(EMPTY, actions, cfg)
  }

  lemma ReachedInv(actions: seq<Action>, cfg: Config)
    requires ValidLimits(cfg.limits)
    ensures Inv(Reached(actions, cfg), cfg)
  {
    EmptyInv(cfg);
    RunInv(EMPTY, actions, cfg);
  }

  // ---------------------------------------------------------------- at most once

  function SnoozesOf(actions: seq<Action>, r: nat): nat {
    if actions == [] then 0 else (if Snoozes(actions[0], r) then 1 else 0) + SnoozesOf(actions[1..], r)
  }

  function RetriesOf(actions: seq<Action>, r: nat): nat {
    if actions == [] then 0 else (if Retries(actions[0], r) then 1 else 0) + RetriesOf(actions[1..], r)
  }

  function LedgerAt(s: State, r: nat): Ledger {
    if r < |s.ledgers| then s.ledgers[r] else NO_HISTORY
  }

  predicate IsDigestRow(s: State, r: nat) {
    r < |s.board.rows| && Digest(s.board.rows[r])
  }

  /** The ledger counts no snooze and no retry that nobody asked for. */
  lemma {:induction false} LedgerCounts(s: State, actions: seq<Action>, r: nat, cfg: Config)
    requires Inv(s, cfg)
    ensures LedgerAt(Run(s, actions, cfg), r).retries <= LedgerAt(s, r).retries + RetriesOf(actions, r)
    ensures LedgerAt(Run(s, actions, cfg), r).resends <= LedgerAt(s, r).resends + SnoozesOf(actions, r)
    ensures IsDigestRow(s, r) ==> LedgerAt(Run(s, actions, cfg), r).resends <= LedgerAt(s, r).resends
    decreases |actions|
  {
    hide Inv, Step, ClaimMoves, Snoozes, Retries, Begins, Settles;
    if actions != [] {
      var n := Step(s, actions[0], cfg);
      Lengths(s, cfg);
      if r < |s.board.rows| {
        StepMoves(s, actions[0], r, cfg);
      } else if r < |n.ledgers| {
        NewLedger(s, actions[0], r, cfg);
      }
      StepInv(s, actions[0], cfg);
      LedgerCounts(n, actions[1..], r, cfg);
    }
  }

  /** At most one delivery of a reminder may have reached the user, plus one for each time a user snoozed it after
      it had been sent and one for each time an operator retried an unclear one. */
  lemma AtMostOnce(actions: seq<Action>, r: nat, cfg: Config)
    requires ValidLimits(cfg.limits) && r < |Reached(actions, cfg).ledgers|
    ensures var ledger := Reached(actions, cfg).ledgers[r];
            && ledger.reached <= ledger.started - ledger.refused
            && |ledger.reached| <= MaybeDelivered(ledger) <= 1 + ledger.resends + ledger.retries
            && ledger.resends <= SnoozesOf(actions, r) && ledger.retries <= RetriesOf(actions, r)
  {
    hide Run, Inv;
    ReachedInv(actions, cfg);
    EmptyInv(cfg);
    LedgerCounts(EMPTY, actions, r, cfg);
    var s := Reached(actions, cfg);
    LedgerLengths(s, cfg);
    InvAt(s, r, cfg);
    SubsetSize(s.ledgers[r].reached, s.ledgers[r].started - s.ledgers[r].refused);
  }

  lemma LedgerLengths(s: State, cfg: Config)
    requires Inv(s, cfg)
    ensures |s.ledgers| == |s.board.rows|
  {}

  // ---------------------------------------------------------------- when a delivery may begin

  /** No stale start: whenever any action starts a managed reminder's delivery, at that very instant the reminder is
      claimed, has not been started, and its work item is open and still has the date the reminder was made for. */
  lemma NoStaleStart(actions: seq<Action>, a: Action, r: nat, cfg: Config)
    requires ValidLimits(cfg.limits)
    requires var s := Reached(actions, cfg);
             && r < |s.board.rows| && r < |s.ledgers| && r < |Step(s, a, cfg).ledgers|
             && Step(s, a, cfg).ledgers[r].started != s.ledgers[r].started
    ensures var s := Reached(actions, cfg);
            var row := s.board.rows[r];
            && a.Start? && HeldBy(row, a.token) && row.deliveryStartedAt.None?
            && (Managed(row) ==>
                 && row.item.Some? && row.item.value < |s.board.items|
                 && OpenStatus(s.board.items[row.item.value].status)
                 && ReferenceDate(s.board.items[row.item.value]).Some?
                 && row.referenceAt == ReferenceDate(s.board.items[row.item.value]))
  {
    hide Run, Step, Inv, RowMoves;
    ReachedInv(actions, cfg);
    var s := Reached(actions, cfg);
    StepMoves(s, a, r, cfg);
    AttemptAt(s, a.token, cfg);
  }

  // ---------------------------------------------------------------- final outcomes stay final

  predicate NoneSnoozes(actions: seq<Action>, r: nat) {
    forall a :: a in actions ==> !Snoozes(a, r)
  }

  predicate NoneRetries(actions: seq<Action>, r: nat) {
    forall a :: a in actions ==> !Retries(a, r)
  }

  /** A sent reminder stays sent and is never started again, unless a user snoozes it; a sent digest cannot even be
      snoozed, whatever refreshes and cancellations follow. */
  lemma {:induction false} SentIsFinal(s: State, actions: seq<Action>, r: nat, cfg: Config)
    requires Inv(s, cfg) && r < |s.board.rows| && s.board.rows[r].status.Sent?
    requires Digest(s.board.rows[r]) || NoneSnoozes(actions, r)
    ensures r < |s.ledgers| && r < |Run(s, actions, cfg).board.rows| == |Run(s, actions, cfg).ledgers|
    ensures Run(s, actions, cfg).board.rows[r].status.Sent?
    ensures Run(s, actions, cfg).ledgers[r].started == s.ledgers[r].started
    decreases |actions|
  {
    hide Inv, Step, ClaimMoves, Snoozes, Retries, Settles;
    Lengths(s, cfg);
    if actions != [] {
      StepMoves(s, actions[0], r, cfg);
      StepInv(s, actions[0], cfg);
      SentIsFinal(Step(s, actions[0], cfg), actions[1..], r, cfg);
    }
  }

  /** A delivery of the reminder has begun and nobody who holds its claim can still record a known outcome. */
  predicate Blocked(s: State, r: nat) {
    && r < |s.board.rows| && s.board.rows[r].deliveryStartedAt.Some?
    && forall t <- s.attempts :: s.attempts[t].reminder == r && HeldBy(s.board.rows[r], t) ==>
         s.attempts[t].pc.Claimed? || s.attempts[t].pc.Ready? || s.attempts[t].pc.Over?
  }

  lemma BlockedStep(s: State, a: Action, r: nat, cfg: Config)
    requires Inv(s, cfg) && Blocked(s, r) && !Retries(a, r)
    ensures |s.ledgers| == |s.board.rows| && Blocked(Step(s, a, cfg), r) && r < |Step(s, a, cfg).ledgers|
    ensures Step(s, a, cfg).ledgers[r].started == s.ledgers[r].started
  {
    hide Inv, Step, RowOk;
    var n := Step(s, a, cfg);
    StepMoves(s, a, r, cfg);
    StepAttempts(s, a, cfg);
    InvAt(s, r, cfg);
    LinkedWhenStarted(s, r, cfg);
    forall t <- n.attempts | n.attempts[t].reminder == r && HeldBy(n.board.rows[r], t)
      ensures n.attempts[t].pc.Claimed? || n.attempts[t].pc.Ready? || n.attempts[t].pc.Over?
    {
      if t in s.attempts {
        AttemptAt(s, t, cfg);
        assert PcMoves(s, t, n.attempts[t].pc, cfg);
        assert HeldBy(s.board.rows[r], t);
      }
    }
  }

  lemma LinkedWhenStarted(s: State, r: nat, cfg: Config)
    requires Inv(s, cfg) && r < |s.board.rows| && s.board.rows[r].deliveryStartedAt.Some?
    ensures cfg.linked
  {}

  /** An unclear outcome is final until an operator retries it: no refresh, snooze, sync or new claim ever lets its
      delivery begin again. The same holds of every reminder whose started delivery lost its claim. */
  lemma {:induction false} UnclearIsFinal(s: State, actions: seq<Action>, r: nat, cfg: Config)
    requires Inv(s, cfg) && Blocked(s, r) && NoneRetries(actions, r)
    ensures r < |s.ledgers| && r < |Run(s, actions, cfg).ledgers|
    ensures Run(s, actions, cfg).ledgers[r].started == s.ledgers[r].started
    ensures Blocked(Run(s, actions, cfg), r)
    decreases |actions|
  {
    hide Inv, Step, Blocked, Retries;
    BlockedLengths(s, r, cfg);
    if actions != [] {
      BlockedStep(s, actions[0], r, cfg);
      StepInv(s, actions[0], cfg);
      UnclearIsFinal(Step(s, actions[0], cfg), actions[1..], r, cfg);
    }
  }

  lemma BlockedLengths(s: State, r: nat, cfg: Config)
    requires Inv(s, cfg) && Blocked(s, r)
    ensures r < |s.ledgers|
  {}

  /** An unclear outcome is such a state, in every run. */
  lemma UnclearIsBlocked(actions: seq<Action>, r: nat, cfg: Config)
    requires ValidLimits(cfg.limits) && r < |Reached(actions, cfg).board.rows|
    requires Reached(actions, cfg).board.rows[r].status.DeliveryUnknown?
    ensures Blocked(Reached(actions, cfg), r)
  {
    hide Run;
    ReachedInv(actions, cfg);
    InvAt(Reached(actions, cfg), r, cfg);
  }

  // ---------------------------------------------------------------- fencing

  predicate Fenced(s: State, t: nat) {
    t in s.attempts && s.attempts[t].reminder < |s.board.rows| && s.attempts[t].reminder < |s.ledgers|
    && !HeldBy(s.board.rows[s.attempts[t].reminder], t)
  }

  /** Once an attempt has lost its claim, it never holds it again, starts nothing, and whatever outcome it still
      records leaves every row as it was. */
  lemma {:induction false} FencedForever(s: State, actions: seq<Action>, t: nat, cfg: Config)
    requires Inv(s, cfg) && Fenced(s, t)
    ensures Fenced(Run(s, actions, cfg), t) && Run(s, actions, cfg).attempts[t].reminder == s.attempts[t].reminder
    ensures var r := s.attempts[t].reminder;
            t in Run(s, actions, cfg).ledgers[r].started <==> t in s.ledgers[r].started
    ensures forall now, delay :: Step(Run(s, actions, cfg), Mark(t, now, delay), cfg).board == Run(s, actions, cfg).board
    decreases |actions|
  {
    hide Inv, Step, RowOk;
    if actions == [] {
      FencedMark(s, t, cfg);
    } else {
      FencedStep(s, actions[0], t, cfg);
      StepInv(s, actions[0], cfg);
      FencedForever(Step(s, actions[0], cfg), actions[1..], t, cfg);
    }
  }

  lemma FencedMark(s: State, t: nat, cfg: Config)
    requires Fenced(s, t)
    ensures forall now, delay :: Step(s, Mark(t, now, delay), cfg).board == s.board
  {
    hide HeldBy;
    forall now, delay ensures Step(s, Mark(t, now, delay), cfg).board == s.board {
      FencedMarkAt(s, t, now, delay, cfg);
    }
  }

  lemma FencedMarkAt(s: State, t: nat, now: Instant, delay: int, cfg: Config)
    requires Fenced(s, t)
    ensures StepMark(s, t, now, delay, cfg).board == s.board
  {
    var r := s.attempts[t].reminder;
    assert s.board.rows[r := s.board.rows[r]] == s.board.rows;
  }

  lemma FencedStep(s: State, a: Action, t: nat, cfg: Config)
    requires Inv(s, cfg) && Fenced(s, t)
    ensures Fenced(Step(s, a, cfg), t) && Step(s, a, cfg).attempts[t].reminder == s.attempts[t].reminder
    ensures var r := s.attempts[t].reminder;
            t in Step(s, a, cfg).ledgers[r].started <==> t in s.ledgers[r].started
  {
    hide Inv, Step, RowOk;
    AttemptAt(s, t, cfg);
    StepMoves(s, a, s.attempts[t].reminder, cfg);
    StepAttempts(s, a, cfg);
  }

  lemma UnderDelivery(row: Row, t: nat, now: Instant, limits: Limits)
    requires HeldBy(row, t) && row.deliveryStartedAt.Some? && ValidLimits(limits)
    ensures !Claimable(Swept(row, now, limits), now, limits)
    ensures HeldBy(Swept(row, now, limits), t) <==> !AtOrBefore(row.processingStartedAt, now - limits.timeout)
    ensures !HeldBy(Swept(row, now, limits), t) ==> Swept(row, now, limits).status.DeliveryUnknown?
  {}

  /** A delivery under way keeps its claim through another worker's claim statement exactly when its lease, counted from
      the claim and not from the start of the delivery, has not run out. Otherwise its outcome is unknown, whatever the
      messenger is about to answer. */
  lemma DeliveryKeepsItsClaim(s: State, t: nat, order: seq<nat>, now: Instant, limit: nat, cfg: Config)
    requires Inv(s, cfg) && t in s.attempts && s.attempts[t].reminder < |s.board.rows|
    requires var row := s.board.rows[s.attempts[t].reminder]; HeldBy(row, t) && row.deliveryStartedAt.Some?
    ensures var r := s.attempts[t].reminder;
            var n := Step(s, ClaimBatch(order, now, limit), cfg);
            && r < |n.board.rows|
            && (HeldBy(n.board.rows[r], t) <==> !AtOrBefore(s.board.rows[r].processingStartedAt, now - cfg.limits.timeout))
            && (!HeldBy(n.board.rows[r], t) ==> n.board.rows[r].status.DeliveryUnknown?)
  {
    hide Inv, Claimable, Swept, ClaimDue, HeldBy;
    var r := s.attempts[t].reminder;
    InvParts(s, cfg);
    UnderDelivery(s.board.rows[r], t, now, cfg.limits);
    ClaimDueIs(s.board.rows, s.nextToken, order, now, limit, cfg.limits);
  }

  // ---------------------------------------------------------------- attempts are accounted for

  lemma AttemptsAreBounded(actions: seq<Action>, r: nat, cfg: Config)
    requires ValidLimits(cfg.limits) && r < |Reached(actions, cfg).board.rows|
    ensures var row := Reached(actions, cfg).board.rows[r];
            && 0 <= row.attempts <= cfg.limits.maxAttempts
            && (row.status.Processing? ==> row.attempts >= 1 && row.token.Some?)
  {
    hide Run;
    ReachedInv(actions, cfg);
    InvAt(Reached(actions, cfg), r, cfg);
  }

  /** While a claim lasts nothing but its own release touches its attempt count. */
  lemma {:induction false} HeldRowStands(s: State, actions: seq<Action>, r: nat, t: nat, cfg: Config)
    requires Inv(s, cfg) && t in s.attempts && r == s.attempts[t].reminder && r < |Run(s, actions, cfg).board.rows|
    requires HeldBy(Run(s, actions, cfg).board.rows[r], t)
    ensures r < |s.board.rows| && HeldBy(s.board.rows[r], t)
    ensures Run(s, actions, cfg).board.rows[r].attempts == s.board.rows[r].attempts
    decreases |actions|
  {
    hide Inv, Step, RowOk;
    AttemptAt(s, t, cfg);
    if actions != [] {
      var n := Step(s, actions[0], cfg);
      StepMoves(s, actions[0], r, cfg);
      StepAttempts(s, actions[0], cfg);
      StepInv(s, actions[0], cfg);
      HeldRowStands(n, actions[1..], r, t, cfg);
    }
  }

  /** A quiet-hours release gives back exactly the attempt that its claim took, whatever happened in between. */
  lemma ReleaseRefundsItsClaim(s: State, order: seq<nat>, now: Instant, limit: nat, k: nat, actions: seq<Action>,
                               later: Instant, quietUntil: Option<Instant>, cfg: Config)
    requires Inv(s, cfg)
    requires var batch := ClaimDue(s.board.rows, s.nextToken, order, now, limit, cfg.limits);
             k < |batch.claims| && batch.claims[k].0 < |Run(Step(s, ClaimBatch(order, now, limit), cfg), actions, cfg).board.rows|
    requires var claim := ClaimDue(s.board.rows, s.nextToken, order, now, limit, cfg.limits).claims[k];
             var n := Run(Step(s, ClaimBatch(order, now, limit), cfg), actions, cfg);
             Check(n.board.rows[claim.0], claim.1, ItemOf(n.board, n.board.rows[claim.0]), later, quietUntil).Deferred?
    ensures var claim := ClaimDue(s.board.rows, s.nextToken, order, now, limit, cfg.limits).claims[k];
            var n := Run(Step(s, ClaimBatch(order, now, limit), cfg), actions, cfg);
            var row := n.board.rows[claim.0];
            && claim.0 < |s.board.rows|
            && Checked(row, Check(row, claim.1, ItemOf(n.board, row), later, quietUntil), later).attempts
               == s.board.rows[claim.0].attempts
  {
    hide Inv, Claimable, ClaimDue, Run, ClaimedIn;
    var batch := ClaimDue(s.board.rows, s.nextToken, order, now, limit, cfg.limits);
    InvParts(s, cfg);
    ClaimDueIs(s.board.rows, s.nextToken, order, now, limit, cfg.limits);
    var mid := Step(s, ClaimBatch(order, now, limit), cfg);
    StepInv(s, ClaimBatch(order, now, limit), cfg);
    ClaimsRecorded(s.attempts, batch.claims, s.nextToken, k);
    InvAt(s, batch.claims[k].0, cfg);
    HeldRowStands(mid, actions, batch.claims[k].0, batch.claims[k].1, cfg);
  }

  lemma {:induction false} ClaimsRecorded(attempts: map<nat, Attempt>, claims: seq<(nat, nat)>, first: nat, k: nat)
    requires k < |claims| && forall j :: 0 <= j < |claims| ==> claims[j].1 == first + j
    ensures claims[k].1 in WithClaims(attempts, claims)
    ensures WithClaims(attempts, claims)[claims[k].1] == Attempt(claims[k].0, Pc.Claimed)
    decreases |claims|
  {
    if k < |claims| - 1 {
      ClaimsRecorded(attempts, claims[..|claims| - 1], first, k);
    }
  }

  // ---------------------------------------------------------------- closed items sleep

  /** A work item that is not open has no pending, processing or snoozed reminder, whoever made it, unless an operator's
      retry revived it. */
  lemma ClosedItemsSleep(actions: seq<Action>, r: nat, cfg: Config)
    requires ValidLimits(cfg.limits) && r < |Reached(actions, cfg).board.rows|
    requires var row := Reached(actions, cfg).board.rows[r];
             && row.item.Some? && ActiveStatus(row.status) && RetriesOf(actions, r) == 0
    ensures var s := Reached(actions, cfg);
            var row := s.board.rows[r];
            row.item.value < |s.board.items| && OpenStatus(s.board.items[row.item.value].status)
  {
    hide Run, Inv;
    ReachedInv(actions, cfg);
    EmptyInv(cfg);
    LedgerCounts(EMPTY, actions, r, cfg);
    InvParts(Reached(actions, cfg), cfg);
    InvAt(Reached(actions, cfg), r, cfg);
  }
}
