/** Every action of every participant keeps the protocol's invariant. */
module ProtocolInvariant {
  import opened Core
  import opened DedupKeys
  import opened ReminderRows
  import opened ReminderSync
  import opened ReminderService
  import opened WorkItems
  import opened BoardSteps
  import opened Protocol

  // ---------------------------------------------------------------- requests and captures

  lemma KeptRowRests(was: Row, ledger: Ledger, row: Row, cfg: Config)
    requires RowKept(was, row) && RowOk(was, ledger, cfg)
    ensures RowRests(was, ledger, row, ledger, cfg)
  {}

  lemma BrandNewArrives(row: Row)
    requires BrandNew(row)
    ensures RowArrives(row, NO_HISTORY)
  {}

  lemma QuietlyDormant(s: State, n: State)
    requires |s.ledgers| == |s.board.rows| <= |n.board.rows| == |n.ledgers|
    requires DormantFine(s) && ClosesQuietly(s.board, n.board)
    requires forall r :: 0 <= r < |s.board.rows| ==> n.ledgers[r] == s.ledgers[r] && RowKept(s.board.rows[r], n.board.rows[r])
    ensures DormantFine(n)
  {
    hide Dormant;
    forall r | 0 <= r < |n.board.rows| && ActiveStatus(n.board.rows[r].status) && Dormant(n.board, r)
      ensures n.ledgers[r].retries > 0
    {
      assert RowKept(s.board.rows[r], n.board.rows[r]);
    }
  }

  lemma EvolvedStep(s: State, c: Board, cfg: Config)
    requires Inv(s, cfg) && Evolves(s.board, c)
    ensures Inv(SetBoard(s, c), cfg)
  {
    hide RowKept, BrandNew, RowRests, RowArrives, KeepsAgreement, ClosesQuietly, RowsOk, DormantFine, TokensFine, AttemptsFine, RowOk, Inv;
    var n := SetBoard(s, c);
    InvParts(s, cfg);
    forall r | 0 <= r < |s.board.rows|
      ensures RowRests(s.board.rows[r], s.ledgers[r], n.board.rows[r], n.ledgers[r], cfg)
    {
      InvAt(s, r, cfg);
      KeptRowRests(s.board.rows[r], s.ledgers[r], n.board.rows[r], cfg);
    }
    forall r | |s.board.rows| <= r < |n.board.rows| ensures RowArrives(n.board.rows[r], n.ledgers[r]) {
      BrandNewArrives(n.board.rows[r]);
    }
    QuietlyDormant(s, n);
    RestingStep(s, n, cfg);
  }

  lemma InvParts(s: State, cfg: Config)
    requires Inv(s, cfg)
    ensures |s.ledgers| == |s.board.rows| && RowsOk(s.board.items, s.board.rows) && DormantFine(s) && TokensFine(s)
    ensures AttemptsFine(s, cfg) && RowsFine(s, cfg) && ValidLimits(cfg.limits)
  {}

  /** One row, its ledger and the attempts' ends: the rest of the state stands. */
  function Put(s: State, r: nat, row: Row, ledger: Ledger, attempts: map<nat, Attempt>): State
    requires r < |s.board.rows| && r < |s.ledgers|
  {
    State(s.board.(rows := s.board.rows[r := row]), attempts, s.nextToken, s.ledgers[r := ledger])
  }

  predicate WakesProperly(b: Board, r: nat, row: Row, ledger: Ledger)
    requires r < |b.rows|
  {
    ActiveStatus(row.status) ==>
      ActiveStatus(b.rows[r].status) || ledger.retries > 0 || !Dormant(b, r)
  }

  lemma RestingPut(s: State, r: nat, row: Row, ledger: Ledger, attempts: map<nat, Attempt>, cfg: Config)
    requires Inv(s, cfg) && r < |s.board.rows| && r < |s.ledgers|
    requires RowRests(s.board.rows[r], s.ledgers[r], row, ledger, cfg)
    requires SamePlace(s.board.rows[r], row) && ledger.retries >= s.ledgers[r].retries
    requires WakesProperly(s.board, r, row, ledger)
    requires AttemptsRest(s.attempts, attempts)
    ensures Inv(Put(s, r, row, ledger, attempts), cfg)
  {
    hide RowOk, TokensFine, AttemptsFine, KeyFits, Digest;
    var n := Put(s, r, row, ledger, attempts);
    SamePlaceFits(s.board.rows[r], row);
    assert RowsOk(n.board.items, n.board.rows) by {
      forall k | 0 <= k < |n.board.rows| ensures KeyFits(n.board.rows[k]) {
        assert KeyFits(s.board.rows[k]);
      }
    }
    assert KeepsAgreement(s.board, n.board);
    assert DormantFine(n) by {
      forall k | 0 <= k < |n.board.rows| && ActiveStatus(n.board.rows[k].status) && Dormant(n.board, k)
        ensures n.ledgers[k].retries > 0
      {
        assert Dormant(s.board, k);
      }
    }
    RestingStep(s, n, cfg);
  }

  lemma SnoozedRests(was: Row, ledger: Ledger, until: Instant, cfg: Config)
    requires RowOk(was, ledger, cfg) && MaySnooze(was) && ValidLimits(cfg.limits)
    ensures var after := if was.status.Sent? then ledger.(resends := ledger.resends + 1) else ledger;
            RowRests(was, ledger, Postponed(was, until), after, cfg)
  {}

  lemma SnoozeStep(s: State, q: Request, cfg: Config)
    requires Inv(s, cfg) && q.op.OpSnooze? && Handle(s.board, q).outcome.Applied?
    ensures Inv(StepManage(s, q), cfg)
  {
    hide RowOk, RowRests, KeyFits, Inv, MaySnooze;
    var r := q.op.row;
    var row := s.board.rows[r];
    InvAt(s, r, cfg);
    InvParts(s, cfg);
    var after := if row.status.Sent? then s.ledgers[r].(resends := s.ledgers[r].resends + 1) else s.ledgers[r];
    SnoozedRests(row, s.ledgers[r], q.op.until, cfg);
    var p := Put(s, r, Postponed(row, q.op.until), after, s.attempts);
    RestingPut(s, r, Postponed(row, q.op.until), after, s.attempts, cfg);
    HistoryStep(p, row.item.value, ReminderSnoozed, Some(q.origin), cfg);
    assert StepManage(s, q) == p.(board := Log(p.board, row.item.value, ReminderSnoozed, Some(q.origin)));
  }

  /** The history is no part of the invariant. */
  lemma HistoryStep(s: State, i: nat, etype: EventType, origin: Option<Origin>, cfg: Config)
    requires Inv(s, cfg)
    ensures Inv(s.(board := Log(s.board, i, etype, origin)), cfg)
  {
    hide RowOk, KeyFits, Managed, Digest, AttemptOk;
    var n := s.(board := Log(s.board, i, etype, origin));
    assert forall r :: 0 <= r < |s.board.rows| ==> Dormant(n.board, r) == Dormant(s.board, r);
  }

  lemma ManageStep(s: State, q: Request, cfg: Config)
    requires Inv(s, cfg)
    ensures Inv(StepManage(s, q), cfg)
  {
    hide Inv, Evolves, Mutated, Allowed, RowsOk;
    InvParts(s, cfg);
    if Handle(s.board, q).outcome.Applied? {
      if q.op.OpSnooze? {
        SnoozeStep(s, q, cfg);
      } else {
        MutatedEvolves(s.board, q.origin, q.now, q.op);
        EvolvedStep(s, Mutated(s.board, q.origin, q.now, q.op), cfg);
      }
    } else {
      assert SetBoard(s, s.board) == s;
    }
  }

  lemma CustomKeyIsPlain(draftItem: nat)
    ensures !("work-item:" <= CustomKey(draftItem))
  {
    assert CustomKey(draftItem)[0] == 'd' && "work-item:"[0] == 'w';
  }

  /** An unmanaged, undigested new row changes nothing for the others. */
  lemma AppendEvolves(b: Board, row: Row)
    requires RowsOk(b.items, b.rows) && BrandNew(row) && !Managed(row) && !("work-item:" <= row.key)
    requires row.item.Some? && row.item.value < |b.items| && OpenStatus(b.items[row.item.value].status)
    ensures Evolves(b, b.(rows := b.rows + [row]))
  {
    hide KeyTaken;
    var c := b.(rows := b.rows + [row]);
    assert forall r :: 0 <= r < |b.rows| ==> c.rows[r] == b.rows[r];
    assert forall r :: 0 <= r < |b.rows| ==> Dormant(c, r) == Dormant(b, r);
  }

  lemma CaptureEvolves(b: Board, itype: WorkItemType, status: WorkItemStatus, dueAt: Option<Instant>,
                       followUpAt: Option<Instant>, custom: Option<Instant>, draftItem: nat, leadMinutes: nat, now: Instant)
    requires RowsOk(b.items, b.rows) && OpenStatus(status)
    ensures Evolves(b, Capture(b, itype, status, dueAt, followUpAt, custom, draftItem, leadMinutes, now))
  {
    hide Evolves, RowsOk, Synced, KeyTaken, CustomKey;
    var item := NewItem(itype, status, dueAt, followUpAt, if status.Done? then Some(now) else None);
    var b1 := AddItem(b, item, None, leadMinutes, now);
    AddItemEvolves(b, item, None, leadMinutes, now);
    EvolvedRowsOk(b, b1);
    CustomKeyIsPlain(draftItem);
    if custom.Some? && !itype.FollowUp? {
      var row := NewRow(Some(|b.items|), Custom, Manual, CustomKey(draftItem), custom.value, custom, None, false);
      if !KeyTaken(b1.rows, row.key) {
        AppendEvolves(b1, row);
        EvolvesTransitively(b, b1, b1.(rows := b1.rows + [row]));
      }
    }
  }

  lemma EvolvedRowsOk(b: Board, c: Board)
    requires Evolves(b, c)
    ensures RowsOk(c.items, c.rows)
  {}

  // ---------------------------------------------------------------- claiming a batch

  lemma SweptRests(s: State, r: nat, now: Instant, cfg: Config)
    requires r < |s.board.rows| && r < |s.ledgers| && RowOk(s.board.rows[r], s.ledgers[r], cfg)
    ensures Rests(s, r, Swept(s.board.rows[r], now, cfg.limits), cfg)
  {}

  lemma SweepStep(s: State, now: Instant, cfg: Config)
    requires Inv(s, cfg)
    ensures Inv(SetRows(s, SweptAll(s.board.rows, now, cfg.limits)), cfg)
  {
    hide KeyFits, Inv, Rests, RowOk, Swept;
    Lengths(s, cfg);
    var rows := SweptAll(s.board.rows, now, cfg.limits);
    forall r | 0 <= r < |s.board.rows| ensures Rests(s, r, rows[r], cfg) {
      InvAt(s, r, cfg);
      SweptRests(s, r, now, cfg);
    }
    RestingRows(s, rows, cfg);
  }

  /** One row is claimed under the next token. */
  function WithClaim(s: State, id: nat, now: Instant): State
    requires id < |s.board.rows|
  {
    State(s.board.(rows := s.board.rows[id := ReminderRows.Claimed(s.board.rows[id], now, s.nextToken)]),
          s.attempts[s.nextToken := Attempt(id, Pc.Claimed)], s.nextToken + 1, s.ledgers)
  }

  lemma ClaimedRowOk(row: Row, ledger: Ledger, now: Instant, token: nat, cfg: Config)
    requires RowOk(row, ledger, cfg) && Claimable(row, now, cfg.limits)
    ensures RowOk(ReminderRows.Claimed(row, now, token), ledger, cfg)
    ensures ActiveStatus(row.status)
  {}

  lemma ClaimKeepsTokens(s: State, id: nat, now: Instant)
    requires TokensFine(s) && id < |s.board.rows|
    ensures TokensFine(WithClaim(s, id, now))
  {
    var n := WithClaim(s, id, now);
    forall r | 0 <= r < |n.board.rows| ensures TokenKnown(n, r, n.board.rows[r].token) {
      assert TokenKnown(s, r, s.board.rows[r].token);
    }
    forall r, t | 0 <= r < |n.board.rows| && t in n.ledgers[r].started ensures TokenKnown(n, r, Some(t)) {
      assert TokenKnown(s, r, Some(t));
    }
  }

  lemma ClaimKeepsAttempts(s: State, id: nat, now: Instant, cfg: Config)
    requires TokensFine(s) && AttemptsFine(s, cfg) && id < |s.board.rows|
    requires TokensFine(WithClaim(s, id, now))
    ensures AttemptsFine(WithClaim(s, id, now), cfg)
  {
    hide Agrees, MaybeDelivered, Renewals;
    var n := WithClaim(s, id, now);
    forall t <- n.attempts
      ensures AttemptOk(n.board.rows[n.attempts[t].reminder], n.ledgers[n.attempts[t].reminder], n.board.items, t, n.attempts[t].pc, cfg)
    {
      if t == s.nextToken {
        assert t in s.ledgers[id].started ==> TokenKnown(s, id, Some(t));
      } else {
        var r := s.attempts[t].reminder;
        assert AttemptOk(s.board.rows[r], s.ledgers[r], s.board.items, t, s.attempts[t].pc, cfg);
      }
    }
  }

  lemma ClaimStep(s: State, id: nat, now: Instant, cfg: Config)
    requires Inv(s, cfg) && id < |s.board.rows| && Claimable(s.board.rows[id], now, cfg.limits)
    ensures Inv(WithClaim(s, id, now), cfg)
  {
    hide RowOk, Claimable, AttemptOk, TokensFine, AttemptsFine, KeyFits, Digest;
    var n := WithClaim(s, id, now);
    ClaimedRowOk(s.board.rows[id], s.ledgers[id], now, s.nextToken, cfg);
    SamePlaceFits(s.board.rows[id], n.board.rows[id]);
    ClaimKeepsTokens(s, id, now);
    ClaimKeepsAttempts(s, id, now, cfg);
    assert DormantFine(n) by {
      assert forall r :: 0 <= r < |n.board.rows| ==> Dormant(n.board, r) == Dormant(s.board, r);
    }
  }

  lemma {:induction false} ClaimEachStep(s: State, batch: Batch, order: seq<nat>, now: Instant, limit: nat, cfg: Config)
    requires Inv(AfterBatch(s, batch), cfg)
    ensures Inv(AfterBatch(s, ClaimEach(batch, order, now, limit, cfg.limits)), cfg)
    decreases |order|
  {
    hide Inv, Claimable, ReminderRows.Claimed;
    if order != [] {
      var next := ClaimOne(batch, order[0], now, limit, cfg.limits);
      if next != batch {
        ClaimStep(AfterBatch(s, batch), order[0], now, cfg);
        ClaimOneIsWithClaim(s, batch, order[0], now, limit, cfg.limits);
      }
      ClaimEachStep(s, next, order[1..], now, limit, cfg);
    }
  }

  lemma ClaimOneIsWithClaim(s: State, batch: Batch, id: nat, now: Instant, limit: nat, limits: Limits)
    requires id < |batch.rows| && ClaimOne(batch, id, now, limit, limits) != batch
    ensures AfterBatch(s, ClaimOne(batch, id, now, limit, limits)) == WithClaim(AfterBatch(s, batch), id, now)
  {
    var next := ClaimOne(batch, id, now, limit, limits);
    assert next.claims[..|batch.claims|] == batch.claims;
  }

  lemma BatchStep(s: State, order: seq<nat>, now: Instant, limit: nat, cfg: Config)
    requires Inv(s, cfg)
    ensures Inv(AfterBatch(s, ClaimDue(s.board.rows, s.nextToken, order, now, limit, cfg.limits)), cfg)
  {
    hide Inv, Swept;
    Lengths(s, cfg);
    SweepStep(s, now, cfg);
    var start := Batch(SweptAll(s.board.rows, now, cfg.limits), s.nextToken, []);
    assert AfterBatch(s, start) == SetRows(s, start.rows);
    ClaimEachStep(s, start, order, now, limit, cfg);
  }

  // ---------------------------------------------------------------- the worker's own steps

  /** An attempt moves on in its program and nothing else changes. */
  lemma PcStep(s: State, t: nat, pc: Pc, cfg: Config)
    requires Inv(s, cfg) && t in s.attempts && s.attempts[t].reminder < |s.board.rows| == |s.ledgers|
    requires AttemptOk(s.board.rows[s.attempts[t].reminder], s.ledgers[s.attempts[t].reminder], s.board.items, t, pc, cfg)
    ensures Inv(SetPc(s, t, pc), cfg)
  {
    hide RowOk, AttemptOk, KeyFits, Digest, Managed, Agrees;
    var n := SetPc(s, t, pc);
    assert TokensFine(n) by {
      forall r | 0 <= r < |n.board.rows| ensures TokenKnown(n, r, n.board.rows[r].token) {
        assert TokenKnown(s, r, s.board.rows[r].token);
      }
      forall r, u | 0 <= r < |n.board.rows| && u in n.ledgers[r].started ensures TokenKnown(n, r, Some(u)) {
        assert TokenKnown(s, r, Some(u));
      }
    }
    assert DormantFine(n);
  }

  lemma AttemptAt(s: State, t: nat, cfg: Config)
    requires Inv(s, cfg) && t in s.attempts
    ensures |s.ledgers| == |s.board.rows| && s.attempts[t].reminder < |s.board.rows|
    ensures AttemptOk(s.board.rows[s.attempts[t].reminder], s.ledgers[s.attempts[t].reminder], s.board.items, t, s.attempts[t].pc, cfg)
    ensures TokenKnown(s, s.attempts[t].reminder, s.board.rows[s.attempts[t].reminder].token)
    ensures t < s.nextToken
  {}

  /** What a worker changes at once on the row it claimed, the row's ledger and its own position. */
  function Move(s: State, t: nat, row: Row, ledger: Ledger, pc: Pc): State
    requires t in s.attempts && s.attempts[t].reminder < |s.board.rows| && s.attempts[t].reminder < |s.ledgers|
  {
    SetPc(SetLedger(SetRow(s, s.attempts[t].reminder, row), s.attempts[t].reminder, ledger), t, pc)
  }

  /** Only this attempt's entries of the ledger may change; the row may only have its start recorded. */
  predicate OwnMove(was: Row, before: Ledger, row: Row, after: Ledger, t: nat) {
    && (row == was || (HeldBy(was, t) && row.deliveryStartedAt.Some? && row == was.(deliveryStartedAt := row.deliveryStartedAt)))
    && (row == was ==> MaybeDelivered(after) <= MaybeDelivered(before))
    && before.started <= after.started <= before.started + {t}
    && before.refused <= after.refused <= before.refused + {t}
    && before.reached <= after.reached <= before.reached + {t}
    && after.resends == before.resends && after.retries == before.retries
  }

  lemma OthersStand(was: Row, before: Ledger, row: Row, after: Ledger, items: seq<Item>, t: nat, u: nat, pc: Pc, cfg: Config)
    requires OwnMove(was, before, row, after, t) && u != t
    requires AttemptOk(was, before, items, u, pc, cfg)
    ensures AttemptOk(row, after, items, u, pc, cfg)
  {
    hide MaybeDelivered;
  }

  lemma OwnStep(s: State, t: nat, row: Row, ledger: Ledger, pc: Pc, cfg: Config)
    requires Inv(s, cfg) && t in s.attempts && s.attempts[t].reminder < |s.board.rows| == |s.ledgers|
    requires var r := s.attempts[t].reminder;
             && OwnMove(s.board.rows[r], s.ledgers[r], row, ledger, t)
             && RowOk(row, ledger, cfg) && AttemptOk(row, ledger, s.board.items, t, pc, cfg)
    ensures Inv(Move(s, t, row, ledger, pc), cfg)
  {
    hide RowOk, AttemptOk, KeyFits, Digest, Agrees, MaybeDelivered, RowsOk, TokensFine, AttemptsFine;
    var r := s.attempts[t].reminder;
    var n := Move(s, t, row, ledger, pc);
    MoveKeepsRowsOk(s.board.items, s.board.rows, r, row);
    MoveKeepsTokens(s, t, row, ledger, pc);
    MoveKeepsAttempts(s, t, row, ledger, pc, cfg);
    assert DormantFine(n) by {
      assert forall k :: 0 <= k < |n.board.rows| ==> Dormant(n.board, k) == Dormant(s.board, k);
    }
  }

  lemma MoveKeepsRowsOk(items: seq<Item>, rows: seq<Row>, r: nat, row: Row)
    requires RowsOk(items, rows) && r < |rows|
    requires row == rows[r].(deliveryStartedAt := row.deliveryStartedAt)
    ensures RowsOk(items, rows[r := row])
  {
    hide MatchesBase;
  }

  lemma MoveKeepsTokens(s: State, t: nat, row: Row, ledger: Ledger, pc: Pc)
    requires TokensFine(s) && t in s.attempts
    requires var r := s.attempts[t].reminder; OwnMove(s.board.rows[r], s.ledgers[r], row, ledger, t)
    ensures TokensFine(Move(s, t, row, ledger, pc))
  {
    hide MaybeDelivered;
    var n := Move(s, t, row, ledger, pc);
    forall k | 0 <= k < |n.board.rows| ensures TokenKnown(n, k, n.board.rows[k].token) {
      assert TokenKnown(s, k, s.board.rows[k].token);
    }
    forall k, u | 0 <= k < |n.board.rows| && u in n.ledgers[k].started ensures TokenKnown(n, k, Some(u)) {
      assert u == t || TokenKnown(s, k, Some(u));
    }
  }

  lemma MoveKeepsAttempts(s: State, t: nat, row: Row, ledger: Ledger, pc: Pc, cfg: Config)
    requires TokensFine(s) && AttemptsFine(s, cfg) && t in s.attempts
    requires var r := s.attempts[t].reminder;
             && OwnMove(s.board.rows[r], s.ledgers[r], row, ledger, t)
             && AttemptOk(row, ledger, s.board.items, t, pc, cfg)
    requires TokensFine(Move(s, t, row, ledger, pc))
    ensures AttemptsFine(Move(s, t, row, ledger, pc), cfg)
  {
    hide AttemptOk, OwnMove;
    var n := Move(s, t, row, ledger, pc);
    forall u <- n.attempts
      ensures AttemptOk(n.board.rows[n.attempts[u].reminder], n.ledgers[n.attempts[u].reminder], n.board.items, u, n.attempts[u].pc, cfg)
    {
      var k := s.attempts[u].reminder;
      assert AttemptOk(s.board.rows[k], s.ledgers[k], s.board.items, u, s.attempts[u].pc, cfg);
      if k == s.attempts[t].reminder && u != t {
        OthersStand(s.board.rows[k], s.ledgers[k], row, ledger, s.board.items, t, u, s.attempts[u].pc, cfg);
      }
    }
  }

  /** The attempt ends, and its row rests. */
  lemma FinishStep(s: State, t: nat, row: Row, cfg: Config)
    requires Inv(s, cfg) && t in s.attempts && s.attempts[t].reminder < |s.board.rows| == |s.ledgers|
    requires Rests(s, s.attempts[t].reminder, row, cfg)
    ensures Inv(SetPc(SetRow(s, s.attempts[t].reminder, row), t, Over), cfg)
  {
    hide Inv, RowRests, SamePlace;
    var r := s.attempts[t].reminder;
    SamePlaceFits(s.board.rows[r], row);
    var n := SetPc(SetRow(s, r, row), t, Over);
    var p := Put(s, r, row, s.ledgers[r], n.attempts);
    RestingPut(s, r, row, s.ledgers[r], n.attempts, cfg);
    assert s.ledgers[r := s.ledgers[r]] == s.ledgers;
    assert n == p;
  }

  lemma CheckedRests(s: State, r: nat, token: nat, item: Option<Item>, now: Instant, quietUntil: Option<Instant>, cfg: Config)
    requires r < |s.board.rows| && r < |s.ledgers| && RowOk(s.board.rows[r], s.ledgers[r], cfg)
    requires Digest(s.board.rows[r]) ==> !Managed(s.board.rows[r])
    ensures Rests(s, r, Checked(s.board.rows[r], Check(s.board.rows[r], token, item, now, quietUntil), now), cfg)
  {}

  lemma DeliverAgrees(items: seq<Item>, b: Board, row: Row, t: nat, now: Instant, quietUntil: Option<Instant>)
    requires items == b.items && Check(row, t, ItemOf(b, row), now, quietUntil).Deliver?
    ensures Agrees(items, row)
  {}

  lemma CheckStep(s: State, t: nat, now: Instant, quietUntil: Option<Instant>, cfg: Config)
    requires Inv(s, cfg)
    ensures Inv(StepCheck(s, t, now, quietUntil), cfg)
  {
    hide Inv, RowOk, Rests, Check, Digest, Managed, Agrees, ItemOf;
    if At(s, t, Pc.Claimed) {
      var r := s.attempts[t].reminder;
      var row := s.board.rows[r];
      AttemptAt(s, t, cfg);
      InvAt(s, r, cfg);
      var result := Check(row, t, ItemOf(s.board, row), now, quietUntil);
      if result.Deliver? {
        DeliverAgrees(s.board.items, s.board, row, t, now, quietUntil);
        PcStep(s, t, Ready, cfg);
        assert SetRow(s, r, row) == s;
      } else {
        CheckedRests(s, r, t, ItemOf(s.board, row), now, quietUntil, cfg);
        FinishStep(s, t, Checked(row, result, now), cfg);
      }
    }
  }

  lemma DroppedRests(s: State, r: nat, token: nat, now: Instant, cfg: Config)
    requires r < |s.board.rows| && r < |s.ledgers| && RowOk(s.board.rows[r], s.ledgers[r], cfg)
    ensures Rests(s, r, Dropped(s.board.rows[r], token, now), cfg)
    ensures Rests(s, r, CancelledByUser(s.board.rows[r], now), cfg)
    ensures Rests(s, r, s.board.rows[r], cfg)
  {}

  lemma GiveUpStep(s: State, t: nat, now: Instant, cfg: Config)
    requires Inv(s, cfg)
    ensures Inv(StepGiveUp(s, t, now), cfg)
  {
    hide Inv, RowOk, Rests, Digest, Dropped;
    if At(s, t, Ready) && Digest(s.board.rows[s.attempts[t].reminder]) {
      AttemptAt(s, t, cfg);
      InvAt(s, s.attempts[t].reminder, cfg);
      DroppedRests(s, s.attempts[t].reminder, t, now, cfg);
      FinishStep(s, t, Dropped(s.board.rows[s.attempts[t].reminder], t, now), cfg);
    }
  }

  lemma OverStep(s: State, t: nat, cfg: Config)
    requires Inv(s, cfg) && t in s.attempts
    ensures Inv(SetPc(s, t, Over), cfg)
  {
    hide Inv;
    AttemptAt(s, t, cfg);
    PcStep(s, t, Over, cfg);
  }

  lemma CardinalityPlusOne(a: set<nat>, t: nat)
    requires t !in a
    ensures |a + {t}| == |a| + 1
  {}

  lemma StartedOk(was: Row, before: Ledger, items: seq<Item>, t: nat, now: Instant, cfg: Config)
    requires RowOk(was, before, cfg) && AttemptOk(was, before, items, t, Ready, cfg) && MayStart(was, t) && cfg.linked
    ensures var row, after := Started(was, t, now), before.(started := before.started + {t});
            && OwnMove(was, before, row, after, t) && RowOk(row, after, cfg) && AttemptOk(row, after, items, t, Sending, cfg)
  {
    hide Agrees, MaybeDelivered;
    OneMoreStarted(before, t);
  }

  lemma OneMoreStarted(before: Ledger, t: nat)
    requires t !in before.started && before.refused <= before.started
    ensures MaybeDelivered(before.(started := before.started + {t})) == MaybeDelivered(before) + 1
  {
    var after := before.(started := before.started + {t});
    assert after.started - after.refused == (before.started - before.refused) + {t};
    CardinalityPlusOne(before.started - before.refused, t);
  }

  lemma StartStep(s: State, t: nat, now: Instant, cfg: Config)
    requires Inv(s, cfg)
    ensures Inv(StepStart(s, t, now, cfg), cfg)
  {
    hide Inv, RowOk, AttemptOk, MayStart, OwnMove, Started;
    if At(s, t, Ready) && cfg.linked {
      var r := s.attempts[t].reminder;
      AttemptAt(s, t, cfg);
      InvAt(s, r, cfg);
      if MayStart(s.board.rows[r], t) {
        StartedOk(s.board.rows[r], s.ledgers[r], s.board.items, t, now, cfg);
        OwnStep(s, t, Started(s.board.rows[r], t, now), s.ledgers[r].(started := s.ledgers[r].started + {t}), Sending, cfg);
      } else {
        OverStep(s, t, cfg);
      }
    }
  }

  /** The answer of the messenger, as it enters the ledger and the worker's program. */
  lemma AnsweredOk(row: Row, before: Ledger, items: seq<Item>, t: nat, cfg: Config)
    requires RowOk(row, before, cfg) && AttemptOk(row, before, items, t, Sending, cfg)
    ensures var after := before.(reached := before.reached + {t});
            && OwnMove(row, before, row, after, t) && RowOk(row, after, cfg)
            && AttemptOk(row, after, items, t, Accepted, cfg) && AttemptOk(row, after, items, t, Unclear, cfg)
            && AttemptOk(row, after, items, t, Over, cfg)
    ensures OwnMove(row, before, row, before, t) && AttemptOk(row, before, items, t, Unclear, cfg)
    ensures AttemptOk(row, before, items, t, Over, cfg)
  {}

  lemma RefusedOk(row: Row, before: Ledger, items: seq<Item>, t: nat, permanent: bool, cfg: Config)
    requires RowOk(row, before, cfg) && AttemptOk(row, before, items, t, Sending, cfg)
    ensures var after := before.(refused := before.refused + {t});
            && OwnMove(row, before, row, after, t) && RowOk(row, after, cfg)
            && AttemptOk(row, after, items, t, Pc.Rejected(permanent), cfg)
  {
    var after := before.(refused := before.refused + {t});
    assert before.started - before.refused == (after.started - after.refused) + {t};
    CardinalityPlusOne(after.started - after.refused, t);
  }

  lemma SendStep(s: State, t: nat, outcome: SendOutcome, cfg: Config)
    requires Inv(s, cfg)
    ensures Inv(StepSend(s, t, outcome), cfg)
  {
    hide Inv, RowOk, AttemptOk, OwnMove;
    if At(s, t, Sending) {
      var r := s.attempts[t].reminder;
      var row, ledger := s.board.rows[r], s.ledgers[r];
      AttemptAt(s, t, cfg);
      InvAt(s, r, cfg);
      AnsweredOk(row, ledger, s.board.items, t, cfg);
      var reached := ledger.(reached := ledger.reached + {t});
      var refused := ledger.(refused := ledger.refused + {t});
      assert SetRow(s, r, row) == s;
      match outcome
      case SendAccepted => OwnStep(s, t, row, reached, Accepted, cfg);
      case PermanentError =>
        RefusedOk(row, ledger, s.board.items, t, true, cfg);
        OwnStep(s, t, row, refused, Pc.Rejected(true), cfg);
      case RetryAfter =>
        RefusedOk(row, ledger, s.board.items, t, false, cfg);
        OwnStep(s, t, row, refused, Pc.Rejected(false), cfg);
      case NoAnswer(got) =>
        if got {
          OwnStep(s, t, row, reached, Unclear, cfg);
        } else {
          PcStep(s, t, Unclear, cfg);
        }
    }
  }

  lemma CrashStep(s: State, t: nat, reached: bool, cfg: Config)
    requires Inv(s, cfg)
    ensures Inv(StepCrash(s, t, reached), cfg)
  {
    hide Inv, RowOk, AttemptOk, OwnMove;
    if t in s.attempts {
      AttemptAt(s, t, cfg);
      var r := s.attempts[t].reminder;
      InvAt(s, r, cfg);
      if reached && At(s, t, Sending) {
        AnsweredOk(s.board.rows[r], s.ledgers[r], s.board.items, t, cfg);
        assert SetRow(s, r, s.board.rows[r]) == s;
        OwnStep(s, t, s.board.rows[r], s.ledgers[r].(reached := s.ledgers[r].reached + {t}), Over, cfg);
      } else {
        OverStep(s, t, cfg);
      }
    }
  }

  lemma BuildStep(s: State, t: nat, cfg: Config)
    requires Inv(s, cfg) && At(s, t, Ready) && !cfg.linked
    ensures Inv(SetPc(s, t, NoChat), cfg)
  {
    hide Inv, RowOk;
    AttemptAt(s, t, cfg);
    PcStep(s, t, NoChat, cfg);
  }

  /** Each of the four marks leaves the row at rest. */
  lemma MarksRest(s: State, r: nat, t: nat, pc: Pc, now: Instant, retryDelay: int, permanent: bool, cfg: Config)
    requires r < |s.board.rows| && r < |s.ledgers| && RowOk(s.board.rows[r], s.ledgers[r], cfg)
    requires AttemptOk(s.board.rows[r], s.ledgers[r], s.board.items, t, pc, cfg)
    ensures Rests(s, r, ReminderRows.Delivered(s.board.rows[r], t, now), cfg)
    ensures pc.Rejected? || pc.NoChat? ==>
              Rests(s, r, ReminderRows.Rejected(s.board.rows[r], t, now, permanent, retryDelay, cfg.limits), cfg)
    ensures pc.Unclear? ==> Rests(s, r, OutcomeUnknown(s.board.rows[r], t, now), cfg)
  {}

  lemma MarkStep(s: State, t: nat, now: Instant, retryDelay: int, cfg: Config)
    requires Inv(s, cfg)
    ensures Inv(StepMark(s, t, now, retryDelay, cfg), cfg)
  {
    hide Inv, RowOk, AttemptOk, Rests, ReminderRows.Delivered, ReminderRows.Rejected, OutcomeUnknown;
    if t in s.attempts {
      AttemptAt(s, t, cfg);
      var r := s.attempts[t].reminder;
      var row, pc := s.board.rows[r], s.attempts[t].pc;
      InvAt(s, r, cfg);
      MarksRest(s, r, t, pc, now, retryDelay, if pc.Rejected? then pc.permanent else true, cfg);
      match pc
      case Accepted => FinishStep(s, t, ReminderRows.Delivered(row, t, now), cfg);
      case Rejected(permanent) => FinishStep(s, t, ReminderRows.Rejected(row, t, now, permanent, retryDelay, cfg.limits), cfg);
      case NoChat => FinishStep(s, t, ReminderRows.Rejected(row, t, now, true, retryDelay, cfg.limits), cfg);
      case Unclear => FinishStep(s, t, OutcomeUnknown(row, t, now), cfg);
      case _ =>
    }
  }

  // ---------------------------------------------------------------- users and operators

  lemma UserCancelStep(s: State, r: nat, now: Instant, cfg: Config)
    requires Inv(s, cfg) && r < |s.board.rows|
    ensures Inv(SetRow(s, r, CancelledByUser(s.board.rows[r], now)), cfg)
  {
    hide Inv, RowOk, RowRests, SamePlace, CancelledByUser;
    InvAt(s, r, cfg);
    DroppedRests(s, r, 0, now, cfg);
    SamePlaceFits(s.board.rows[r], CancelledByUser(s.board.rows[r], now));
    RestingPut(s, r, CancelledByUser(s.board.rows[r], now), s.ledgers[r], s.attempts, cfg);
    assert s.ledgers[r := s.ledgers[r]] == s.ledgers;
  }

  lemma RetriedRests(was: Row, ledger: Ledger, now: Instant, cfg: Config)
    requires RowOk(was, ledger, cfg) && was.status.DeliveryUnknown?
    ensures RowRests(was, ledger, Retried(was, now), ledger.(retries := ledger.retries + 1), cfg)
    ensures SamePlace(was, Retried(was, now))
  {}

  lemma RetryStep(s: State, r: nat, now: Instant, cfg: Config)
    requires Inv(s, cfg)
    ensures Inv(StepRetry(s, r, now), cfg)
  {
    hide Inv, RowOk, RowRests, SamePlace, Retried;
    if r < |s.board.rows| && s.board.rows[r].status.DeliveryUnknown? {
      InvAt(s, r, cfg);
      RetriedRests(s.board.rows[r], s.ledgers[r], now, cfg);
      RestingPut(s, r, Retried(s.board.rows[r], now), s.ledgers[r].(retries := s.ledgers[r].retries + 1), s.attempts, cfg);
    }
  }

  // ---------------------------------------------------------------- every action, every run

  lemma StepInv(s: State, a: Action, cfg: Config)
    requires Inv(s, cfg)
    ensures Inv(Step(s, a, cfg), cfg)
  {
    hide Inv, StepManage, StepCheck, StepStart, StepSend, StepMark, StepCrash, StepGiveUp, StepRetry, Capture, RowsOk, Evolves;
    InvParts(s, cfg);
    match a
    case Manage(q) => ManageStep(s, q, cfg);
    case CaptureItem(itype, status, dueAt, followUpAt, custom, draftItem, lead, now) =>
      if OpenStatus(status) {
        CaptureEvolves(s.board, itype, status, dueAt, followUpAt, custom, draftItem, lead, now);
        EvolvedStep(s, Capture(s.board, itype, status, dueAt, followUpAt, custom, draftItem, lead, now), cfg);
      }
    case DeferForQuietHours(quiet, now) => DeferStep(s, quiet, now, cfg);
    case DailyDigest(rtype, date, at, now) =>
      if rtype.MorningDigest? || rtype.EveningDigest? { DailyDigestStep(s, rtype, date, at, now, cfg); }
    case LegacyDigest(rtype, date, at) =>
      if rtype.MorningDigest? || rtype.EveningDigest? { OtherDigestSteps(s, rtype, date, at, 0, cfg); }
    case DropFutureDigests(rtype, now) =>
      if rtype.MorningDigest? || rtype.EveningDigest? { OtherDigestSteps(s, rtype, 0, 0, now, cfg); }
    case ClaimBatch(order, now, limit) => BatchStep(s, order, now, limit, cfg);
    case CheckClaim(t, now, quietUntil) => CheckStep(s, t, now, quietUntil, cfg);
    case GiveUpDigest(t, now) => GiveUpStep(s, t, now, cfg);
    case Build(t) => if At(s, t, Ready) && !cfg.linked { BuildStep(s, t, cfg); }
    case Start(t, now) => StartStep(s, t, now, cfg);
    case SendReturns(t, outcome) => SendStep(s, t, outcome, cfg);
    case Mark(t, now, retryDelay) => MarkStep(s, t, now, retryDelay, cfg);
    case Crash(t, reached) => CrashStep(s, t, reached, cfg);
    case UserCancels(r, now) => if r < |s.board.rows| { UserCancelStep(s, r, now, cfg); }
    case OperatorRetries(r, now) => RetryStep(s, r, now, cfg);
  }

  lemma {:induction false} RunInv(s: State, actions: seq<Action>, cfg: Config)
    requires Inv(s, cfg)
    ensures Inv(Run(s, actions, cfg), cfg)
    decreases |actions|
  {
    hide Inv, Step;
    if actions != [] {
      StepInv(s, actions[0], cfg);
      RunInv(Step(s, actions[0], cfg), actions[1..], cfg);
    }
  }
}
