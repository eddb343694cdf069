/** Digests: one for each kind and local day, and each delivered once. */
module DigestSafety {
  import opened Core
  import opened ReminderRows
  import opened ReminderService
  import opened WorkItems
  import opened BoardSteps
  import opened Protocol
  import opened ProtocolInvariant
  import opened ProtocolMoves
  import opened DeliverySafety

  predicate SameDigest(was: Row, row: Row) {
    row.rtype == was.rtype && row.digestDate == was.digestDate && row.legacy == was.legacy
  }

  /** No two canonical digests of one kind share a local day. */
  predicate OneDigestEach(rows: seq<Row>) {
    forall i, j :: 0 <= i < j < |rows| && Canonical(rows[i]) ==> !SameDigest(rows[i], rows[j])
  }

  predicate Canonical(row: Row) {
    Digest(row) && row.digestDate.Some? && !row.legacy
  }

  /** Rows keep what digest they are, and at most one canonical digest is new. */
  predicate DigestsEvolve(was: seq<Row>, rows: seq<Row>) {
    && |was| <= |rows|
    && (forall r :: 0 <= r < |was| ==> SameDigest(was[r], rows[r]))
    && (forall r :: |was| <= r < |rows| ==> !Canonical(rows[r]) || (r == |was| && |rows| == |was| + 1 && NoneLike(was, rows[r])))
  }

  predicate NoneLike(rows: seq<Row>, row: Row) {
    forall k :: 0 <= k < |rows| ==> !SameDigest(rows[k], row)
  }

  lemma EvolvingKeepsOne(was: seq<Row>, rows: seq<Row>)
    requires OneDigestEach(was) && DigestsEvolve(was, rows)
    ensures OneDigestEach(rows)
  {
    forall i, j | 0 <= i < j < |rows| && Canonical(rows[i]) ensures !SameDigest(rows[i], rows[j]) {
      if j < |was| {
        assert SameDigest(was[i], rows[i]) && SameDigest(was[j], rows[j]) && !SameDigest(was[i], was[j]);
      } else if i < |was| && Canonical(rows[j]) {
        assert SameDigest(was[i], rows[i]) && !SameDigest(was[i], rows[j]);
      }
    }
  }

  lemma BoardsEvolveDigests(b: Board, c: Board)
    requires Evolves(b, c)
    ensures DigestsEvolve(b.rows, c.rows)
  {
    hide RowsOk, KeepsAgreement, ClosesQuietly;
  }

  lemma ManageDigests(s: State, q: Request, cfg: Config)
    requires Inv(s, cfg)
    ensures DigestsEvolve(s.board.rows, StepManage(s, q).board.rows)
  {
    hide Inv, Mutated, Allowed, Evolves, RowsOk;
    InvParts(s, cfg);
    if Handle(s.board, q).outcome.Applied? {
      if q.op.OpSnooze? {
        SnoozeDigests(s, q);
      } else {
        MutatedEvolves(s.board, q.origin, q.now, q.op);
        BoardsEvolveDigests(s.board, Mutated(s.board, q.origin, q.now, q.op));
      }
    }
  }

  lemma SnoozeDigests(s: State, q: Request)
    requires q.op.OpSnooze? && Handle(s.board, q).outcome.Applied?
    ensures DigestsEvolve(s.board.rows, StepManage(s, q).board.rows)
  {}

  lemma UpsertDigests(rows: seq<Row>, rtype: ReminderType, date: int, key: string, at: Instant, now: Instant)
    ensures DigestsEvolve(rows, EnsureDigest(rows, rtype, date, key, at, now))
  {
    var i := DigestAt(rows, rtype, date);
    var upserted := UpsertDigest(rows, rtype, date, key, at);
    var ensured := EnsureDigest(rows, rtype, date, key, at, now);
    assert forall r :: 0 <= r < |upserted| ==> SameDigest(upserted[r], ensured[r]);
    if i == |rows| {
      assert NoneLike(rows, upserted[i]);
    }
  }

  lemma BatchDigests(s: State, order: seq<nat>, now: Instant, limit: nat, cfg: Config)
    requires ValidLimits(cfg.limits)
    ensures DigestsEvolve(s.board.rows, ClaimDue(s.board.rows, s.nextToken, order, now, limit, cfg.limits).rows)
  {
    hide ClaimDue, Claimable;
    var batch := ClaimDue(s.board.rows, s.nextToken, order, now, limit, cfg.limits);
    ClaimDueIs(s.board.rows, s.nextToken, order, now, limit, cfg.limits);
    forall r | 0 <= r < |s.board.rows| ensures SameDigest(s.board.rows[r], batch.rows[r]) {
      assert ClaimedIn(batch, r) || batch.rows[r] == SweptAll(s.board.rows, now, cfg.limits)[r];
    }
  }

  lemma WorkerDigests(s: State, a: Action, cfg: Config)
    requires a.CheckClaim? || a.GiveUpDigest? || a.Build? || a.Start? || a.SendReturns? || a.Mark? || a.Crash?
    ensures DigestsEvolve(s.board.rows, Step(s, a, cfg).board.rows)
  {
    hide StepManage, Capture, ClaimDue, EnsureDigest, Check, HeldBy, MayStart, StepRetry;
  }

  lemma OtherDigests(s: State, a: Action, cfg: Config)
    requires a.LegacyDigest? || a.DropFutureDigests? || a.DeferForQuietHours? || a.UserCancels? || a.OperatorRetries?
    ensures DigestsEvolve(s.board.rows, Step(s, a, cfg).board.rows)
  {
    hide StepManage, Capture, ClaimDue, EnsureDigest, QuietCandidate, StepCheck, StepGiveUp, StepStart, StepSend, StepMark, StepCrash, MayCancel;
  }

  lemma StepDigests(s: State, a: Action, cfg: Config)
    requires Inv(s, cfg)
    ensures DigestsEvolve(s.board.rows, Step(s, a, cfg).board.rows)
  {
    hide Inv, DigestsEvolve, StepManage, Capture, ClaimDue, EnsureDigest, RowsOk, Evolves, DigestKey;
    InvParts(s, cfg);
    match a
    case Manage(q) => ManageDigests(s, q, cfg);
    case CaptureItem(itype, status, dueAt, followUpAt, custom, draftItem, lead, now) =>
      NothingNew(s.board.rows);
      if OpenStatus(status) {
        CaptureEvolves(s.board, itype, status, dueAt, followUpAt, custom, draftItem, lead, now);
        BoardsEvolveDigests(s.board, Capture(s.board, itype, status, dueAt, followUpAt, custom, draftItem, lead, now));
      }
    case ClaimBatch(order, now, limit) => BatchDigests(s, order, now, limit, cfg);
    case DailyDigest(rtype, date, at, now) =>
      UpsertDigests(s.board.rows, rtype, date, DigestKey(rtype, date), at, now);
      NothingNew(s.board.rows);
    case LegacyDigest(_, _, _) => OtherDigests(s, a, cfg);
    case DropFutureDigests(_, _) => OtherDigests(s, a, cfg);
    case DeferForQuietHours(_, _) => OtherDigests(s, a, cfg);
    case UserCancels(_, _) => OtherDigests(s, a, cfg);
    case OperatorRetries(_, _) => OtherDigests(s, a, cfg);
    case _ => WorkerDigests(s, a, cfg);
  }

  lemma NothingNew(rows: seq<Row>)
    ensures DigestsEvolve(rows, rows)
  {}

  lemma {:induction false} RunDigests(s: State, actions: seq<Action>, cfg: Config)
    requires Inv(s, cfg) && OneDigestEach(s.board.rows)
    ensures OneDigestEach(Run(s, actions, cfg).board.rows)
    decreases |actions|
  {
    hide Inv, Step, OneDigestEach, DigestsEvolve;
    if actions != [] {
      StepDigests(s, actions[0], cfg);
      EvolvingKeepsOne(s.board.rows, Step(s, actions[0], cfg).board.rows);
      StepInv(s, actions[0], cfg);
      RunDigests(Step(s, actions[0], cfg), actions[1..], cfg);
    }
  }

  predicate NotResent(s: State, r: nat) {
    r < |s.board.rows| && r < |s.ledgers| && Digest(s.board.rows[r]) ==> s.ledgers[r].resends == 0
  }

  lemma {:induction false} DigestsAreNotResent(s: State, actions: seq<Action>, r: nat, cfg: Config)
    requires Inv(s, cfg) && NotResent(s, r)
    ensures NotResent(Run(s, actions, cfg), r)
    decreases |actions|
  {
    hide Inv, Step, ClaimMoves, Snoozes, Retries, Begins, Settles;
    if actions != [] {
      var n := Step(s, actions[0], cfg);
      Lengths(s, cfg);
      if r < |s.board.rows| {
        StepMoves(s, actions[0], r, cfg);
      } else if r < |n.ledgers| {
        NewLedger(s, actions[0], r, cfg);
      }
      StepInv(s, actions[0], cfg);
      DigestsAreNotResent(n, actions[1..], r, cfg);
    }
  }

  /** In every run there is at most one canonical digest of a kind for a local day, however often it is ensured, and it
      reaches the user at most once plus once for each retry an operator asked for. */
  lemma DigestsAreSentOnce(actions: seq<Action>, i: nat, j: nat, cfg: Config)
    requires ValidLimits(cfg.limits)
    requires var rows := Reached(actions, cfg).board.rows; i < |rows| && j < |rows| && Canonical(rows[i]) && SameDigest(rows[i], rows[j])
    ensures i == j
    ensures i < |Reached(actions, cfg).ledgers| && |Reached(actions, cfg).ledgers[i].reached| <= 1 + RetriesOf(actions, i)
  {
    hide Run, Inv;
    EmptyInv(cfg);
    RunDigests(EMPTY, actions, cfg);
    ReachedInv(actions, cfg);
    Lengths(Reached(actions, cfg), cfg);
    AtMostOnce(actions, i, cfg);
    DigestsAreNotResent(EMPTY, actions, i, cfg);
    SameIsOne(Reached(actions, cfg).board.rows, i, j);
  }

  lemma SameIsOne(rows: seq<Row>, i: nat, j: nat)
    requires OneDigestEach(rows) && i < |rows| && j < |rows| && Canonical(rows[i]) && SameDigest(rows[i], rows[j])
    ensures i == j
  {}
}
