/** One-time login codes and sessions: requests within a sliding window, guesses per code, sessions alive at once. */
module LoginCodes {
  import opened Core

  /** Durations are in seconds, as configured. */
  datatype Settings = Settings(codeTtl: int, maxAttempts: int, requestLimit: int, window: int, sessionTtl: int,
                               maxSessions: int, retention: int)

  /** The ranges that the configuration enforces. */
  predicate ValidSettings(cfg: Settings) {
    && 60 <= cfg.codeTtl <= 3600 && 1 <= cfg.maxAttempts <= 20 && 1 <= cfg.requestLimit <= 20
    && 60 <= cfg.window <= DAY_SECONDS && DAY_SECONDS <= cfg.sessionTtl <= 365 * DAY_SECONDS
    && 1 <= cfg.maxSessions <= 20 && DAY_SECONDS <= cfg.retention <= 3650 * DAY_SECONDS
  }

  datatype Code = Code(secret: nat, createdAt: Instant, expiresAt: Instant, attempts: int, usedAt: Option<Instant>,
                       invalidatedAt: Option<Instant>)

  /** `tie` orders sessions that were created at the same instant. */
  datatype Session = Session(createdAt: Instant, tie: nat, expiresAt: Instant, revokedAt: Option<Instant>)

  /** The stored codes and sessions by identity, and beside them the history that the tables forget: when each code
      was issued, how many wrong guesses were compared, which codes were used, and the latest clean-up and login. */
  datatype State = State(codes: map<nat, Code>, sessions: map<nat, Session>, issued: seq<Instant>, logins: nat,
                         guesses: map<nat, nat>, uses: seq<nat>, cleanedAt: Option<Instant>, loginAt: Option<Instant>)

  const EMPTY := State(map[], map[], [], 0, map[], [], None, None)

  predicate Usable(code: Code) {
    code.usedAt.None? && code.invalidatedAt.None?
  }

  function Recent(codes: map<nat, Code>, start: Instant): set<nat> {
    set k | k in codes && codes[k].createdAt >= start
  }

  function Invalidated(codes: map<nat, Code>, now: Instant): map<nat, Code> {
    map k | k in codes :: if Usable(codes[k]) then codes[k].(invalidatedAt := Some(now)) else codes[k]
  }

  /** The earliest request time in the set. */
  function Earliest(codes: map<nat, Code>, ids: set<nat>, below: nat): Option<Instant>
    requires forall k :: k in ids ==> k in codes
  {
    if below == 0 then None
    else
      var rest := Earliest(codes, ids, below - 1);
      if below - 1 in ids && (rest.None? || codes[below - 1].createdAt < rest.value) then Some(codes[below - 1].createdAt) else rest
  }

  datatype IssueResult = Limited(retryAfter: int) | Issued(expiresAt: Instant)

  function RetryAfter(codes: map<nat, Code>, count: nat, now: Instant, cfg: Settings): int {
    var earliest := Earliest(codes, Recent(codes, now - cfg.window * SECOND), count);
    if earliest.None? then 1 else Max(1, Truncated(earliest.value + cfg.window * SECOND - now))
  }

  /** Whole seconds, cut towards zero. */
  function Truncated(span: int): int {
    if span >= 0 then span / SECOND else -((-span) / SECOND)
  }

  function Issue(s: State, now: Instant, secret: nat, cfg: Settings): (State, IssueResult) {
    if |Recent(s.codes, now - cfg.window * SECOND)| >= cfg.requestLimit then
      (s, Limited(RetryAfter(s.codes, |s.issued|, now, cfg)))
    else
      var expiresAt := now + cfg.codeTtl * SECOND;
      (s.(codes := Invalidated(s.codes, now)[|s.issued| := Code(secret, now, expiresAt, 0, None, None)],
          issued := s.issued + [now], guesses := s.guesses[|s.issued| := 0]),
       Issued(expiresAt))
  }

  /** The usable code created last. */
  function Latest(codes: map<nat, Code>, below: nat): Option<nat> {
    if below == 0 then None
    else
      var rest := Latest(codes, below - 1);
      if below - 1 in codes && Usable(codes[below - 1])
         && (rest.None? || (rest.value in codes && codes[rest.value].createdAt <= codes[below - 1].createdAt)) then Some(below - 1)
      else rest
  }

  predicate Live(session: Session, at: Instant) {
    session.revokedAt.None? && session.expiresAt > at
  }

  predicate Before(a: Session, b: Session) {
    a.createdAt < b.createdAt || (a.createdAt == b.createdAt && a.tie <= b.tie)
  }

  function Inserted(order: seq<nat>, sessions: map<nat, Session>, k: nat): seq<nat>
    requires k in sessions && forall i :: 0 <= i < |order| ==> order[i] in sessions
    decreases |order|
  {
    if order == [] || Before(sessions[k], sessions[order[0]]) then [k] + order
    else [order[0]] + Inserted(order[1..], sessions, k)
  }

  /** The sessions alive at an instant, oldest first. */
  function Ordered(sessions: map<nat, Session>, below: nat, at: Instant): (order: seq<nat>)
    ensures forall i :: 0 <= i < |order| ==> order[i] in sessions
  {
    if below == 0 then []
    else
      var order := Ordered(sessions, below - 1, at);
      if below - 1 in sessions && Live(sessions[below - 1], at) then
        InsertedElements(order, sessions, below - 1);
        var longer := Inserted(order, sessions, below - 1);
        assert forall i :: 0 <= i < |longer| ==> longer[i] in longer;
        longer
      else order
  }

  lemma {:induction false} InsertedElements(order: seq<nat>, sessions: map<nat, Session>, k: nat)
    requires k in sessions && forall i :: 0 <= i < |order| ==> order[i] in sessions
    ensures forall n :: n in Inserted(order, sessions, k) <==> n == k || n in order
    ensures |Inserted(order, sessions, k)| == |order| + 1
    decreases |order|
  {
    if order != [] && !Before(sessions[k], sessions[order[0]]) {
      InsertedElements(order[1..], sessions, k);
      assert forall n :: n in order <==> n == order[0] || n in order[1..];
    }
  }

  function Revoked(sessions: map<nat, Session>, ids: seq<nat>, now: Instant): map<nat, Session> {
    map k | k in sessions :: if k in ids then sessions[k].(revokedAt := Some(now)) else sessions[k]
  }

  /** The oldest live sessions that must go so that one more fits. */
  function Surplus(s: State, now: Instant, cfg: Settings): seq<nat> {
    var order := Ordered(s.sessions, s.logins, now);
    order[..Min(|order|, Max(0, |order| - cfg.maxSessions + 1))]
  }

  datatype LoginResult = Refused(recorded: bool) | LoggedIn(session: nat)

  function WithCode(s: State, k: nat, code: Code): State {
    s.(codes := s.codes[k := code])
  }

  function Verify(s: State, now: Instant, guess: nat, tie: nat, cfg: Settings): (State, LoginResult) {
    var latest := Latest(s.codes, |s.issued|);
    if latest.None? || latest.value !in s.codes then (s, Refused(false))
    else
      var k, code := latest.value, s.codes[latest.value];
      if code.expiresAt <= now || code.attempts >= cfg.maxAttempts then
        (WithCode(s, k, code.(invalidatedAt := Some(now))), Refused(true))
      else if guess != code.secret then
        var tried := code.(attempts := code.attempts + 1);
        var t := WithCode(s, k, if tried.attempts >= cfg.maxAttempts then tried.(invalidatedAt := Some(now)) else tried);
        (t.(guesses := t.guesses[k := (if k in t.guesses then t.guesses[k] else 0) + 1]), Refused(true))
      else
        var t := WithCode(s, k, code.(usedAt := Some(now)));
        (t.(sessions := Revoked(s.sessions, Surplus(s, now, cfg), now)[s.logins := Session(now, tie, now + cfg.sessionTtl * SECOND, None)],
            logins := s.logins + 1, uses := s.uses + [k], loginAt := Some(now)),
         LoggedIn(s.logins))
  }

  function Revoke(s: State, id: nat, now: Instant): State {
    if id in s.sessions && Live(s.sessions[id], now) then
      s.(sessions := s.sessions[id := s.sessions[id].(revokedAt := Some(now))])
    else s
  }

  /** The clean-up of expired records. */
  function Clean(s: State, now: Instant, cfg: Settings): State {
    var cutoff := now - cfg.retention * SECOND;
    s.(codes := map k | k in s.codes && s.codes[k].expiresAt > cutoff :: s.codes[k],
       sessions := map k | k in s.sessions && s.sessions[k].expiresAt > cutoff && !AtOrBefore(s.sessions[k].revokedAt, cutoff) :: s.sessions[k],
       cleanedAt := Some(if s.cleanedAt.Some? && s.cleanedAt.value > now then s.cleanedAt.value else now))
  }

  datatype Action =
    | Request(now: Instant, secret: nat)
    | Login(now: Instant, guess: nat, tie: nat)
    | Logout(now: Instant, id: nat)
    | CleanUp(now: Instant)

  function Step(s: State, a: Action, cfg: Settings): State {
    match a
    case Request(now, secret) => Issue(s, now, secret, cfg).0
    case Login(now, guess, tie) => Verify(s, now, guess, tie, cfg).0
    case Logout(now, id) => Revoke(s, id, now)
    case CleanUp(now) => Clean(s, now, cfg)
  }

  function Run(s: State, actions: seq<Action>, cfg: Settings): State
    decreases |actions|
  {
    if actions == [] then s else Run(Step(s, actions[0], cfg), actions[1..], cfg)
  }

  /** A request's clock may lag behind an earlier clean-up, but by less than the time for which codes outlive the window. */
  predicate LagsLittle(cleaned: Instant, now: Instant, cfg: Settings) {
    cleaned - (cfg.retention + cfg.codeTtl - cfg.window) * SECOND < now
  }

  predicate ClocksLagLittle(s: State, actions: seq<Action>, cfg: Settings) {
    && (forall k :: 0 <= k < |actions| && actions[k].Request? && s.cleanedAt.Some? ==> LagsLittle(s.cleanedAt.value, actions[k].now, cfg))
    && (forall j, k :: 0 <= j < k < |actions| && actions[j].CleanUp? && actions[k].Request? ==>
         LagsLittle(actions[j].now, actions[k].now, cfg))
  }

  // ---------------------------------------------------------------- codes

  /** A code issued at the instant is still stored, or was due for clean-up when the latest clean-up ran. */
  predicate Remembered(s: State, k: nat, cfg: Settings)
    requires k < |s.issued|
  {
    || (k in s.codes && s.codes[k].createdAt == s.issued[k])
    || (s.cleanedAt.Some? && s.issued[k] + cfg.codeTtl * SECOND <= s.cleanedAt.value - cfg.retention * SECOND)
  }

  predicate CodeOk(s: State, k: nat, cfg: Settings)
    requires k in s.codes
  {
    var code := s.codes[k];
    && k < |s.issued| && code.createdAt == s.issued[k] && code.expiresAt == code.createdAt + cfg.codeTtl * SECOND
    && 0 <= code.attempts <= cfg.maxAttempts && k in s.guesses && s.guesses[k] == code.attempts
    && (code.attempts == cfg.maxAttempts ==> !Usable(code))
    && (code.usedAt.None? ==> k !in s.uses)
  }

  function IssuedWithin(issued: seq<Instant>, from: Instant, span: int): set<nat> {
    set k | 0 <= k < |issued| && from <= issued[k] <= from + span
  }

  ghost predicate WindowOk(issued: seq<Instant>, cfg: Settings) {
    forall from :: |IssuedWithin(issued, from, cfg.window * SECOND)| <= cfg.requestLimit
  }

  ghost predicate CodesOk(s: State, cfg: Settings) {
    && ValidSettings(cfg)
    && (forall k :: 0 <= k < |s.issued| ==> Remembered(s, k, cfg))
    && (forall k :: k in s.codes ==> CodeOk(s, k, cfg))
    && (forall j, k :: j in s.codes && k in s.codes && Usable(s.codes[j]) && Usable(s.codes[k]) ==> j == k)
    && (forall k :: 0 <= k < |s.issued| ==> k in s.guesses && s.guesses[k] <= cfg.maxAttempts)
    && (forall i :: 0 <= i < |s.uses| ==> s.uses[i] < |s.issued|)
    && (forall i, j :: 0 <= i < j < |s.uses| ==> s.uses[i] != s.uses[j])
  }

  // ---------------------------------------------------------------- every action keeps the codes in order

  /** Issuing within the limit keeps every window within the limit, though clean-up has forgotten old codes. */
  lemma IssueKeepsWindows(s: State, now: Instant, cfg: Settings)
    requires CodesOk(s, cfg) && WindowOk(s.issued, cfg)
    requires s.cleanedAt.Some? ==> LagsLittle(s.cleanedAt.value, now, cfg)
    requires |Recent(s.codes, now - cfg.window * SECOND)| < cfg.requestLimit
    ensures WindowOk(s.issued + [now], cfg)
  {
    hide CodeOk;
    var issued := s.issued + [now];
    forall from ensures |IssuedWithin(issued, from, cfg.window * SECOND)| <= cfg.requestLimit {
      var before := IssuedWithin(s.issued, from, cfg.window * SECOND);
      var after := IssuedWithin(issued, from, cfg.window * SECOND);
      if from <= now <= from + cfg.window * SECOND {
        assert after == before + {|s.issued|};
        forall k | k in before ensures k in Recent(s.codes, now - cfg.window * SECOND) {
          assert Remembered(s, k, cfg);
        }
        SubsetSize(before, Recent(s.codes, now - cfg.window * SECOND));
      } else {
        assert after == before;
      }
    }
  }

  lemma IssueKeepsCodes(s: State, now: Instant, secret: nat, cfg: Settings)
    requires CodesOk(s, cfg)
    ensures CodesOk(Issue(s, now, secret, cfg).0, cfg)
  {
    hide Recent, RetryAfter;
    var t := Issue(s, now, secret, cfg).0;
    if t != s {
      assert forall k :: k in s.codes ==> CodeOk(s, k, cfg);
      forall k | 0 <= k < |t.issued| ensures Remembered(t, k, cfg) {
        if k < |s.issued| {
          assert Remembered(s, k, cfg);
        }
      }
      forall k | k in t.codes ensures CodeOk(t, k, cfg) {
        if k < |s.issued| {
          assert CodeOk(s, k, cfg);
        }
      }
    }
  }

  lemma {:induction false} LatestIs(codes: map<nat, Code>, below: nat)
    ensures Latest(codes, below).Some? ==> Latest(codes, below).value in codes && Usable(codes[Latest(codes, below).value])
    ensures Latest(codes, below).None? ==> forall k :: 0 <= k < below && k in codes ==> !Usable(codes[k])
    decreases below
  {
    if below > 0 {
      LatestIs(codes, below - 1);
    }
  }

  /** A guess, right or wrong, changes the one usable code and no other. */
  lemma VerifyKeepsCodes(s: State, now: Instant, guess: nat, tie: nat, cfg: Settings)
    requires CodesOk(s, cfg)
    ensures CodesOk(Verify(s, now, guess, tie, cfg).0, cfg) && Verify(s, now, guess, tie, cfg).0.issued == s.issued
  {
    hide Surplus, Revoked, CodesOk, Latest;
    LatestIs(s.codes, |s.issued|);
    var latest := Latest(s.codes, |s.issued|);
    if latest.Some? {
      CodeAt(s, latest.value, cfg);
      OneCodeChanges(s, Verify(s, now, guess, tie, cfg).0, latest.value, cfg);
    }
  }

  lemma CodeAt(s: State, k: nat, cfg: Settings)
    requires CodesOk(s, cfg) && k in s.codes
    ensures CodeOk(s, k, cfg) && k in s.guesses && cfg.maxAttempts >= 1
  {}

  /** A usable code may change in any consistent way; the other codes stand. */
  lemma OneCodeChanges(s: State, t: State, k: nat, cfg: Settings)
    requires CodesOk(s, cfg) && k in s.codes && Usable(s.codes[k]) && t.issued == s.issued && t.cleanedAt == s.cleanedAt
    requires t.codes.Keys == s.codes.Keys && (forall j <- s.codes :: j != k ==> t.codes[j] == s.codes[j])
    requires t.guesses.Keys == s.guesses.Keys && (forall j <- s.guesses :: j != k ==> t.guesses[j] == s.guesses[j])
    requires k in t.guesses && t.guesses[k] <= cfg.maxAttempts
    requires t.uses == s.uses || t.uses == s.uses + [k]
    requires CodeOk(t, k, cfg)
    ensures CodesOk(t, cfg)
  {
    forall j | 0 <= j < |t.issued| ensures Remembered(t, j, cfg) {
      assert Remembered(s, j, cfg);
    }
    assert CodeOk(s, k, cfg);
    forall j | j in t.codes ensures CodeOk(t, j, cfg) {
      assert CodeOk(s, j, cfg);
    }
  }

  lemma CleanKeepsCodes(s: State, now: Instant, cfg: Settings)
    requires CodesOk(s, cfg)
    ensures CodesOk(Clean(s, now, cfg), cfg)
  {
    var t := Clean(s, now, cfg);
    forall k | 0 <= k < |t.issued| ensures Remembered(t, k, cfg) {
      assert Remembered(s, k, cfg);
      if k in s.codes {
        assert CodeOk(s, k, cfg);
      }
    }
    forall k | k in t.codes ensures CodeOk(t, k, cfg) {
      assert CodeOk(s, k, cfg);
    }
  }

  lemma StepKeepsCodes(s: State, a: Action, cfg: Settings)
    requires CodesOk(s, cfg) && WindowOk(s.issued, cfg)
    requires a.Request? && s.cleanedAt.Some? ==> LagsLittle(s.cleanedAt.value, a.now, cfg)
    ensures CodesOk(Step(s, a, cfg), cfg) && WindowOk(Step(s, a, cfg).issued, cfg)
  {
    hide WindowOk, CodeOk, Remembered, Recent, RetryAfter, Verify;
    match a
    case Request(now, secret) =>
      IssueKeepsCodes(s, now, secret, cfg);
      if |Recent(s.codes, now - cfg.window * SECOND)| < cfg.requestLimit {
        IssueKeepsWindows(s, now, cfg);
      }
    case Login(now, guess, tie) => VerifyKeepsCodes(s, now, guess, tie, cfg);
    case CleanUp(now) => CleanKeepsCodes(s, now, cfg);
    case Logout(now, id) => RevokeKeepsCodes(s, id, now, cfg);
  }

  lemma RevokeKeepsCodes(s: State, id: nat, now: Instant, cfg: Settings)
    requires CodesOk(s, cfg)
    ensures CodesOk(Revoke(s, id, now), cfg)
  {
    var t := Revoke(s, id, now);
    forall k | 0 <= k < |t.issued| ensures Remembered(t, k, cfg) {
      assert Remembered(s, k, cfg);
    }
    forall k | k in t.codes ensures CodeOk(t, k, cfg) {
      assert CodeOk(s, k, cfg);
    }
  }

  lemma {:induction false} RunKeepsCodes(s: State, actions: seq<Action>, cfg: Settings)
    requires CodesOk(s, cfg) && WindowOk(s.issued, cfg) && ClocksLagLittle(s, actions, cfg)
    ensures CodesOk(Run(s, actions, cfg), cfg) && WindowOk(Run(s, actions, cfg).issued, cfg)
    decreases |actions|
  {
    hide CodesOk, WindowOk;
    if actions != [] {
      StepKeepsCodes(s, actions[0], cfg);
      ClocksStillLagLittle(s, actions, cfg);
      RunKeepsCodes(Step(s, actions[0], cfg), actions[1..], cfg);
    }
  }

  lemma ClocksStillLagLittle(s: State, actions: seq<Action>, cfg: Settings)
    requires actions != [] && ClocksLagLittle(s, actions, cfg)
    ensures ClocksLagLittle(Step(s, actions[0], cfg), actions[1..], cfg)
  {
    hide Recent, RetryAfter, Surplus, Revoked, Latest;
    var t, rest := Step(s, actions[0], cfg), actions[1..];
    assert t.cleanedAt == (if actions[0].CleanUp? then Clean(s, actions[0].now, cfg).cleanedAt else s.cleanedAt);
    forall k | 0 <= k < |rest| && rest[k].Request? && t.cleanedAt.Some? ensures LagsLittle(t.cleanedAt.value, rest[k].now, cfg) {
      assert rest[k] == actions[k + 1];
    }
  }

  // ---------------------------------------------------------------- the guarantees on codes

  /** In every run, whatever is guessed, used or cleaned up: any stretch of time as long as the window contains at most
      the allowed number of issued codes, at most one code is usable, no code is ever compared with more wrong guesses
      than allowed, and no code is used twice. */
  lemma CodesAreLimited(actions: seq<Action>, cfg: Settings)
    requires ValidSettings(cfg) && ClocksLagLittle(EMPTY, actions, cfg)
    ensures var s := Run(EMPTY, actions, cfg);
            && (forall from :: |IssuedWithin(s.issued, from, cfg.window * SECOND)| <= cfg.requestLimit)
            && (forall j, k :: j in s.codes && k in s.codes && Usable(s.codes[j]) && Usable(s.codes[k]) ==> j == k)
            && (forall k :: 0 <= k < |s.issued| ==> k in s.guesses && s.guesses[k] <= cfg.maxAttempts)
            && (forall i, j :: 0 <= i < j < |s.uses| ==> s.uses[i] != s.uses[j])
            && |s.uses| <= |s.issued|
  {
    hide Run, Remembered, CodeOk;
    assert WindowOk(EMPTY.issued, cfg) by {
      forall from ensures |IssuedWithin([], from, cfg.window * SECOND)| <= cfg.requestLimit {
        assert IssuedWithin([], from, cfg.window * SECOND) == {};
      }
    }
    RunKeepsCodes(EMPTY, actions, cfg);
    DistinctAreFew(Run(EMPTY, actions, cfg).uses, |Run(EMPTY, actions, cfg).issued|);
  }

  /** So many requests at instant 0. */
  function Requests(n: nat, secret: nat): seq<Action> {
    if n == 0 then [] else [Request(0, secret)] + Requests(n - 1, secret)
  }

  /** Nothing but `n` codes of instant 0. */
  predicate Served(s: State, n: nat, cfg: Settings) {
    && |s.issued| == n && (forall k :: 0 <= k < n ==> s.issued[k] == 0) && |s.codes.Keys| == n
    && forall k :: k in s.codes ==> k < n && s.codes[k].expiresAt == cfg.codeTtl * SECOND
  }

  lemma OneServed(s: State, n: nat, secret: nat, cfg: Settings)
    requires Served(s, n, cfg) && n < cfg.requestLimit
    ensures Served(Issue(s, 0, secret, cfg).0, n + 1, cfg)
  {
    var recent := Recent(s.codes, 0 - cfg.window * SECOND);
    SubsetSize(recent, s.codes.Keys);
    assert Invalidated(s.codes, 0).Keys == s.codes.Keys;
    assert Issue(s, 0, secret, cfg).0.codes.Keys == s.codes.Keys + {n};
  }

  lemma {:induction false} AllServed(s: State, m: nat, n: nat, secret: nat, rest: seq<Action>, cfg: Settings) returns (t: State)
    requires Served(s, m, cfg) && m + n <= cfg.requestLimit
    ensures Served(t, m + n, cfg) && Run(s, Requests(n, secret) + rest, cfg) == Run(t, rest, cfg)
    decreases n
  {
    hide Served, Issue;
    if n == 0 {
      t := s;
      assert Requests(0, secret) + rest == rest;
    } else {
      OneServed(s, m, secret, cfg);
      t := AllServed(Issue(s, 0, secret, cfg).0, m + 1, n - 1, secret, rest, cfg);
      assert (Requests(n, secret) + rest)[1..] == Requests(n - 1, secret) + rest;
    }
  }

  /** The bound on the lag is exact, for every limit: with as many requests as the limit allows, a clean-up, and one more
      request whose clock lags by just that much, a window holds too many. */
  lemma LagBreaksTheWindow(cfg: Settings, secret: nat)
    requires ValidSettings(cfg)
    ensures var cleaned, now := (cfg.retention + cfg.codeTtl) * SECOND, cfg.window * SECOND;
            var s := Run(EMPTY, Requests(cfg.requestLimit, secret) + [CleanUp(cleaned), Request(now, secret)], cfg);
            && cleaned - (cfg.retention + cfg.codeTtl - cfg.window) * SECOND == now
            && |IssuedWithin(s.issued, 0, cfg.window * SECOND)| == cfg.requestLimit + 1
  {
    var cleaned, now := (cfg.retention + cfg.codeTtl) * SECOND, cfg.window * SECOND;
    var last := [CleanUp(cleaned), Request(now, secret)];
    var s1 := AllServed(EMPTY, 0, cfg.requestLimit, secret, last, cfg);
    var s2 := Step(s1, last[0], cfg);
    assert s2.codes.Keys == {};
    assert Recent(s2.codes, now - cfg.window * SECOND) == {};
    var s3 := Step(s2, last[1], cfg);
    assert s3.issued == s1.issued + [now];
    assert last[1..] == [last[1]] && last[1..][1..] == [];
    assert Run(s2, last[1..], cfg) == Run(s3, [], cfg) == s3;
    AllWithin(s3.issued, cfg.window * SECOND);
  }

  lemma {:induction false} AllWithin(issued: seq<Instant>, span: int)
    requires forall k :: 0 <= k < |issued| ==> 0 <= issued[k] <= span
    ensures |IssuedWithin(issued, 0, span)| == |issued|
    decreases |issued|
  {
    if issued != [] {
      var n := |issued| - 1;
      AllWithin(issued[..n], span);
      assert IssuedWithin(issued, 0, span) == IssuedWithin(issued[..n], 0, span) + {n};
    }
  }

  lemma {:induction false} DistinctAreFew(values: seq<nat>, bound: nat)
    requires forall i :: 0 <= i < |values| ==> values[i] < bound
    requires forall i, j :: 0 <= i < j < |values| ==> values[i] != values[j]
    ensures |values| <= bound
    decreases bound
  {
    if values != [] {
      assert values[0] < bound;
      if k :| 0 <= k < |values| && values[k] == bound - 1 {
        var rest := values[..k] + values[k + 1..];
        assert forall i :: 0 <= i < |rest| ==> rest[i] == if i < k then values[i] else values[i + 1];
        DistinctAreFew(rest, bound - 1);
      } else {
        DistinctAreFew(values, bound - 1);
      }
    }
  }

  /** A request is refused exactly if the window holds as many as allowed, and then changes nothing. Otherwise its secret is
      the one usable code, from now on and for its lifetime, and every other that could be used ends now. */
  lemma RequestDecides(s: State, now: Instant, secret: nat, cfg: Settings)
    requires forall k <- s.codes :: k < |s.issued|
    ensures var (t, result) := Issue(s, now, secret, cfg);
            var recent := set k | k in s.codes && now - cfg.window * SECOND <= s.codes[k].createdAt;
            && (result.Limited? <==> |recent| >= cfg.requestLimit) && (result.Limited? ==> t == s)
            && (result.Issued? ==>
                  && result.expiresAt == now + cfg.codeTtl * SECOND && t.issued == s.issued + [now] && t.sessions == s.sessions
                  && t.codes.Keys == s.codes.Keys + {|s.issued|}
                  && t.codes[|s.issued|] == Code(secret, now, now + cfg.codeTtl * SECOND, 0, None, None)
                  && (forall k <- s.codes :: t.codes[k] ==
                       if s.codes[k].usedAt.None? && s.codes[k].invalidatedAt.None? then s.codes[k].(invalidatedAt := Some(now)) else s.codes[k]))
  {
    hide RetryAfter;
    assert Recent(s.codes, now - cfg.window * SECOND) == set k | k in s.codes && now - cfg.window * SECOND <= s.codes[k].createdAt;
  }

  // ---------------------------------------------------------------- what a guess opens

  /** The code that counts: unused and valid, and issued after every other such code. */
  predicate Counts(codes: map<nat, Code>, k: nat) {
    && k in codes && codes[k].usedAt.None? && codes[k].invalidatedAt.None?
    && forall j <- codes :: j != k && codes[j].usedAt.None? && codes[j].invalidatedAt.None? ==>
         codes[j].createdAt < codes[k].createdAt || (codes[j].createdAt == codes[k].createdAt && j < k)
  }

  /** It can still be entered. */
  predicate Enterable(code: Code, now: Instant, cfg: Settings) {
    now < code.expiresAt && code.attempts < cfg.maxAttempts
  }

  predicate BestBelow(codes: map<nat, Code>, below: nat, k: nat) {
    && k in codes && Usable(codes[k]) && k < below
    && forall j <- codes :: j < below && j != k && Usable(codes[j]) ==>
         codes[j].createdAt < codes[k].createdAt || (codes[j].createdAt == codes[k].createdAt && j < k)
  }

  lemma {:induction false} LatestIsBest(codes: map<nat, Code>, below: nat)
    ensures Latest(codes, below).Some? ==> BestBelow(codes, below, Latest(codes, below).value)
    ensures Latest(codes, below).None? ==> forall k <- codes :: k < below ==> !Usable(codes[k])
    decreases below
  {
    if below > 0 {
      LatestIsBest(codes, below - 1);
    }
  }

  lemma LatestCounts(codes: map<nat, Code>, count: nat, k: nat)
    requires forall j <- codes :: j < count
    ensures Latest(codes, count) == Some(k) <==> Counts(codes, k)
  {
    LatestIsBest(codes, count);
  }

  /** A guess opens a session if and only if it is the secret of the code that counts, entered in time and with guesses
      left. Then there is one new session, and the code is used. */
  lemma LoginSucceedsExactly(s: State, now: Instant, guess: nat, tie: nat, cfg: Settings)
    requires forall k <- s.codes :: k < |s.issued|
    ensures var (t, result) := Verify(s, now, guess, tie, cfg);
            && (result.LoggedIn? <==> exists k <- s.codes :: Counts(s.codes, k) && Enterable(s.codes[k], now, cfg) && s.codes[k].secret == guess)
            && (result.LoggedIn? ==>
                  && s.logins in t.sessions && t.sessions.Keys == s.sessions.Keys + {s.logins} && t.logins == s.logins + 1
                  && t.sessions[s.logins] == Session(now, tie, now + cfg.sessionTtl * SECOND, None)
                  && (forall k <- s.codes :: Counts(s.codes, k) ==>
                       && t.codes == s.codes[k := s.codes[k].(usedAt := Some(now))] && t.uses == s.uses + [k]))
            && (!result.LoggedIn? ==> t.sessions == s.sessions && t.logins == s.logins && t.uses == s.uses)
  {
    hide Latest, Surplus, Counts;
    var latest := Latest(s.codes, |s.issued|);
    forall k <- s.codes ensures latest == Some(k) <==> Counts(s.codes, k) {
      LatestCounts(s.codes, |s.issued|, k);
    }
    LatestIs(s.codes, |s.issued|);
  }

  /** A guess that fails costs an attempt where a code could be entered, and ends the code with its last one; a code that
      cannot be entered any more is ended without that. Nothing else changes. */
  lemma LoginFailsExactly(s: State, now: Instant, guess: nat, tie: nat, k: nat, cfg: Settings)
    requires (forall j <- s.codes :: j < |s.issued|) && Counts(s.codes, k)
    requires !(Enterable(s.codes[k], now, cfg) && s.codes[k].secret == guess)
    ensures var t := Verify(s, now, guess, tie, cfg).0;
            var tried := s.codes[k].attempts + (if Enterable(s.codes[k], now, cfg) then 1 else 0);
            && t.codes == s.codes[k := s.codes[k].(attempts := tried,
                 invalidatedAt := if Enterable(s.codes[k], now, cfg) && tried < cfg.maxAttempts then None else Some(now))]
            && t.sessions == s.sessions
  {
    hide Latest, Surplus;
    LatestCounts(s.codes, |s.issued|, k);
  }

  /** Where each stored code and each open session comes from. */
  predicate CodeFrom(code: Code, a: Action, cfg: Settings) {
    a == Request(code.createdAt, code.secret) && code.expiresAt == code.createdAt + cfg.codeTtl * SECOND
  }

  predicate SessionFrom(session: Session, request: Action, login: Action, cfg: Settings) {
    && request.Request? && login.Login? && request.secret == login.guess && login.now < request.now + cfg.codeTtl * SECOND
    && session.createdAt == login.now && session.expiresAt == login.now + cfg.sessionTtl * SECOND
  }

  predicate CodeTraced(actions: seq<Action>, code: Code, cfg: Settings) {
    exists j :: 0 <= j < |actions| && CodeFrom(code, actions[j], cfg)
  }

  predicate SessionTraced(actions: seq<Action>, session: Session, cfg: Settings) {
    exists j, k :: 0 <= j < k < |actions| && SessionFrom(session, actions[j], actions[k], cfg)
  }

  predicate Traced(s: State, actions: seq<Action>, cfg: Settings) {
    && (forall k <- s.codes :: k < |s.issued| && CodeTraced(actions, s.codes[k], cfg))
    && (forall id <- s.sessions :: SessionTraced(actions, s.sessions[id], cfg))
  }

  lemma TracedLater(actions: seq<Action>, a: Action, cfg: Settings)
    ensures forall code: Code :: CodeTraced(actions, code, cfg) ==> CodeTraced(actions + [a], code, cfg)
    ensures forall session: Session :: SessionTraced(actions, session, cfg) ==> SessionTraced(actions + [a], session, cfg)
  {
    var all := actions + [a];
    forall code: Code | CodeTraced(actions, code, cfg) ensures CodeTraced(all, code, cfg) {
      var j :| 0 <= j < |actions| && CodeFrom(code, actions[j], cfg);
      assert CodeFrom(code, all[j], cfg);
    }
    forall session: Session | SessionTraced(actions, session, cfg) ensures SessionTraced(all, session, cfg) {
      var j, k :| 0 <= j < k < |actions| && SessionFrom(session, actions[j], actions[k], cfg);
      assert SessionFrom(session, all[j], all[k], cfg);
    }
  }

  predicate SameOrigin(code: Code, other: Code) {
    other.secret == code.secret && other.createdAt == code.createdAt && other.expiresAt == code.expiresAt
  }

  predicate SameSpan(session: Session, other: Session) {
    other.createdAt == session.createdAt && other.expiresAt == session.expiresAt
  }

  /** A code's origin outlives its marks, a session's its end. */
  lemma MarksKeepTraces(actions: seq<Action>, cfg: Settings)
    ensures forall code, other :: CodeTraced(actions, code, cfg) && SameOrigin(code, other) ==> CodeTraced(actions, other, cfg)
    ensures forall session, other :: SessionTraced(actions, session, cfg) && SameSpan(session, other) ==> SessionTraced(actions, other, cfg)
  {
    forall code, other | CodeTraced(actions, code, cfg) && SameOrigin(code, other) ensures CodeTraced(actions, other, cfg) {
      var j :| 0 <= j < |actions| && CodeFrom(code, actions[j], cfg);
      assert CodeFrom(other, actions[j], cfg);
    }
    forall session, other | SessionTraced(actions, session, cfg) && SameSpan(session, other) ensures SessionTraced(actions, other, cfg) {
      var j, k :| 0 <= j < k < |actions| && SessionFrom(session, actions[j], actions[k], cfg);
      assert SessionFrom(other, actions[j], actions[k], cfg);
    }
  }

  lemma RequestTraced(s: State, actions: seq<Action>, now: Instant, secret: nat, cfg: Settings)
    requires Traced(s, actions, cfg)
    ensures Traced(Issue(s, now, secret, cfg).0, actions + [Request(now, secret)], cfg)
  {
    hide CodeTraced, SessionTraced, RetryAfter, Recent;
    var all := actions + [Request(now, secret)];
    var t := Issue(s, now, secret, cfg).0;
    TracedLater(actions, Request(now, secret), cfg);
    MarksKeepTraces(all, cfg);
    if t != s {
      NewCodeTraced(actions, now, secret, t.codes[|s.issued|], cfg);
    }
  }

  lemma NewCodeTraced(actions: seq<Action>, now: Instant, secret: nat, code: Code, cfg: Settings)
    requires CodeFrom(code, Request(now, secret), cfg)
    ensures CodeTraced(actions + [Request(now, secret)], code, cfg)
  {
    var all := actions + [Request(now, secret)];
    assert all[|actions|] == Request(now, secret);
  }

  /** A guess only marks codes and ends sessions. */
  lemma VerifyMarks(s: State, now: Instant, guess: nat, tie: nat, cfg: Settings)
    ensures var t := Verify(s, now, guess, tie, cfg).0;
            && t.issued == s.issued && t.codes.Keys == s.codes.Keys
            && (forall k <- s.codes :: SameOrigin(s.codes[k], t.codes[k]))
            && (forall id <- s.sessions :: id in t.sessions && (id != s.logins ==> SameSpan(s.sessions[id], t.sessions[id])))
  {
    hide Latest, Surplus;
  }

  lemma LoginTraced(s: State, actions: seq<Action>, now: Instant, guess: nat, tie: nat, cfg: Settings)
    requires Traced(s, actions, cfg)
    ensures Traced(Verify(s, now, guess, tie, cfg).0, actions + [Login(now, guess, tie)], cfg)
  {
    hide CodeTraced, SessionTraced, Verify, Counts, SameOrigin, SameSpan;
    VerifyMarks(s, now, guess, tie, cfg);
    var login := Login(now, guess, tie);
    var all := actions + [login];
    var (t, result) := Verify(s, now, guess, tie, cfg);
    TracedLater(actions, login, cfg);
    MarksKeepTraces(all, cfg);
    LoginSucceedsExactly(s, now, guess, tie, cfg);
    if result.LoggedIn? {
      var k :| k in s.codes && Counts(s.codes, k) && Enterable(s.codes[k], now, cfg) && s.codes[k].secret == guess;
      NewSessionTraced(actions, login, s.codes[k], t.sessions[s.logins], cfg);
    }
  }

  lemma NewSessionTraced(actions: seq<Action>, login: Action, code: Code, session: Session, cfg: Settings)
    requires CodeTraced(actions, code, cfg) && login.Login? && login.guess == code.secret && login.now < code.expiresAt
    requires session.createdAt == login.now && session.expiresAt == login.now + cfg.sessionTtl * SECOND
    ensures SessionTraced(actions + [login], session, cfg)
  {
    var all := actions + [login];
    var j :| 0 <= j < |actions| && CodeFrom(code, actions[j], cfg);
    assert SessionFrom(session, all[j], all[|actions|], cfg);
  }

  lemma StepTraced(s: State, actions: seq<Action>, a: Action, cfg: Settings)
    requires Traced(s, actions, cfg)
    ensures Traced(Step(s, a, cfg), actions + [a], cfg)
  {
    hide CodeTraced, SessionTraced, Issue, Verify;
    match a
    case Request(now, secret) => RequestTraced(s, actions, now, secret, cfg);
    case Login(now, guess, tie) => LoginTraced(s, actions, now, guess, tie, cfg);
    case _ =>
      TracedLater(actions, a, cfg);
      MarksKeepTraces(actions + [a], cfg);
  }

  lemma {:induction false} RunTraced(s: State, before: seq<Action>, actions: seq<Action>, cfg: Settings)
    requires Traced(s, before, cfg)
    ensures Traced(Run(s, actions, cfg), before + actions, cfg)
    decreases |actions|
  {
    hide Step, Traced;
    if actions == [] {
      assert before + actions == before;
    } else {
      StepTraced(s, before, actions[0], cfg);
      RunTraced(Step(s, actions[0], cfg), before + [actions[0]], actions[1..], cfg);
      assert before + [actions[0]] + actions[1..] == before + actions;
    }
  }

  /** Every session of every run was opened by a login whose guess is the secret of an earlier request, within the lifetime
      of the code that request issued. */
  lemma EverySessionWasEarned(actions: seq<Action>, id: nat, cfg: Settings)
    requires id in Run(EMPTY, actions, cfg).sessions
    ensures exists j, k :: 0 <= j < k < |actions| && SessionFrom(Run(EMPTY, actions, cfg).sessions[id], actions[j], actions[k], cfg)
  {
    hide Run;
    RunTraced(EMPTY, [], actions, cfg);
    assert [] + actions == actions;
  }

  // ---------------------------------------------------------------- sessions

  function LiveAt(sessions: map<nat, Session>, at: Instant): set<nat> {
    set k | k in sessions && Live(sessions[k], at)
  }

  ghost predicate SessionsOk(s: State, cfg: Settings) {
    && ValidSettings(cfg) && (forall k :: k in s.sessions ==> k < s.logins)
    && (s.loginAt.None? ==> s.sessions == map[])
    && (forall at: Instant | s.loginAt.Some? && at >= s.loginAt.value :: |LiveAt(s.sessions, at)| <= cfg.maxSessions)
  }

  predicate Sorted(order: seq<nat>, sessions: map<nat, Session>) {
    && (forall i :: 0 <= i < |order| ==> order[i] in sessions)
    && (forall i, j :: 0 <= i < j < |order| ==> Before(sessions[order[i]], sessions[order[j]]))
  }

  predicate Distinct(order: seq<nat>) {
    forall i, j :: 0 <= i < j < |order| ==> order[i] != order[j]
  }

  lemma {:induction false} InsertedIsSorted(order: seq<nat>, sessions: map<nat, Session>, k: nat)
    requires Sorted(order, sessions) && k in sessions
    ensures Sorted(Inserted(order, sessions, k), sessions)
    ensures Distinct(order) && k !in order ==> Distinct(Inserted(order, sessions, k))
    decreases |order|
  {
    hide Before;
    BeforeIsTotal(sessions);
    if order == [] {
    } else if Before(sessions[k], sessions[order[0]]) {
      var longer := [k] + order;
      forall i, j | 0 <= i < j < |longer| ensures Before(sessions[longer[i]], sessions[longer[j]]) {
        assert i > 0 ==> longer[i] == order[i - 1];
        assert longer[j] == order[j - 1];
        assert j > 1 ==> Before(sessions[order[0]], sessions[order[j - 1]]);
      }
    } else {
      InsertedIsSorted(order[1..], sessions, k);
      InsertedElements(order[1..], sessions, k);
      SortedWithHead(order, Inserted(order[1..], sessions, k), sessions, k);
    }
  }

  lemma BeforeIsTotal(sessions: map<nat, Session>)
    ensures forall a: Session, b: Session :: Before(a, b) || Before(b, a)
    ensures forall a: Session, b: Session, c: Session :: Before(a, b) && Before(b, c) ==> Before(a, c)
  {}

  lemma SortedWithHead(order: seq<nat>, longer: seq<nat>, sessions: map<nat, Session>, k: nat)
    requires order != [] && Sorted(order, sessions) && Sorted(longer, sessions) && k in sessions
    requires forall n :: n in longer <==> n == k || n in order[1..]
    requires Before(sessions[order[0]], sessions[k])
    ensures Sorted([order[0]] + longer, sessions)
    ensures Distinct(order) && Distinct(longer) && k !in order ==> Distinct([order[0]] + longer)
  {
    hide Before;
    var all := [order[0]] + longer;
    forall i | 0 <= i < |longer| ensures Before(sessions[order[0]], sessions[longer[i]]) {
      assert longer[i] in longer;
      if longer[i] != k {
        var j :| 0 <= j < |order[1..]| && order[1..][j] == longer[i];
        assert order[j + 1] == longer[i];
      }
    }
    forall i, j | 0 <= i < j < |all| ensures Before(sessions[all[i]], sessions[all[j]]) {
      assert all[j] == longer[j - 1];
      assert i > 0 ==> all[i] == longer[i - 1];
    }
    if Distinct(order) && Distinct(longer) && k !in order {
      forall j | 0 < j < |all| ensures all[j] != order[0] {
        assert longer[j - 1] in longer;
      }
    }
  }

  /** The list of live sessions is complete, without repetition, and oldest first. */
  lemma {:induction false} OrderedIs(sessions: map<nat, Session>, below: nat, at: Instant)
    ensures var order := Ordered(sessions, below, at);
            && Sorted(order, sessions) && Distinct(order)
            && forall k :: k in order <==> k in sessions && k < below && Live(sessions[k], at)
    decreases below
  {
    hide Inserted, Live, Before;
    if below > 0 {
      OrderedIs(sessions, below - 1, at);
      var order := Ordered(sessions, below - 1, at);
      if below - 1 in sessions && Live(sessions[below - 1], at) {
        InsertedIsSorted(order, sessions, below - 1);
        InsertedElements(order, sessions, below - 1);
      }
    }
  }

  function Elements(order: seq<nat>): set<nat> {
    set k | k in order
  }

  lemma {:induction false} DistinctSize(order: seq<nat>)
    requires Distinct(order)
    ensures |Elements(order)| == |order|
    decreases |order|
  {
    if order != [] {
      DistinctSize(order[1..]);
      assert order[0] !in Elements(order[1..]);
      assert Elements(order) == Elements(order[1..]) + {order[0]} by {
        assert order == [order[0]] + order[1..];
      }
    }
  }

  lemma SortedSplit(order: seq<nat>, n: nat, sessions: map<nat, Session>, j: nat, k: nat)
    requires Sorted(order, sessions) && n <= |order| && j in order[..n] && k in order[n..]
    ensures j in sessions && k in sessions && Before(sessions[j], sessions[k])
  {
    hide Before;
    var x :| 0 <= x < n && order[..n][x] == j;
    var y :| 0 <= y < |order| - n && order[n..][y] == k;
    assert order[x] == j && order[n + y] == k;
  }

  predicate IsOlder(a: Session, b: Session) {
    a.createdAt < b.createdAt || (a.createdAt == b.createdAt && a.tie <= b.tie)
  }

  /** A login ends as many live sessions as must go so that one more fits, the oldest ones, and leaves the others alone. */
  lemma LoginEndsOldest(s: State, now: Instant, guess: nat, tie: nat, cfg: Settings) returns (ended: set<nat>)
    requires ValidSettings(cfg) && (forall k :: k in s.sessions ==> k < s.logins) && Verify(s, now, guess, tie, cfg).1.LoggedIn?
    ensures var t, live := Verify(s, now, guess, tie, cfg).0, LiveAt(s.sessions, now);
            && ended <= live && |ended| == (if |live| < cfg.maxSessions then 0 else |live| + 1 - cfg.maxSessions)
            && (forall k <- s.sessions :: k in t.sessions
                 && t.sessions[k] == if k in ended then s.sessions[k].(revokedAt := Some(now)) else s.sessions[k])
            && (forall j, k :: j in ended && k in live && k !in ended ==> IsOlder(s.sessions[j], s.sessions[k]))
  {
    hide Ordered, Latest, Live, Surplus;
    var surplus := Surplus(s, now, cfg);
    ended := Elements(surplus);
    SurplusSize(s, now, cfg);
    forall j, k | j in ended && k in LiveAt(s.sessions, now) && k !in ended ensures IsOlder(s.sessions[j], s.sessions[k]) {
      SurplusIsOldest(s, now, cfg, j, k);
    }
  }

  lemma SurplusSize(s: State, now: Instant, cfg: Settings)
    requires ValidSettings(cfg) && forall k :: k in s.sessions ==> k < s.logins
    ensures var surplus, live := Surplus(s, now, cfg), LiveAt(s.sessions, now);
            && Elements(surplus) <= live
            && |Elements(surplus)| == (if |live| < cfg.maxSessions then 0 else |live| + 1 - cfg.maxSessions)
  {
    hide Ordered, Before, Live;
    var order := Ordered(s.sessions, s.logins, now);
    OrderedIs(s.sessions, s.logins, now);
    DistinctSize(order);
    assert Elements(order) == LiveAt(s.sessions, now);
    assert Distinct(Surplus(s, now, cfg));
    DistinctSize(Surplus(s, now, cfg));
  }

  /** What a login leaves alive, then or later: the newcomer, and sessions that were alive and not surplus. */
  lemma AliveAfterLogin(s: State, now: Instant, guess: nat, tie: nat, at: Instant, k: nat, cfg: Settings)
    requires (forall k :: k in s.sessions ==> k < s.logins) && Verify(s, now, guess, tie, cfg).1.LoggedIn? && at >= now
    requires k in LiveAt(Verify(s, now, guess, tie, cfg).0.sessions, at)
    ensures k == s.logins || (k in LiveAt(s.sessions, now) && k !in Surplus(s, now, cfg))
  {
    hide Latest, Surplus;
  }

  /** A login makes room first: afterwards no more than the allowed number is alive, at that instant or later, and the
      sessions it ended are older than all it kept. */
  lemma LoginKeepsSessionsFew(s: State, now: Instant, guess: nat, tie: nat, cfg: Settings)
    requires ValidSettings(cfg) && forall k :: k in s.sessions ==> k < s.logins
    requires Verify(s, now, guess, tie, cfg).1.LoggedIn?
    ensures forall at: Instant | at >= now :: |LiveAt(Verify(s, now, guess, tie, cfg).0.sessions, at)| <= cfg.maxSessions
    ensures forall j, k | j in Surplus(s, now, cfg) && k in LiveAt(s.sessions, now) && k !in Surplus(s, now, cfg) ::
              j in s.sessions && Before(s.sessions[j], s.sessions[k])
  {
    hide Ordered, Verify, Live, Before, Surplus;
    forall at: Instant | at >= now ensures |LiveAt(Verify(s, now, guess, tie, cfg).0.sessions, at)| <= cfg.maxSessions {
      FewAliveAfterLogin(s, now, guess, tie, at, cfg);
    }
    forall j, k | j in Surplus(s, now, cfg) && k in LiveAt(s.sessions, now) && k !in Surplus(s, now, cfg)
      ensures j in s.sessions && Before(s.sessions[j], s.sessions[k])
    {
      SurplusIsOldest(s, now, cfg, j, k);
    }
  }

  lemma SurplusIsOldest(s: State, now: Instant, cfg: Settings, j: nat, k: nat)
    requires (forall k :: k in s.sessions ==> k < s.logins)
    requires j in Surplus(s, now, cfg) && k in LiveAt(s.sessions, now) && k !in Surplus(s, now, cfg)
    ensures j in s.sessions && Before(s.sessions[j], s.sessions[k])
  {
    hide Ordered, Before;
    var order := Ordered(s.sessions, s.logins, now);
    OrderedIs(s.sessions, s.logins, now);
    var n := |Surplus(s, now, cfg)|;
    assert order == order[..n] + order[n..] && k in order;
    SortedSplit(order, n, s.sessions, j, k);
  }

  /** Of the live sessions all but the surplus are kept, and they are fewer than allowed. */
  lemma KeptAreFew(s: State, now: Instant, cfg: Settings) returns (kept: set<nat>)
    requires ValidSettings(cfg) && forall k :: k in s.sessions ==> k < s.logins
    ensures |kept| < cfg.maxSessions
    ensures forall k :: k in LiveAt(s.sessions, now) && k !in Surplus(s, now, cfg) ==> k in kept
  {
    hide Ordered, Before, Live;
    var order := Ordered(s.sessions, s.logins, now);
    OrderedIs(s.sessions, s.logins, now);
    var n := |Surplus(s, now, cfg)|;
    assert order == order[..n] + order[n..] && Distinct(order[n..]);
    DistinctSize(order[n..]);
    kept := Elements(order[n..]);
  }

  lemma FewAliveAfterLogin(s: State, now: Instant, guess: nat, tie: nat, at: Instant, cfg: Settings)
    requires ValidSettings(cfg) && (forall k :: k in s.sessions ==> k < s.logins) && at >= now
    requires Verify(s, now, guess, tie, cfg).1.LoggedIn?
    ensures |LiveAt(Verify(s, now, guess, tie, cfg).0.sessions, at)| <= cfg.maxSessions
  {
    hide Verify, Surplus, LiveAt;
    var kept := KeptAreFew(s, now, cfg);
    var alive := LiveAt(Verify(s, now, guess, tie, cfg).0.sessions, at);
    forall k | k in alive ensures k in kept + {s.logins} {
      AliveAfterLogin(s, now, guess, tie, at, k, cfg);
    }
    SubsetSize(alive, kept + {s.logins});
  }

  lemma StepKeepsSessions(s: State, a: Action, cfg: Settings)
    requires SessionsOk(s, cfg)
    ensures SessionsOk(Step(s, a, cfg), cfg)
  {
    hide Recent, RetryAfter, Latest, Surplus, Invalidated;
    var t := Step(s, a, cfg);
    if a.Login? && Verify(s, a.now, a.guess, a.tie, cfg).1.LoggedIn? {
      LoginKeepsSessionsFew(s, a.now, a.guess, a.tie, cfg);
      SessionsKnown(s, a, cfg);
    } else {
      forall at: Instant | t.loginAt.Some? && at >= t.loginAt.value ensures |LiveAt(t.sessions, at)| <= cfg.maxSessions {
        assert LiveAt(t.sessions, at) <= LiveAt(s.sessions, at);
        SubsetSize(LiveAt(t.sessions, at), LiveAt(s.sessions, at));
      }
    }
  }

  lemma SessionsKnown(s: State, a: Action, cfg: Settings)
    requires a.Login? && forall k :: k in s.sessions ==> k < s.logins
    ensures forall k :: k in Step(s, a, cfg).sessions ==> k < Step(s, a, cfg).logins
  {
    hide Latest, Surplus;
  }

  lemma {:induction false} RunKeepsSessions(s: State, actions: seq<Action>, cfg: Settings)
    requires SessionsOk(s, cfg)
    ensures SessionsOk(Run(s, actions, cfg), cfg)
    decreases |actions|
  {
    hide SessionsOk, Step;
    if actions != [] {
      StepKeepsSessions(s, actions[0], cfg);
      RunKeepsSessions(Step(s, actions[0], cfg), actions[1..], cfg);
    }
  }

  /** In every run, from the latest login on, no more sessions are alive than allowed. */
  lemma SessionsAreLimited(actions: seq<Action>, at: Instant, cfg: Settings)
    requires ValidSettings(cfg)
    requires Run(EMPTY, actions, cfg).loginAt.Some? ==> at >= Run(EMPTY, actions, cfg).loginAt.value
    ensures |LiveAt(Run(EMPTY, actions, cfg).sessions, at)| <= cfg.maxSessions
  {
    hide Run;
    assert SessionsOk(EMPTY, cfg);
    RunKeepsSessions(EMPTY, actions, cfg);
    if Run(EMPTY, actions, cfg).loginAt.None? {
      assert LiveAt(map[], at) == {};
    }
  }

  /** A logout ends its session for good, and no other. */
  lemma LogoutEndsOne(s: State, id: nat, now: Instant, at: Instant)
    ensures var t := Revoke(s, id, now);
            && t.codes == s.codes && LiveAt(t.sessions, at) <= LiveAt(s.sessions, at)
            && (id in LiveAt(s.sessions, now) ==> LiveAt(t.sessions, at) == LiveAt(s.sessions, at) - {id})
            && (id !in LiveAt(s.sessions, now) ==> t == s)
  {}

  /** Clean-up takes only what ended longer ago than the retention: no code that could be entered since, and no session
      that was alive since. */
  lemma CleanUpTakesOldOnly(s: State, now: Instant, at: Instant, cfg: Settings)
    ensures var t := Clean(s, now, cfg);
            && (forall k :: k in t.codes <==> k in s.codes && s.codes[k].expiresAt > now - cfg.retention * SECOND)
            && (forall k <- t.codes :: t.codes[k] == s.codes[k])
            && (at >= now - cfg.retention * SECOND ==> LiveAt(t.sessions, at) == LiveAt(s.sessions, at))
            && (forall k <- t.sessions :: t.sessions[k] == s.sessions[k])
            && (forall k <- s.sessions :: k !in t.sessions <==>
                 || s.sessions[k].expiresAt <= now - cfg.retention * SECOND
                 || (s.sessions[k].revokedAt.Some? && s.sessions[k].revokedAt.value <= now - cfg.retention * SECOND))
  {}

  // ---------------------------------------------------------------- the advice to a limited request

  lemma {:induction false} EarliestIs(codes: map<nat, Code>, ids: set<nat>, below: nat)
    requires forall k :: k in ids ==> k in codes && k < below
    ensures ids != {} ==> Earliest(codes, ids, below).Some?
    ensures Earliest(codes, ids, below).Some? ==> exists k :: k in ids && codes[k].createdAt == Earliest(codes, ids, below).value
    ensures forall k :: k in ids ==> Earliest(codes, ids, below).Some? && Earliest(codes, ids, below).value <= codes[k].createdAt
  {
    EarliestBelow(codes, ids, below);
  }

  lemma {:induction false} EarliestBelow(codes: map<nat, Code>, ids: set<nat>, below: nat)
    requires forall k :: k in ids ==> k in codes
    ensures var e := Earliest(codes, ids, below);
            && (e.Some? ==> exists k :: k in ids && codes[k].createdAt == e.value)
            && (forall k :: k in ids && k < below ==> e.Some? && e.value <= codes[k].createdAt)
    decreases below
  {
    if below > 0 {
      EarliestBelow(codes, ids, below - 1);
    }
  }

  /** Waiting exactly as long as told helps if and only if less than a second was left: the advice is cut to whole
      seconds, and a request as old as the window still counts. */
  lemma AdviceIsShort(s: State, now: Instant, later: Instant, secret: nat, cfg: Settings)
    requires CodesOk(s, cfg) && Issue(s, now, secret, cfg).1.Limited?
    requires |Recent(s.codes, now - cfg.window * SECOND)| == cfg.requestLimit
    requires later == now + Issue(s, now, secret, cfg).1.retryAfter * SECOND
    ensures var earliest := Earliest(s.codes, Recent(s.codes, now - cfg.window * SECOND), |s.issued|);
            && earliest.Some?
            && (Issue(s, later, secret, cfg).1.Issued? <==> earliest.value + cfg.window * SECOND - now < SECOND)
  {
    hide Earliest;
    var before, after := Recent(s.codes, now - cfg.window * SECOND), Recent(s.codes, later - cfg.window * SECOND);
    CodesAreNumbered(s, cfg);
    EarliestIs(s.codes, before, |s.issued|);
    var earliest := Earliest(s.codes, before, |s.issued|).value;
    var k :| k in before && s.codes[k].createdAt == earliest;
    var left := earliest + cfg.window * SECOND - now;
    TruncatedWait(left);
    if left < SECOND {
      assert after <= before - {k};
      SubsetSize(after, before - {k});
    } else {
      assert after == before;
    }
  }

  lemma TruncatedWait(left: int)
    requires left >= 0
    ensures Max(1, Truncated(left)) >= 1
    ensures left < SECOND ==> left < Max(1, Truncated(left)) * SECOND
    ensures left >= SECOND ==> Max(1, Truncated(left)) * SECOND <= left
  {}

  lemma CodesAreNumbered(s: State, cfg: Settings)
    requires CodesOk(s, cfg)
    ensures forall k :: k in s.codes ==> k < |s.issued|
  {
    forall k | k in s.codes ensures k < |s.issued| {
      assert CodeOk(s, k, cfg);
    }
  }

  /** It happens: one request, another half a second later, and a third after the advised wait. */
  lemma AdviceFails(secret: nat)
    ensures var cfg := Settings(600, 5, 1, 60, DAY_SECONDS, 5, DAY_SECONDS);
            var s := Run(EMPTY, [Request(0, secret)], cfg);
            var now := SECOND / 2;
            && ValidSettings(cfg) && CodesOk(s, cfg) && Issue(s, now, secret, cfg).1.Limited?
            && Issue(s, now + Issue(s, now, secret, cfg).1.retryAfter * SECOND, secret, cfg).1.Limited?
  {
    var cfg := Settings(600, 5, 1, 60, DAY_SECONDS, 5, DAY_SECONDS);
    var s := Step(EMPTY, Request(0, secret), cfg);
    assert Run(EMPTY, [Request(0, secret)], cfg) == s by {
      assert [Request(0, secret)][1..] == [];
    }
    assert Recent(EMPTY.codes, 0 - cfg.window * SECOND) == {};
    assert s.codes[0].createdAt == 0 && s.issued == [0];
    assert CodesOk(EMPTY, cfg);
    IssueKeepsCodes(EMPTY, 0, secret, cfg);
    var now := SECOND / 2;
    assert Recent(s.codes, now - cfg.window * SECOND) == {0};
    var later := now + Issue(s, now, secret, cfg).1.retryAfter * SECOND;
    AdviceIsShort(s, now, later, secret, cfg);
    EarliestIs(s.codes, {0}, 1);
  }

  /** A request that waits one second longer than it was told is served: the advice is cut to whole seconds, and the
      window includes its first instant. */
  lemma WaitingHelps(s: State, now: Instant, later: Instant, secret: nat, cfg: Settings)
    requires CodesOk(s, cfg) && Issue(s, now, secret, cfg).1.Limited?
    requires |Recent(s.codes, now - cfg.window * SECOND)| == cfg.requestLimit
    requires later >= now + (Issue(s, now, secret, cfg).1.retryAfter + 1) * SECOND
    ensures Issue(s, later, secret, cfg).1.Issued?
  {
    hide Earliest;
    var before, after := Recent(s.codes, now - cfg.window * SECOND), Recent(s.codes, later - cfg.window * SECOND);
    CodesAreNumbered(s, cfg);
    EarliestIs(s.codes, before, |s.issued|);
    var k :| k in before && s.codes[k].createdAt == Earliest(s.codes, before, |s.issued|).value;
    assert after <= before - {k};
    SubsetSize(after, before - {k});
  }

  // ---------------------------------------------------------------- the service itself

  lemma RecentCounted(codes: map<nat, Code>, start: Instant, n: nat)
    ensures (set k | k in codes && k < n + 1 && codes[k].createdAt >= start)
         == (set k | k in codes && k < n && codes[k].createdAt >= start)
            + (if n in codes && codes[n].createdAt >= start then {n} else {})
  {}

  /** The tables, with the forgotten history beside them as ghost state. */
  class LoginStore {
    var codes: map<nat, Code>
    var sessions: map<nat, Session>
    var count: nat
    var logins: nat
    ghost var issued: seq<Instant>
    ghost var guesses: map<nat, nat>
    ghost var uses: seq<nat>
    ghost var cleanedAt: Option<Instant>
    ghost var loginAt: Option<Instant>

    ghost predicate Valid()
      reads this
    {
      count == |issued| && (forall k :: k in codes ==> k < count) && (forall k :: k in sessions ==> k < logins)
    }

    ghost function Stored(): State
      reads this
    {
      State(codes, sessions, issued, logins, guesses, uses, cleanedAt, loginAt)
    }

    constructor ()
      ensures Valid() && Stored() == EMPTY
    {
      codes, sessions, count, logins := map[], map[], 0, 0;
      issued, guesses, uses, cleanedAt, loginAt := [], map[], [], None, None;
    }

    /** How many requests the window holds, and the earliest of them. */
    method CountRecent(start: Instant) returns (n: nat, earliest: Option<Instant>)
      requires Valid()
      ensures n == |Recent(codes, start)| && earliest == Earliest(codes, Recent(codes, start), count)
    {
      n, earliest := 0, None;
      for k := 0 to count
        invariant n == |set j | j in codes && j < k && codes[j].createdAt >= start|
        invariant earliest == Earliest(codes, Recent(codes, start), k)
      {
        RecentCounted(codes, start, k);
        if k in codes && codes[k].createdAt >= start {
          n := n + 1;
          if earliest.None? || codes[k].createdAt < earliest.value {
            earliest := Some(codes[k].createdAt);
          }
        }
      }
      assert (set j | j in codes && j < count && codes[j].createdAt >= start) == Recent(codes, start);
    }

    method InvalidateUsable(now: Instant)
      requires Valid()
      modifies this`codes
      ensures Valid() && codes == Invalidated(old(codes), now)
    {
      ghost var was := codes;
      for k := 0 to count
        invariant codes.Keys == was.Keys
        invariant forall j :: j in was ==> codes[j] == if j < k then Invalidated(was, now)[j] else was[j]
      {
        if k in codes && Usable(codes[k]) {
          codes := codes[k := codes[k].(invalidatedAt := Some(now))];
        }
      }
    }

    method IssueLoginCode(now: Instant, secret: nat, cfg: Settings) returns (result: IssueResult)
      requires Valid()
      modifies this
      ensures Valid() && (Stored(), result) == Issue(old(Stored()), now, secret, cfg)
    {
      hide Recent, Earliest, Invalidated;
      var requests, earliest := CountRecent(now - cfg.window * SECOND);
      if requests >= cfg.requestLimit {
        return Limited(if earliest.None? then 1 else Max(1, Truncated(earliest.value + cfg.window * SECOND - now)));
      }
      InvalidateUsable(now);
      var expiresAt := now + cfg.codeTtl * SECOND;
      codes := codes[count := Code(secret, now, expiresAt, 0, None, None)];
      guesses := guesses[count := 0];
      issued := issued + [now];
      count := count + 1;
      return Issued(expiresAt);
    }

    method FindLatest() returns (latest: Option<nat>)
      requires Valid()
      ensures latest == Latest(codes, count)
      ensures latest.Some? ==> latest.value in codes
    {
      latest := None;
      for k := 0 to count
        invariant latest == Latest(codes, k)
        invariant latest.Some? ==> latest.value in codes
      {
        if k in codes && Usable(codes[k]) && (latest.None? || codes[latest.value].createdAt <= codes[k].createdAt) {
          latest := Some(k);
        }
      }
    }

    method RevokeOldest(order: seq<nat>, now: Instant)
      requires Valid() && Distinct(order) && forall i :: 0 <= i < |order| ==> order[i] in sessions
      modifies this`sessions
      ensures Valid() && sessions == Revoked(old(sessions), order, now)
    {
      ghost var was := sessions;
      for n := 0 to |order|
        invariant sessions.Keys == was.Keys
        invariant forall j :: j in was ==> sessions[j] == if j in order[..n] then was[j].(revokedAt := Some(now)) else was[j]
      {
        assert order[..n + 1] == order[..n] + [order[n]];
        sessions := sessions[order[n] := sessions[order[n]].(revokedAt := Some(now))];
      }
      assert order[..|order|] == order;
    }

    method VerifyLoginCode(now: Instant, guess: nat, tie: nat, cfg: Settings) returns (result: LoginResult)
      requires Valid()
      modifies this
      ensures Valid() && (Stored(), result) == Verify(old(Stored()), now, guess, tie, cfg)
    {
      hide Latest, Ordered, Revoked;
      var latest := FindLatest();
      if latest.None? {
        return Refused(false);
      }
      var k, code := latest.value, codes[latest.value];
      if code.expiresAt <= now || code.attempts >= cfg.maxAttempts {
        codes := codes[k := code.(invalidatedAt := Some(now))];
        return Refused(true);
      }
      if guess != code.secret {
        code := code.(attempts := code.attempts + 1);
        if code.attempts >= cfg.maxAttempts {
          code := code.(invalidatedAt := Some(now));
        }
        codes := codes[k := code];
        guesses := guesses[k := (if k in guesses then guesses[k] else 0) + 1];
        return Refused(true);
      }
      codes := codes[k := code.(usedAt := Some(now))];
      var order := Ordered(sessions, logins, now);
      OrderedIs(sessions, logins, now);
      var surplus := Min(|order|, Max(0, |order| - cfg.maxSessions + 1));
      RevokeOldest(order[..surplus], now);
      sessions := sessions[logins := Session(now, tie, now + cfg.sessionTtl * SECOND, None)];
      logins := logins + 1;
      uses := uses + [k];
      loginAt := Some(now);
      return LoggedIn(logins - 1);
    }

    method RevokeSession(id: nat, now: Instant)
      requires Valid()
      modifies this`sessions
      ensures Valid() && Stored() == Revoke(old(Stored()), id, now)
    {
      if id in sessions && Live(sessions[id], now) {
        sessions := sessions[id := sessions[id].(revokedAt := Some(now))];
      }
    }

    method DeleteExpired(now: Instant, cfg: Settings)
      requires Valid()
      modifies this
      ensures Valid() && Stored() == Clean(old(Stored()), now, cfg)
    {
      hide Live;
      var cutoff := now - cfg.retention * SECOND;
      codes := map k | k in codes && codes[k].expiresAt > cutoff :: codes[k];
      sessions := map k | k in sessions && sessions[k].expiresAt > cutoff && !AtOrBefore(sessions[k].revokedAt, cutoff) :: sessions[k];
      cleanedAt := Some(if cleanedAt.Some? && cleanedAt.value > now then cleanedAt.value else now);
    }
  }
}
