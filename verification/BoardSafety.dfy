/** What holds of the work items in every reachable state of the whole system. */
module BoardSafety {
  import opened Core
  import opened ReminderRows
  import opened ReminderSync
  import opened WorkItems
  import opened WorkItemRuns
  import opened Families
  import opened Protocol
  import opened DeliverySafety

  predicate Sound(b: Board) {
    WellLinked(b) && ItemsOk(b.items) && OriginsAreUnique(b.events)
  }

  lemma CaptureKeepsItems(b: Board, itype: WorkItemType, status: WorkItemStatus, dueAt: Option<Instant>, followUpAt: Option<Instant>,
                          custom: Option<Instant>, draftItem: nat, leadMinutes: nat, now: Instant)
    requires ItemsOk(b.items) && OriginsAreUnique(b.events)
    ensures var c := Capture(b, itype, status, dueAt, followUpAt, custom, draftItem, leadMinutes, now);
            ItemsOk(c.items) && OriginsAreUnique(c.events)
  {
    hide Synced, KeyTaken;
  }

  lemma StepSound(s: State, a: Action, cfg: Config)
    requires Sound(s.board)
    ensures Sound(Step(s, a, cfg).board)
  {
    hide Handle, Capture, WellLinked, ItemsOk, OriginsAreUnique;
    match a
    case Manage(q) =>
      HandleKeepsFamilies(s.board, q);
      HandleKeepsItems(s.board, q);
      HandleKeepsOriginsUnique(s.board, q);
    case CaptureItem(itype, status, dueAt, followUpAt, custom, draftItem, lead, now) =>
      CaptureKeepsFamilies(s.board, itype, status, dueAt, followUpAt, custom, draftItem, lead, now);
      CaptureKeepsItems(s.board, itype, status, dueAt, followUpAt, custom, draftItem, lead, now);
    case _ =>
      OtherStepsLeaveItems(s, a, cfg);
      SoundIsAboutItems(s.board, Step(s, a, cfg).board);
  }

  lemma SoundIsAboutItems(b: Board, c: Board)
    requires Sound(b) && c.items == b.items && c.links == b.links && c.events == b.events
    ensures Sound(c)
  {}

  /** Only requests and captures touch work items, links or history. */
  lemma OtherStepsLeaveItems(s: State, a: Action, cfg: Config)
    requires !a.Manage? && !a.CaptureItem?
    ensures var b := Step(s, a, cfg).board; b.items == s.board.items && b.links == s.board.links && b.events == s.board.events
  {
    hide StepManage, Capture;
  }

  lemma {:induction false} RunSound(s: State, actions: seq<Action>, cfg: Config)
    requires Sound(s.board)
    ensures Sound(Run(s, actions, cfg).board)
    decreases |actions|
  {
    hide Sound, Step;
    if actions != [] {
      StepSound(s, actions[0], cfg);
      RunSound(Step(s, actions[0], cfg), actions[1..], cfg);
    }
  }

  /** In every reachable state subtasks form a forest of depth one, every item is consistent, and no request has
      left two traces. */
  lemma ReachedIsSound(actions: seq<Action>, cfg: Config)
    ensures Sound(Reached(actions, cfg).board)
  {
    hide Run;
    RunSound(EMPTY, actions, cfg);
  }

  // ---------------------------------------------------------------- exactly once

  lemma CaptureKeepsHistory(b: Board, itype: WorkItemType, status: WorkItemStatus, dueAt: Option<Instant>, followUpAt: Option<Instant>,
                            custom: Option<Instant>, draftItem: nat, leadMinutes: nat, now: Instant)
    ensures b.events <= Capture(b, itype, status, dueAt, followUpAt, custom, draftItem, leadMinutes, now).events
  {
    hide Synced, KeyTaken, WithReminder;
  }

  lemma StepKeepsBound(s: State, a: Action, origin: Origin, cfg: Config)
    requires Bound(s.board.events, origin)
    ensures Bound(Step(s, a, cfg).board.events, origin)
  {
    hide Handle, Capture;
    match a
    case Manage(q) => StillBound(s.board, q, origin);
    case CaptureItem(itype, status, dueAt, followUpAt, custom, draftItem, lead, now) =>
      CaptureKeepsHistory(s.board, itype, status, dueAt, followUpAt, custom, draftItem, lead, now);
      var k :| 0 <= k < |s.board.events| && BoundAt(s.board.events, origin, k);
      assert BoundAt(Step(s, a, cfg).board.events, origin, k);
    case _ => OtherStepsLeaveItems(s, a, cfg);
  }

  lemma {:induction false} RunKeepsBound(s: State, actions: seq<Action>, origin: Origin, cfg: Config)
    requires Bound(s.board.events, origin)
    ensures Bound(Run(s, actions, cfg).board.events, origin)
    decreases |actions|
  {
    hide Step, Bound;
    if actions != [] {
      StepKeepsBound(s, actions[0], origin, cfg);
      RunKeepsBound(Step(s, actions[0], cfg), actions[1..], origin, cfg);
    }
  }

  /** A request whose origin is bound changes nothing at all. */
  lemma RepeatIsSilent(s: State, repeat: Request, cfg: Config)
    requires Inv(s, cfg) && Bound(s.board.events, repeat.origin)
    ensures Handle(s.board, repeat).outcome.Replayed? && Step(s, Manage(repeat), cfg) == s
  {
    hide Bound, Mutated, Allowed, Effective, RowsFine, AttemptsFine, DormantFine;
    assert s.ledgers + [] == s.ledgers;
  }

  /** Exactly once: repeating a request that was applied, in any form and with any payload, leaves the run as it would
      have been without the repeat, whatever workers, digests, captures and other requests did before it, in between
      and afterwards. */
  lemma RepeatsVanish(before: seq<Action>, q: Request, between: seq<Action>, repeat: Request, rest: seq<Action>, cfg: Config)
    requires ValidLimits(cfg.limits)
    requires Handle(Reached(before, cfg).board, q).outcome.Applied? && repeat.origin == q.origin
    ensures Reached(before + [Manage(q)] + between + [Manage(repeat)] + rest, cfg) == Reached(before + [Manage(q)] + between + rest, cfg)
  {
    hide Run, Step, Handle, Inv;
    var s := Reached(before, cfg);
    var done := before + [Manage(q)] + between;
    RunConcat(EMPTY, before, [Manage(q)], cfg);
    AppliedIsBound(s, q, cfg);
    RunConcat(EMPTY, before + [Manage(q)], between, cfg);
    RunKeepsBound(Reached(before + [Manage(q)], cfg), between, q.origin, cfg);
    ReachedInv(done, cfg);
    RepeatIsSilent(Reached(done, cfg), repeat, cfg);
    RunConcat(EMPTY, done, [Manage(repeat)], cfg);
    RunOne(Reached(done, cfg), Manage(repeat), cfg);
    RunConcat(EMPTY, done + [Manage(repeat)], rest, cfg);
    RunConcat(EMPTY, done, rest, cfg);
  }

  lemma AppliedIsBound(s: State, q: Request, cfg: Config)
    requires Handle(s.board, q).outcome.Applied?
    ensures Bound(Run(s, [Manage(q)], cfg).board.events, q.origin)
  {
    hide Handle, Bound;
    RunOne(s, Manage(q), cfg);
    AppliedBindsOnce(s.board, q);
    BindsIsBound(s.board.events, Handle(s.board, q).board.events, q.origin);
  }
}
