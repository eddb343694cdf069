/** Leased background jobs: any number of workers claim, finish and fail them, one transaction at a time. */
module AiJobs {
  import opened Core

  datatype JobStatus = Queued | Running | Completed | Abandoned | Deleted

  /** What a job is for: the same operation is never enqueued twice. */
  datatype Operation = Operation(kind: nat, entity: nat, key: nat)

  datatype Job = Job(operation: Operation, status: JobStatus, attempts: nat, token: Option<nat>,
                     leaseUntil: Option<Instant>, nextAttemptAt: Instant)

  datatype Limits = Limits(maxAttempts: nat, lease: int)

  predicate ValidLimits(limits: Limits) {
    limits.maxAttempts > 0 && limits.lease > 0
  }

  /** The jobs, the next unused token, and beside them the history: how often each job was claimed, and by which tokens. */
  datatype State = State(jobs: seq<Job>, nextToken: nat, claims: seq<nat>, owner: map<nat, nat>)

  const EMPTY := State([], 0, [], map[])

  predicate HeldBy(job: Job, token: nat) {
    job.status.Running? && job.token == Some(token)
  }

  predicate Due(job: Job, now: Instant, limits: Limits) {
    && job.attempts < limits.maxAttempts
    && ((job.status.Queued? && job.nextAttemptAt <= now) || (job.status.Running? && AtOrBefore(job.leaseUntil, now)))
  }

  predicate IsFor(job: Job, operation: Operation) {
    job.operation == operation && !job.status.Deleted?
  }

  function Enqueued(s: State, operation: Operation, now: Instant): State {
    if exists i :: 0 <= i < |s.jobs| && IsFor(s.jobs[i], operation) then s
    else s.(jobs := s.jobs + [Job(operation, Queued, 0, None, None, now)], claims := s.claims + [0])
  }

  function ClaimedJob(job: Job, token: nat, now: Instant, limits: Limits): Job {
    job.(status := Running, attempts := job.attempts + 1, token := Some(token), leaseUntil := Some(now + limits.lease))
  }

  /** Claiming one job of the batch, if it is due; `order` in `ClaimAll` lists the jobs the query locked. */
  function ClaimOne(s: State, i: nat, now: Instant, limits: Limits): State {
    if i < |s.jobs| && i < |s.claims| && Due(s.jobs[i], now, limits) then
      State(s.jobs[i := ClaimedJob(s.jobs[i], s.nextToken, now, limits)], s.nextToken + 1, s.claims[i := s.claims[i] + 1],
            s.owner[s.nextToken := i])
    else s
  }

  function ClaimAll(s: State, order: seq<nat>, now: Instant, limits: Limits): State
    decreases |order|
  {
    if order == [] then s else ClaimAll(ClaimOne(s, order[0], now, limits), order[1..], now, limits)
  }

  function Finished(job: Job): Job {
    job.(status := Completed, token := None, leaseUntil := None)
  }

  function Complete(s: State, i: nat, token: nat): State {
    if i < |s.jobs| && HeldBy(s.jobs[i], token) then s.(jobs := s.jobs[i := Finished(s.jobs[i])]) else s
  }

  function CompleteEntity(s: State, entity: nat, kinds: set<nat>): State {
    s.(jobs := seq(|s.jobs|, i requires 0 <= i < |s.jobs| =>
      if s.jobs[i].operation.entity == entity && s.jobs[i].operation.kind in kinds && (s.jobs[i].status.Queued? || s.jobs[i].status.Running?) then
        Finished(s.jobs[i])
      else s.jobs[i]))
  }

  function DeletedJob(job: Job): Job {
    job.(status := Deleted, token := None, leaseUntil := None)
  }

  /** With its draft all jobs of an entity go; a deleted one keeps its place. */
  function DeleteEntity(s: State, entity: nat): State {
    s.(jobs := seq(|s.jobs|, i requires 0 <= i < |s.jobs| =>
      if s.jobs[i].operation.entity == entity then DeletedJob(s.jobs[i]) else s.jobs[i]))
  }

  function FailedJob(job: Job, now: Instant, delay: int, limits: Limits): Job {
    var released := job.(token := None, leaseUntil := None);
    if job.attempts >= limits.maxAttempts then released.(status := Abandoned)
    else released.(status := Queued, nextAttemptAt := now + delay)
  }

  function Fail(s: State, i: nat, token: nat, now: Instant, delay: int, limits: Limits): State {
    if i < |s.jobs| && HeldBy(s.jobs[i], token) then s.(jobs := s.jobs[i := FailedJob(s.jobs[i], now, delay, limits)]) else s
  }

  datatype Action =
    | Enqueue(operation: Operation, now: Instant)
    | Claim(order: seq<nat>, now: Instant)
    | Done(job: nat, token: nat)
    | DoneFor(entity: nat, kinds: set<nat>)
    | DeleteFor(entity: nat)
    | GaveUp(job: nat, token: nat, now: Instant, delay: int)

  function Step(s: State, a: Action, limits: Limits): State {
    match a
    case Enqueue(operation, now) => Enqueued(s, operation, now)
    case Claim(order, now) => ClaimAll(s, order, now, limits)
    case Done(i, token) => Complete(s, i, token)
    case DoneFor(entity, kinds) => CompleteEntity(s, entity, kinds)
    case DeleteFor(entity) => DeleteEntity(s, entity)
    case GaveUp(i, token, now, delay) => Fail(s, i, token, now, delay, limits)
  }

  function Run(s: State, actions: seq<Action>, limits: Limits): State
    decreases |actions|
  {
    if actions == [] then s else Run(Step(s, actions[0], limits), actions[1..], limits)
  }

  // ---------------------------------------------------------------- the invariant

  predicate Inv(s: State, limits: Limits) {
    && |s.claims| == |s.jobs|
    && (forall i :: 0 <= i < |s.jobs| ==> s.claims[i] == s.jobs[i].attempts <= limits.maxAttempts)
    && (forall i :: 0 <= i < |s.jobs| && s.jobs[i].status.Running? ==> s.jobs[i].token.Some? && s.jobs[i].leaseUntil.Some?)
    && (forall i :: 0 <= i < |s.jobs| && s.jobs[i].token.Some? ==>
         s.jobs[i].token.value in s.owner && s.owner[s.jobs[i].token.value] == i)
    && (forall t <- s.owner :: t < s.nextToken)
    && (forall i, j :: 0 <= i < j < |s.jobs| && s.jobs[i].operation == s.jobs[j].operation ==>
         s.jobs[i].status.Deleted? || s.jobs[j].status.Deleted?)
    && (forall i :: 0 <= i < |s.jobs| && s.jobs[i].status.Deleted? ==> s.jobs[i] == DeletedJob(s.jobs[i]))
  }

  /** One transaction on one job: finished jobs stay finished until they are deleted, and a claim is never handed back to an older token. */
  predicate JobMoves(was: Job, job: Job, next: nat) {
    && job.operation == was.operation && job.attempts >= was.attempts
    && (was.status.Completed? || was.status.Abandoned? ==> job == was || job == DeletedJob(was))
    && (was.status.Deleted? ==> job == was)
    && (forall t :: 0 <= t < next && HeldBy(job, t) ==> HeldBy(was, t))
  }

  predicate Moves(s: State, n: State, limits: Limits) {
    && Inv(n, limits) && |s.jobs| <= |n.jobs| && s.nextToken <= n.nextToken
    && (forall i :: 0 <= i < |s.jobs| ==> JobMoves(s.jobs[i], n.jobs[i], s.nextToken))
    && (forall t <- s.owner :: t in n.owner && n.owner[t] == s.owner[t])
  }

  lemma MovesTransitively(s: State, m: State, n: State, limits: Limits)
    requires Moves(s, m, limits) && Moves(m, n, limits)
    ensures Moves(s, n, limits)
  {
    hide Inv;
    forall i | 0 <= i < |s.jobs| ensures JobMoves(s.jobs[i], n.jobs[i], s.nextToken) {
      assert JobMoves(s.jobs[i], m.jobs[i], s.nextToken) && JobMoves(m.jobs[i], n.jobs[i], m.nextToken);
    }
  }

  lemma ClaimOneMoves(s: State, i: nat, now: Instant, limits: Limits)
    requires Inv(s, limits)
    ensures Moves(s, ClaimOne(s, i, now, limits), limits)
  {}

  lemma {:induction false} ClaimAllMoves(s: State, order: seq<nat>, now: Instant, limits: Limits)
    requires Inv(s, limits)
    ensures Moves(s, ClaimAll(s, order, now, limits), limits)
    decreases |order|
  {
    hide ClaimOne, Inv, JobMoves;
    if order != [] {
      ClaimOneMoves(s, order[0], now, limits);
      var next := ClaimOne(s, order[0], now, limits);
      ClaimAllMoves(next, order[1..], now, limits);
      MovesTransitively(s, next, ClaimAll(next, order[1..], now, limits), limits);
    } else {
      Stands(s, limits);
    }
  }

  lemma Stands(s: State, limits: Limits)
    requires Inv(s, limits)
    ensures Moves(s, s, limits)
  {}

  lemma StepMoves(s: State, a: Action, limits: Limits)
    requires Inv(s, limits)
    ensures Moves(s, Step(s, a, limits), limits)
  {
    hide ClaimAll, Enqueued, Complete, CompleteEntity, DeleteEntity, Fail, Inv, Moves;
    match a
    case Enqueue(operation, now) => EnqueuedMoves(s, operation, now, limits);
    case Claim(order, now) => ClaimAllMoves(s, order, now, limits);
    case Done(i, token) => ReportMoves(s, i, token, 0, 0, limits);
    case DoneFor(entity, kinds) => EntityMoves(s, entity, kinds, limits);
    case DeleteFor(entity) => EntityMoves(s, entity, {}, limits);
    case GaveUp(i, token, now, delay) => ReportMoves(s, i, token, now, delay, limits);
  }

  lemma EnqueuedMoves(s: State, operation: Operation, now: Instant, limits: Limits)
    requires Inv(s, limits)
    ensures Moves(s, Enqueued(s, operation, now), limits)
  {}

  /** A job that is no longer running keeps its operation and its attempts, and is finished only once. */
  predicate Ended(was: Job, job: Job) {
    || job == was
    || (&& job.operation == was.operation && job.attempts == was.attempts && job.token.None? && !job.status.Running?
        && (was.status.Completed? || was.status.Abandoned? ==> job == DeletedJob(was))
        && !was.status.Deleted? && (job.status.Deleted? ==> job == DeletedJob(job)))
  }

  lemma EndedMoves(s: State, n: State, limits: Limits)
    requires Inv(s, limits) && n == s.(jobs := n.jobs) && |n.jobs| == |s.jobs|
    requires forall i :: 0 <= i < |s.jobs| ==> Ended(s.jobs[i], n.jobs[i])
    ensures Moves(s, n, limits)
  {}

  lemma ReportMoves(s: State, i: nat, token: nat, now: Instant, delay: int, limits: Limits)
    requires Inv(s, limits)
    ensures Moves(s, Complete(s, i, token), limits) && Moves(s, Fail(s, i, token, now, delay, limits), limits)
  {
    hide Inv, Moves;
    EndedMoves(s, Complete(s, i, token), limits);
    EndedMoves(s, Fail(s, i, token, now, delay, limits), limits);
  }

  lemma EntityMoves(s: State, entity: nat, kinds: set<nat>, limits: Limits)
    requires Inv(s, limits)
    ensures Moves(s, CompleteEntity(s, entity, kinds), limits) && Moves(s, DeleteEntity(s, entity), limits)
  {
    hide Moves;
    EndedMoves(s, CompleteEntity(s, entity, kinds), limits);
    EndedMoves(s, DeleteEntity(s, entity), limits);
  }

  lemma {:induction false} RunMoves(s: State, actions: seq<Action>, limits: Limits)
    requires Inv(s, limits)
    ensures Moves(s, Run(s, actions, limits), limits)
    decreases |actions|
  {
    hide Step, Inv, JobMoves;
    if actions == [] {
      Stands(s, limits);
    } else {
      StepMoves(s, actions[0], limits);
      var next := Step(s, actions[0], limits);
      RunMoves(next, actions[1..], limits);
      MovesTransitively(s, next, Run(next, actions[1..], limits), limits);
    }
  }

  // ---------------------------------------------------------------- the guarantees

  /** In its whole life, however many workers crash or report late, a job is claimed at most as often as allowed; and
      enqueuing an operation again makes no second job of it while the first is there. */
  lemma ClaimsAreBounded(actions: seq<Action>, i: nat, limits: Limits)
    requires ValidLimits(limits) && i < |Run(EMPTY, actions, limits).jobs|
    ensures i < |Run(EMPTY, actions, limits).claims| && Run(EMPTY, actions, limits).claims[i] <= limits.maxAttempts
    ensures forall j :: 0 <= j < |Run(EMPTY, actions, limits).jobs| && j != i && !Run(EMPTY, actions, limits).jobs[i].status.Deleted? ==>
              !IsFor(Run(EMPTY, actions, limits).jobs[j], Run(EMPTY, actions, limits).jobs[i].operation)
  {
    hide Run;
    RunMoves(EMPTY, actions, limits);
  }

  /** A worker that lost its lease can neither complete nor fail the job any more, at any later time. */
  lemma LateReportsAreIgnored(s: State, actions: seq<Action>, i: nat, token: nat, now: Instant, delay: int, limits: Limits)
    requires Inv(s, limits) && i < |s.jobs| && token < s.nextToken && !HeldBy(s.jobs[i], token)
    ensures var n := Run(s, actions, limits);
            Complete(n, i, token) == n && Fail(n, i, token, now, delay, limits) == n
  {
    hide Run, Inv;
    RunMoves(s, actions, limits);
    assert JobMoves(s.jobs[i], Run(s, actions, limits).jobs[i], s.nextToken);
  }

  predicate Deletes(actions: seq<Action>, entity: nat) {
    exists k :: 0 <= k < |actions| && actions[k] == DeleteFor(entity)
  }

  /** A finished job stays exactly as it is, until the jobs of its entity are deleted. */
  lemma {:induction false} FinishedIsFinal(s: State, actions: seq<Action>, i: nat, limits: Limits)
    requires Inv(s, limits) && i < |s.jobs| && (s.jobs[i].status.Completed? || s.jobs[i].status.Abandoned? || s.jobs[i].status.Deleted?)
    ensures i < |Run(s, actions, limits).jobs|
    ensures Run(s, actions, limits).jobs[i] == if Deletes(actions, s.jobs[i].operation.entity) then DeletedJob(s.jobs[i]) else s.jobs[i]
    decreases |actions|
  {
    hide ClaimAll, Inv;
    if actions != [] {
      var a, rest, next := actions[0], actions[1..], Step(s, actions[0], limits);
      StepMoves(s, a, limits);
      FinishedStep(s, a, i, limits);
      FinishedIsFinal(next, rest, i, limits);
      assert Deletes(actions, s.jobs[i].operation.entity) <==> a == DeleteFor(s.jobs[i].operation.entity) || Deletes(rest, s.jobs[i].operation.entity) by {
        assert forall k :: 0 < k < |actions| ==> actions[k] == rest[k - 1];
      }
    }
  }

  lemma FinishedStep(s: State, a: Action, i: nat, limits: Limits)
    requires Inv(s, limits) && i < |s.jobs| && (s.jobs[i].status.Completed? || s.jobs[i].status.Abandoned? || s.jobs[i].status.Deleted?)
    ensures i < |Step(s, a, limits).jobs|
    ensures Step(s, a, limits).jobs[i] == if a == DeleteFor(s.jobs[i].operation.entity) then DeletedJob(s.jobs[i]) else s.jobs[i]
  {
    hide ClaimAll, Inv;
    if a.Claim? {
      FinishedClaim(s, a.order, a.now, i, limits);
    }
  }

  lemma {:induction false} FinishedClaim(s: State, order: seq<nat>, now: Instant, i: nat, limits: Limits)
    requires i < |s.jobs| && !s.jobs[i].status.Queued? && !s.jobs[i].status.Running?
    ensures |ClaimAll(s, order, now, limits).jobs| == |s.jobs| && ClaimAll(s, order, now, limits).jobs[i] == s.jobs[i]
    decreases |order|
  {
    if order != [] {
      FinishedClaim(ClaimOne(s, order[0], now, limits), order[1..], now, i, limits);
    }
  }

  /** Nobody reports on the job, and nobody finishes or deletes its entity's jobs. */
  predicate Silent(actions: seq<Action>, i: nat, operation: Operation) {
    forall k :: 0 <= k < |actions| ==>
      !(actions[k].Done? && actions[k].job == i) && !(actions[k].GaveUp? && actions[k].job == i)
      && !(actions[k].DoneFor? && actions[k].entity == operation.entity && operation.kind in actions[k].kinds)
      && actions[k] != DeleteFor(operation.entity)
  }

  lemma {:induction false} ExhaustedClaim(s: State, order: seq<nat>, now: Instant, i: nat, limits: Limits)
    requires i < |s.jobs| && s.jobs[i].attempts >= limits.maxAttempts
    ensures |ClaimAll(s, order, now, limits).jobs| == |s.jobs| && ClaimAll(s, order, now, limits).jobs[i] == s.jobs[i]
    decreases |order|
  {
    if order != [] {
      ExhaustedClaim(ClaimOne(s, order[0], now, limits), order[1..], now, i, limits);
    }
  }

  /** Without attempts left, a running job on which nobody reports stays as it is. */
  lemma {:induction false} NoAttemptsLeft(s: State, actions: seq<Action>, i: nat, limits: Limits)
    requires i < |s.jobs| && s.jobs[i].status.Running? && s.jobs[i].attempts >= limits.maxAttempts
    requires Silent(actions, i, s.jobs[i].operation)
    ensures i < |Run(s, actions, limits).jobs| && Run(s, actions, limits).jobs[i] == s.jobs[i]
    decreases |actions|
  {
    hide ClaimAll, Due;
    if actions != [] {
      if actions[0].Claim? {
        ExhaustedClaim(s, actions[0].order, actions[0].now, i, limits);
      }
      NoAttemptsLeft(Step(s, actions[0], limits), actions[1..], i, limits);
    }
  }

  /** A running job whose lease has run out is claimed again, under a new token and lease, exactly when it has attempts
      left; otherwise the claim leaves everything as it was. */
  lemma ReclaimedWithAttemptsLeft(s: State, i: nat, now: Instant, limits: Limits)
    requires Inv(s, limits) && i < |s.jobs| && s.jobs[i].status.Running? && AtOrBefore(s.jobs[i].leaseUntil, now)
    ensures var n := Step(s, Claim([i], now), limits);
            if s.jobs[i].attempts < limits.maxAttempts then
              && i < |n.jobs| && n.jobs[i].status.Running? && n.jobs[i].token == Some(s.nextToken)
              && n.jobs[i].attempts == s.jobs[i].attempts + 1 && n.jobs[i].leaseUntil == Some(now + limits.lease)
            else n == s
  {
    assert [i][1..] == [];
    assert ClaimAll(s, [i], now, limits) == ClaimAll(ClaimOne(s, i, now, limits), [], now, limits);
  }

  /** A limit of the design, exactly: a running job on which nobody reports any more is stranded, whatever else happens
      and however long, if and only if its last allowed attempt is the one it is in. */
  lemma StrandedExactlyInLastAttempt(s: State, i: nat, limits: Limits)
    requires Inv(s, limits) && i < |s.jobs| && s.jobs[i].status.Running?
    ensures (forall actions | Silent(actions, i, s.jobs[i].operation) ::
               i < |Run(s, actions, limits).jobs| && Run(s, actions, limits).jobs[i] == s.jobs[i])
            <==> s.jobs[i].attempts >= limits.maxAttempts
  {
    hide Run, ClaimAll, Inv;
    if s.jobs[i].attempts >= limits.maxAttempts {
      forall actions | Silent(actions, i, s.jobs[i].operation)
        ensures i < |Run(s, actions, limits).jobs| && Run(s, actions, limits).jobs[i] == s.jobs[i]
      {
        NoAttemptsLeft(s, actions, i, limits);
      }
    } else {
      LeaseIsKnown(s, i, limits);
      var claim := [Claim([i], s.jobs[i].leaseUntil.value)];
      ReclaimedWithAttemptsLeft(s, i, s.jobs[i].leaseUntil.value, limits);
      RunOne(s, claim[0], limits);
      assert Silent(claim, i, s.jobs[i].operation);
    }
  }

  lemma LeaseIsKnown(s: State, i: nat, limits: Limits)
    requires Inv(s, limits) && i < |s.jobs| && s.jobs[i].status.Running?
    ensures s.jobs[i].leaseUntil.Some?
  {}

  lemma RunOne(s: State, a: Action, limits: Limits)
    ensures Run(s, [a], limits) == Step(s, a, limits)
  {
    hide Step;
    assert [a][1..] == [] && Run(Step(s, a, limits), [], limits) == Step(s, a, limits);
  }

  /** It happens: with one attempt allowed, the first claim of a job is such an attempt. */
  lemma StrandingHappens(operation: Operation)
    ensures var limits, actions := Limits(1, 10), [Enqueue(operation, 0), Claim([0], 0)];
            var s := Run(EMPTY, actions, limits);
            && ValidLimits(limits) && Inv(s, limits) && |s.jobs| == 1
            && s.jobs[0].status.Running? && s.jobs[0].attempts == limits.maxAttempts
  {
    var limits := Limits(1, 10);
    var s1 := Enqueued(EMPTY, operation, 0);
    assert s1.jobs == [Job(operation, Queued, 0, None, None, 0)] && s1.claims == [0];
    var s2 := ClaimOne(s1, 0, 0, limits);
    assert ClaimAll(s1, [0], 0, limits) == ClaimAll(s2, [], 0, limits) == s2 by {
      assert [0][1..] == [];
    }
    var actions := [Enqueue(operation, 0), Claim([0], 0)];
    assert actions[1..] == [actions[1]];
    RunOne(s1, actions[1], limits);
    assert Run(EMPTY, actions, limits) == Run(s1, actions[1..], limits);
  }

  // ---------------------------------------------------------------- what each transaction does to a job

  /** Attempts are left, and the job waits no longer or its lease has run out. */
  predicate ComesUp(job: Job, now: Instant, limits: Limits) {
    && job.attempts < limits.maxAttempts
    && match job.status
       case Queued => job.nextAttemptAt <= now
       case Running => job.leaseUntil.Some? && job.leaseUntil.value <= now
       case _ => false
  }

  predicate Leased(was: Job, job: Job, now: Instant, limits: Limits) {
    && job.status == Running && job.attempts == was.attempts + 1 && job.token.Some? && job.leaseUntil == Some(now + limits.lease)
    && job.operation == was.operation && job.nextAttemptAt == was.nextAttemptAt
  }

  /** A claim statement leases exactly the listed jobs that come up, each under a token that was never used, and leaves the
      others alone. */
  lemma {:induction false} ClaimDecides(s: State, order: seq<nat>, now: Instant, limits: Limits, i: nat)
    requires Inv(s, limits) && ValidLimits(limits) && i < |s.jobs|
    ensures var n := ClaimAll(s, order, now, limits);
            && |n.jobs| == |s.jobs|
            && if i in order && ComesUp(s.jobs[i], now, limits) then
                 Leased(s.jobs[i], n.jobs[i], now, limits) && s.nextToken <= n.jobs[i].token.value < n.nextToken
               else n.jobs[i] == s.jobs[i]
    decreases |order|
  {
    hide Inv;
    if order != [] {
      var next := ClaimOne(s, order[0], now, limits);
      ClaimOneMoves(s, order[0], now, limits);
      CountsMatch(s, limits);
      ClaimDecides(next, order[1..], now, limits, i);
      ClaimAllMoves(next, order[1..], now, limits);
      assert i in order <==> i == order[0] || i in order[1..];
      LeaseRuns(s.jobs[i], next.jobs[i], now, limits);
    }
  }

  lemma CountsMatch(s: State, limits: Limits)
    requires Inv(s, limits)
    ensures |s.claims| == |s.jobs|
  {}

  lemma LeaseRuns(was: Job, job: Job, now: Instant, limits: Limits)
    requires ValidLimits(limits)
    ensures Leased(was, job, now, limits) ==> !ComesUp(job, now, limits)
  {}

  /** A report counts only from who holds the lease. Done, the job is completed; given up, it waits for its delay, or is
      abandoned if no attempt is left. */
  lemma ReportDecides(s: State, i: nat, token: nat, now: Instant, delay: int, limits: Limits)
    requires i < |s.jobs|
    ensures var was, done, failed := s.jobs[i], Step(s, Action.Done(i, token), limits), Step(s, GaveUp(i, token, now, delay), limits);
            && |done.jobs| == |failed.jobs| == |s.jobs|
            && (forall k :: 0 <= k < |s.jobs| && k != i ==> done.jobs[k] == failed.jobs[k] == s.jobs[k])
            && if was.status == Running && was.token == Some(token) then
                 && done.jobs[i] == Job(was.operation, Completed, was.attempts, None, None, was.nextAttemptAt)
                 && failed.jobs[i] == if was.attempts < limits.maxAttempts then Job(was.operation, Queued, was.attempts, None, None, now + delay)
                                      else Job(was.operation, Abandoned, was.attempts, None, None, was.nextAttemptAt)
               else done.jobs[i] == failed.jobs[i] == was
  {}

  /** What happens to an entity happens to its jobs: done for it, the unfinished ones of the given kinds are completed; and
      with a deleted draft all of its jobs go. */
  lemma EntityDecides(s: State, i: nat, entity: nat, kinds: set<nat>, limits: Limits)
    requires i < |s.jobs|
    ensures var was, done, deleted := s.jobs[i], Step(s, DoneFor(entity, kinds), limits), Step(s, DeleteFor(entity), limits);
            && |done.jobs| == |deleted.jobs| == |s.jobs|
            && done.jobs[i] == (if was.operation.entity == entity && was.operation.kind in kinds && was.status in {Queued, Running}
                                then Job(was.operation, Completed, was.attempts, None, None, was.nextAttemptAt) else was)
            && deleted.jobs[i] == (if was.operation.entity == entity then Job(was.operation, Deleted, was.attempts, None, None, was.nextAttemptAt)
                                   else was)
  {}

  /** Enqueuing adds a job that is due at once, unless the operation has one already. */
  lemma EnqueueDecides(s: State, operation: Operation, now: Instant, limits: Limits)
    ensures var n := Step(s, Enqueue(operation, now), limits);
            n.jobs == if exists i :: 0 <= i < |s.jobs| && s.jobs[i].operation == operation && s.jobs[i].status != Deleted then s.jobs
                      else s.jobs + [Job(operation, Queued, 0, None, None, now)]
  {
    if i :| 0 <= i < |s.jobs| && s.jobs[i].operation == operation && s.jobs[i].status != Deleted {
      assert IsFor(s.jobs[i], operation);
    }
  }

  // ---------------------------------------------------------------- the queue itself

  class JobQueue {
    var jobs: seq<Job>
    var nextToken: nat
    ghost var claims: seq<nat>
    ghost var owner: map<nat, nat>

    ghost predicate Valid()
      reads this
    {
      |claims| == |jobs|
    }

    ghost function Stored(): State
      reads this
    {
      State(jobs, nextToken, claims, owner)
    }

    constructor ()
      ensures Valid() && Stored() == EMPTY
    {
      jobs, nextToken, claims, owner := [], 0, [], map[];
    }

    method EnqueueJob(operation: Operation, now: Instant) returns (i: nat)
      requires Valid()
      modifies this
      ensures Valid() && Stored() == Enqueued(old(Stored()), operation, now)
      ensures i < |jobs| && IsFor(jobs[i], operation)
    {
      i := 0;
      while i < |jobs| && !IsFor(jobs[i], operation)
        invariant i <= |jobs| && forall k :: 0 <= k < i ==> !IsFor(jobs[k], operation)
      {
        i := i + 1;
      }
      if i == |jobs| {
        jobs := jobs + [Job(operation, Queued, 0, None, None, now)];
        claims := claims + [0];
      }
    }

    method ClaimDueJobs(order: seq<nat>, now: Instant, limits: Limits) returns (leases: seq<(nat, nat)>)
      requires Valid() && ValidLimits(limits)
      modifies this
      ensures Valid() && Stored() == ClaimAll(old(Stored()), order, now, limits)
      ensures forall k :: 0 <= k < |leases| ==> old(nextToken) <= leases[k].1 < nextToken && leases[k].1 in owner && owner[leases[k].1] == leases[k].0
    {
      hide Due;
      leases := [];
      ghost var start := Stored();
      for n := 0 to |order|
        invariant Valid() && nextToken >= old(nextToken)
        invariant ClaimAll(Stored(), order[n..], now, limits) == ClaimAll(start, order, now, limits)
        invariant forall k :: 0 <= k < |leases| ==> old(nextToken) <= leases[k].1 < nextToken && leases[k].1 in owner && owner[leases[k].1] == leases[k].0
      {
        assert order[n..][0] == order[n] && order[n..][1..] == order[n + 1..];
        var i := order[n];
        if i < |jobs| && Due(jobs[i], now, limits) {
          jobs := jobs[i := ClaimedJob(jobs[i], nextToken, now, limits)];
          leases := leases + [(i, nextToken)];
          claims := claims[i := claims[i] + 1];
          owner := owner[nextToken := i];
          nextToken := nextToken + 1;
        }
      }
      assert order[|order|..] == [];
    }

    method CompleteJob(i: nat, token: nat) returns (done: bool)
      requires Valid()
      modifies this`jobs
      ensures Valid() && Stored() == Complete(old(Stored()), i, token)
      ensures done == (i < |old(jobs)| && HeldBy(old(jobs)[i], token))
    {
      done := i < |jobs| && HeldBy(jobs[i], token);
      if done {
        jobs := jobs[i := Finished(jobs[i])];
      }
    }

    method CompleteEntityJobs(entity: nat, kinds: set<nat>)
      requires Valid()
      modifies this`jobs
      ensures Valid() && Stored() == CompleteEntity(old(Stored()), entity, kinds)
    {
      for i := 0 to |jobs|
        invariant |jobs| == |old(jobs)|
        invariant forall k :: 0 <= k < i ==> jobs[k] == CompleteEntity(old(Stored()), entity, kinds).jobs[k]
        invariant forall k :: i <= k < |jobs| ==> jobs[k] == old(jobs)[k]
      {
        if jobs[i].operation.entity == entity && jobs[i].operation.kind in kinds && (jobs[i].status.Queued? || jobs[i].status.Running?) {
          jobs := jobs[i := Finished(jobs[i])];
        }
      }
    }

    /** Deleting a draft deletes its jobs. */
    method DeleteEntityJobs(entity: nat)
      requires Valid()
      modifies this`jobs
      ensures Valid() && Stored() == DeleteEntity(old(Stored()), entity)
    {
      for i := 0 to |jobs|
        invariant |jobs| == |old(jobs)|
        invariant forall k :: 0 <= k < i ==> jobs[k] == DeleteEntity(old(Stored()), entity).jobs[k]
        invariant forall k :: i <= k < |jobs| ==> jobs[k] == old(jobs)[k]
      {
        if jobs[i].operation.entity == entity {
          jobs := jobs[i := DeletedJob(jobs[i])];
        }
      }
    }

    method FailJob(i: nat, token: nat, now: Instant, delay: int, limits: Limits) returns (recorded: bool)
      requires Valid() && ValidLimits(limits)
      modifies this`jobs
      ensures Valid() && Stored() == Fail(old(Stored()), i, token, now, delay, limits)
      ensures recorded == (i < |old(jobs)| && HeldBy(old(jobs)[i], token))
    {
      recorded := i < |jobs| && HeldBy(jobs[i], token);
      if recorded {
        jobs := jobs[i := FailedJob(jobs[i], now, delay, limits)];
      }
    }
  }
}
