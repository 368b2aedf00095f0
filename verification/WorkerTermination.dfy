// The worker comes to rest: every run makes boundedly many moves, no job runs more often than its retries allow,
// and while it is up the worker is at rest only when every job has finished.

module WorkerTermination {
  import opened Bags
  import opened WorkerProtocol
  import opened WorkerConservation

  // ---- A measure that falls with every move ----

  /** Attempts a job has left. */
  function Left(job: Job, maxRetries: int): nat {
    if job.attempt < maxRetries then maxRetries - job.attempt else 0
  }

  /** One round through the queue takes ten stages, numbered down to the handler. */
  function Weight(job: Job, maxRetries: int, stage: nat): nat {
    10 * Left(job, maxRetries) + stage
  }

  function JobWeight(maxRetries: int, stage: nat): Job -> nat {
    (job: Job) => Weight(job, maxRetries, stage)
  }

  function HeldWeight(maxRetries: int): Held -> nat {
    (h: Held) => Weight(h.job, maxRetries, 3)
  }

  function ProcWeight(maxRetries: int): Proc -> nat {
    (p: Proc) =>
      match p
      case Free => 1
      case Running(held, _) => Weight(held.job, maxRetries, 3)
      case Releasing(_, _) => 2
      case Gone => 0
  }

  function WaitingWeight(maxRetries: int): Waiting -> nat {
    (w: Waiting) => Weight(w.job, maxRetries, 9)
  }

  function PollerWeight(p: Poller, maxRetries: int): nat {
    match p
    case PollIdle => 1
    case Popped(job) => Weight(job, maxRetries, 6)
    case Holding(held) => Weight(held.job, maxRetries, 5)
    case PollGone => 0
  }

  function EnqueuerWeight(e: Enqueuer, maxRetries: int): nat {
    match e
    case EnqIdle => 1
    case Pushing(job) => Weight(job, maxRetries, 8)
    case EnqGone => 0
  }

  ghost function Measure(s: State): nat {
    var m := s.maxRetries;
    Sum(s.queue, JobWeight(m, 6)) + PollerWeight(s.poller, m) + Sum(s.jobCh, HeldWeight(m))
    + Sum(s.procs, ProcWeight(m))
    + Sum(s.backoffs, WaitingWeight(m)) + Sum(s.enqueueCh, JobWeight(m, 8)) + EnqueuerWeight(s.enqueuer, m)
    + One(!s.stopped) + One(!s.cancelled)
  }

  lemma PopMoves(s: State, decodes: bool)
    requires Enabled(s, Pop(decodes))
    ensures Measure(Next(s, Pop(decodes))) < Measure(s)
  {
    SumHead(s.queue, JobWeight(s.maxRetries, 6));
  }

  lemma AcquireMoves(s: State, redisUp: bool)
    requires Enabled(s, Acquire(redisUp))
    ensures Measure(Next(s, Acquire(redisUp))) < Measure(s)
  {
  }

  lemma SendMoves(s: State)
    requires Enabled(s, Send)
    ensures Measure(Next(s, Send)) < Measure(s)
  {
    SumPush(s.jobCh, s.poller.held, HeldWeight(s.maxRetries));
  }

  lemma AbandonMoves(s: State, deleted: bool)
    requires Enabled(s, Abandon(deleted))
    ensures Measure(Next(s, Abandon(deleted))) < Measure(s)
  {
  }

  lemma PollExitMoves(s: State)
    requires Enabled(s, PollExit)
    ensures Measure(Next(s, PollExit)) < Measure(s)
  {
  }

  lemma PollerMoves(s: State, l: Label)
    requires Enabled(s, l) && (l.Pop? || l.Acquire? || l.Send? || l.Abandon? || l.PollExit?)
    ensures Measure(Next(s, l)) < Measure(s)
  {
    hide Next, Measure, Enabled;
    match l
    case Pop(decodes) => PopMoves(s, decodes);
    case Acquire(redisUp) => AcquireMoves(s, redisUp);
    case Send => SendMoves(s);
    case Abandon(deleted) => AbandonMoves(s, deleted);
    case PollExit => PollExitMoves(s);
  }

  lemma EndedMeasure(s: State, i: nat)
    requires i < |s.procs| && s.procs[i].Running?
    ensures Measure(Ended(s, i)) + Weight(s.procs[i].held.job, s.maxRetries, 3) == Measure(s) + 2
  {
    SumUpdate(s.procs, i, Releasing(s.procs[i].held, s.procs[i].detached), ProcWeight(s.maxRetries));
  }

  lemma ProcMeasure(s: State, i: nat, p: Proc)
    requires i < |s.procs|
    ensures Measure(s.(procs := s.procs[i := p])) + ProcWeight(s.maxRetries)(s.procs[i]) ==
            Measure(s) + ProcWeight(s.maxRetries)(p)
  {
    SumUpdate(s.procs, i, p, ProcWeight(s.maxRetries));
  }

  lemma ReceiveMoves(s: State, i: nat)
    requires Enabled(s, Receive(i))
    ensures Measure(Next(s, Receive(i))) < Measure(s)
  {
    var m := s.maxRetries;
    var t := s.(jobCh := s.jobCh[1..]);
    SumHead(s.jobCh, HeldWeight(m));
    assert Measure(t) + Weight(s.jobCh[0].job, m, 3) == Measure(s);
    ProcMeasure(t, i, Running(Held(Started(s.jobCh[0].job), s.jobCh[0].since), false));
  }

  lemma ReleaseMoves(s: State, i: nat, deleted: bool)
    requires Enabled(s, Release(i, deleted))
    ensures Measure(Next(s, Release(i, deleted))) < Measure(s)
  {
    var t := Unlock(s, s.procs[i].held.job, deleted);
    assert Measure(t) == Measure(s);
    ProcMeasure(t, i, if s.procs[i].detached then Gone else Free);
  }

  lemma EndMoves(s: State, i: nat, reason: Reason)
    requires i < |s.procs| && s.procs[i].Running?
    ensures Measure(Finish(Ended(s, i), s.procs[i].held.job, reason)) < Measure(s)
  {
    EndedMeasure(s, i);
    assert Measure(Finish(Ended(s, i), s.procs[i].held.job, reason)) == Measure(Ended(s, i));
  }

  lemma ProcMoves(s: State, l: Label)
    requires Enabled(s, l) && (l.Receive? || l.ProcExit? || l.Succeed? || l.NoHandler? || l.Release?)
    ensures Measure(Next(s, l)) < Measure(s)
  {
    hide Measure, Backoffs.Backoff, KeyOf;
    match l
    case Receive(i) => ReceiveMoves(s, i);
    case ProcExit(i) => ProcMeasure(s, i, Gone);
    case Release(i, deleted) => ReleaseMoves(s, i, deleted);
    case Succeed(i) => EndMoves(s, i, Completed);
    case NoHandler(i) => EndMoves(s, i, NoHandlerFound);
  }

  lemma RetryIsLighter(job: Job, maxRetries: int)
    requires Retried(job).attempt < maxRetries
    ensures Weight(Retried(job), maxRetries, 9) + 2 < Weight(job, maxRetries, 3)
  {
  }

  lemma BackoffMeasure(s: State, w: Waiting)
    ensures Measure(s.(backoffs := s.backoffs + [w])) == Measure(s) + Weight(w.job, s.maxRetries, 9)
  {
    SumPush(s.backoffs, w, WaitingWeight(s.maxRetries));
  }

  lemma BackOffMoves(s: State, i: nat, w: Waiting)
    requires i < |s.procs| && s.procs[i].Running?
    requires w.job == Retried(s.procs[i].held.job) && w.job.attempt < s.maxRetries
    ensures Measure(Ended(s, i).(backoffs := s.backoffs + [w])) < Measure(s)
  {
    EndedMeasure(s, i);
    RetryIsLighter(s.procs[i].held.job, s.maxRetries);
    BackoffMeasure(Ended(s, i), w);
  }

  lemma ExhaustMoves(s: State, i: nat)
    requires i < |s.procs| && s.procs[i].Running?
    ensures Measure(Finish(Ended(s, i), Retried(s.procs[i].held.job), RetriesExhausted)) < Measure(s)
  {
    EndedMeasure(s, i);
    assert Measure(Finish(Ended(s, i), Retried(s.procs[i].held.job), RetriesExhausted)) == Measure(Ended(s, i));
  }

  lemma FailMoves(s: State, i: nat)
    requires Enabled(s, Fail(i))
    ensures Measure(Next(s, Fail(i))) < Measure(s)
  {
    hide Backoffs.Backoff, KeyOf;
    var job := Retried(s.procs[i].held.job);
    if job.attempt < s.maxRetries {
      BackOffMoves(s, i, Waiting(job, s.now + Backoffs.Backoff(job.attempt) * SECOND, s.procs[i].detached));
    } else {
      ExhaustMoves(s, i);
    }
  }

  lemma BackoffSendMoves(s: State, i: nat)
    requires Enabled(s, BackoffSend(i))
    ensures Measure(Next(s, BackoffSend(i))) < Measure(s)
  {
    SumRemove(s.backoffs, i, WaitingWeight(s.maxRetries));
    SumPush(s.enqueueCh, s.backoffs[i].job, JobWeight(s.maxRetries, 8));
  }

  lemma BackoffDropMoves(s: State, i: nat)
    requires Enabled(s, BackoffDrop(i))
    ensures Measure(Next(s, BackoffDrop(i))) < Measure(s)
  {
    SumRemove(s.backoffs, i, WaitingWeight(s.maxRetries));
  }

  lemma TakeMoves(s: State)
    requires Enabled(s, TakeEnqueue)
    ensures Measure(Next(s, TakeEnqueue)) < Measure(s)
  {
    SumHead(s.enqueueCh, JobWeight(s.maxRetries, 8));
  }

  lemma PushMoves(s: State, pushed: bool)
    requires Enabled(s, Push(pushed))
    ensures Measure(Next(s, Push(pushed))) < Measure(s)
  {
    SumCons(s.enqueuer.job, s.queue, JobWeight(s.maxRetries, 6));
  }

  lemma EnqExitMoves(s: State)
    requires Enabled(s, EnqExit)
    ensures Measure(Next(s, EnqExit)) < Measure(s)
  {
  }

  lemma RetryMoves(s: State, l: Label)
    requires Enabled(s, l) && (l.BackoffSend? || l.BackoffDrop? || l.TakeEnqueue? || l.Push? || l.EnqExit?)
    ensures Measure(Next(s, l)) < Measure(s)
  {
    hide Next, Measure, Enabled;
    match l
    case BackoffSend(i) => BackoffSendMoves(s, i);
    case BackoffDrop(i) => BackoffDropMoves(s, i);
    case TakeEnqueue => TakeMoves(s);
    case Push(pushed) => PushMoves(s, pushed);
    case EnqExit => EnqExitMoves(s);
  }

  /** Anything the worker does by itself: neither a submission nor the passing of time. */
  predicate Moves(l: Label) {
    !Submits(l) && !l.Tick?
  }

  lemma StepMaxRetries(s: State, l: Label)
    requires Enabled(s, l)
    ensures Next(s, l).maxRetries == s.maxRetries
  {
    hide KeyOf, Backoffs.Backoff;
  }

  lemma FlagMoves(s: State, l: Label)
    requires Enabled(s, l) && (l.Stop? || l.Cancel? || l.Tick?)
    ensures Measure(Next(s, l)) + One(Moves(l)) <= Measure(s)
  {
  }

  lemma StepMeasure(s: State, l: Label)
    requires Enabled(s, l) && !Submits(l)
    ensures Next(s, l).maxRetries == s.maxRetries
    ensures Measure(Next(s, l)) + One(Moves(l)) <= Measure(s)
  {
    hide Measure, Next, Enabled;
    StepMaxRetries(s, l);
    if l.Pop? || l.Acquire? || l.Send? || l.Abandon? || l.PollExit? {
      PollerMoves(s, l);
    } else if l.Fail? {
      FailMoves(s, l.i);
    } else if l.Receive? || l.ProcExit? || l.Succeed? || l.NoHandler? || l.Release? {
      ProcMoves(s, l);
    } else if l.BackoffSend? || l.BackoffDrop? || l.TakeEnqueue? || l.Push? || l.EnqExit? {
      RetryMoves(s, l);
    } else {
      FlagMoves(s, l);
    }
  }

  lemma AtMostMeasure(before: State, l: Label, after: State)
    requires after == (if Enabled(before, l) then Next(before, l) else before) && !Submits(l)
    ensures One(Moves(l) && Enabled(before, l)) + Measure(after) <= Measure(before)
  {
    if Enabled(before, l) {
      StepMeasure(before, l);
    }
  }

  function MoveCount(s: State, ls: seq<Label>, from: nat, n: nat): nat
    requires from <= n <= |ls|
    decreases n
  {
    if n == from then 0
    else MoveCount(s, ls, from, n - 1) + One(Moves(ls[n - 1]) && Enabled(StateAt(s, ls, n - 1), ls[n - 1]))
  }

  /** From any point on without new submissions, every run makes at most as many moves as the measure says. */
  lemma {:induction false} MovesAreBounded(s: State, ls: seq<Label>, from: nat, n: nat)
    requires from <= n <= |ls| && forall i :: from <= i < n ==> !Submits(ls[i])
    ensures MoveCount(s, ls, from, n) + Measure(StateAt(s, ls, n)) <= Measure(StateAt(s, ls, from))
    decreases n
  {
    hide Next, Measure, Enabled;
    if from < n {
      MovesAreBounded(s, ls, from, n - 1);
      AtMostMeasure(StateAt(s, ls, n - 1), ls[n - 1], StateAt(s, ls, n));
    }
  }

  // ---- How often a job runs ----

  /** A job about to run: it ran once per attempt so far, and was retried only below the limit. */
  predicate Due(job: Job, maxRetries: int) {
    job.runs == job.attempt - job.first && (job.attempt > job.first ==> job.attempt < maxRetries)
  }

  /** No more runs than retries allowed at submission, and one in any case. */
  predicate Spent(job: Job, maxRetries: int) {
    job.runs <= 1 || job.runs <= maxRetries - job.first
  }

  ghost predicate Counted(s: State) {
    var m := s.maxRetries;
    && (forall i :: 0 <= i < |s.queue| ==> Due(s.queue[i], m))
    && (s.poller.Popped? ==> Due(s.poller.job, m))
    && (s.poller.Holding? ==> Due(s.poller.held.job, m))
    && (forall i :: 0 <= i < |s.jobCh| ==> Due(s.jobCh[i].job, m))
    && (forall i :: 0 <= i < |s.procs| && s.procs[i].Running? ==>
          s.procs[i].held.job.runs > 0 && Due(s.procs[i].held.job.(runs := s.procs[i].held.job.runs - 1), m))
    && (forall i :: 0 <= i < |s.backoffs| ==> Due(s.backoffs[i].job, m))
    && (forall i :: 0 <= i < |s.enqueueCh| ==> Due(s.enqueueCh[i], m))
    && (s.enqueuer.Pushing? ==> Due(s.enqueuer.job, m))
    && (forall i :: 0 <= i < |s.finished| ==> Spent(s.finished[i].job, m))
  }

  lemma FinishCounts(s: State, job: Job, reason: Reason)
    requires Counted(s) && Spent(job, s.maxRetries)
    ensures Counted(Finish(s, job, reason))
  {
  }

  lemma SubmitCounts(s: State, l: Label)
    requires Counted(s) && Enabled(s, l) && Submits(l)
    ensures Counted(Next(s, l))
  {
    hide Backoffs.Backoff, KeyOf;
    var t := s.(submitted := s.submitted + [l.job]);
    assert Counted(t);
    if l.SubmitAsync? && l.pushed {
      QueueCounts(t, l.job);
    } else if l.SubmitAsync? {
      FinishCounts(t, l.job, PushFailed);
    } else if Next(s, l).finished == s.finished {
      var started := Started(l.job);
      assert started.(runs := started.runs - 1) == l.job;
      assert Counted(t.(procs := s.procs + [Running(Held(started, s.now), true)]));
    } else {
      FinishCounts(t, l.job, LockBusy);
    }
  }

  lemma QueueCounts(s: State, job: Job)
    requires Counted(s) && Due(job, s.maxRetries)
    ensures Counted(s.(queue := [job] + s.queue))
  {
  }

  lemma PopCounts(s: State, decodes: bool)
    requires Counted(s) && Enabled(s, Pop(decodes))
    ensures Counted(Next(s, Pop(decodes)))
  {
    FinishCounts(s.(queue := s.queue[1..]), s.queue[0], DecodeFailed);
  }

  lemma AcquireCounts(s: State, redisUp: bool)
    requires Counted(s) && Enabled(s, Acquire(redisUp))
    ensures Counted(Next(s, Acquire(redisUp)))
  {
    hide KeyOf;
    FinishCounts(s.(poller := PollIdle), s.poller.job, LockBusy);
  }

  lemma SendCounts(s: State)
    requires Counted(s) && Enabled(s, Send)
    ensures Counted(Next(s, Send))
  {
  }

  lemma AbandonCounts(s: State, deleted: bool)
    requires Counted(s) && Enabled(s, Abandon(deleted))
    ensures Counted(Next(s, Abandon(deleted)))
  {
    hide KeyOf;
    FinishCounts(Unlock(s, s.poller.held.job, deleted).(poller := PollIdle), s.poller.held.job, ShutDown);
  }

  lemma PollerCounts(s: State, l: Label)
    requires Counted(s) && Enabled(s, l) && (l.Pop? || l.Acquire? || l.Send? || l.Abandon?)
    ensures Counted(Next(s, l))
  {
    hide Next, Counted, Enabled;
    match l
    case Pop(decodes) => PopCounts(s, decodes);
    case Acquire(redisUp) => AcquireCounts(s, redisUp);
    case Send => SendCounts(s);
    case Abandon(deleted) => AbandonCounts(s, deleted);
  }

  lemma EndedCounts(s: State, i: nat)
    requires Counted(s) && i < |s.procs| && s.procs[i].Running?
    ensures Counted(Ended(s, i)) && Spent(s.procs[i].held.job, s.maxRetries)
  {
    forall j | 0 <= j < |s.procs| && Ended(s, i).procs[j].Running? ensures s.procs[j] == Ended(s, i).procs[j] {
    }
  }

  lemma FailCounts(s: State, i: nat)
    requires Counted(s) && Enabled(s, Fail(i))
    ensures Counted(Next(s, Fail(i)))
  {
    hide Backoffs.Backoff, KeyOf;
    EndedCounts(s, i);
    var job := Retried(s.procs[i].held.job);
    if job.attempt >= s.maxRetries {
      FinishCounts(Ended(s, i), job, RetriesExhausted);
    } else {
      assert Due(job, s.maxRetries);
    }
  }

  lemma EndCounts(s: State, i: nat, reason: Reason)
    requires Counted(s) && i < |s.procs| && s.procs[i].Running?
    ensures Counted(Finish(Ended(s, i), s.procs[i].held.job, reason))
  {
    hide Counted, Finish, Spent;
    EndedCounts(s, i);
    FinishCounts(Ended(s, i), s.procs[i].held.job, reason);
  }

  lemma ReceiveCounts(s: State, i: nat)
    requires Counted(s) && Enabled(s, Receive(i))
    ensures Counted(Next(s, Receive(i)))
  {
    assert Started(s.jobCh[0].job).(runs := Started(s.jobCh[0].job).runs - 1) == s.jobCh[0].job;
  }

  lemma FreedCounts(s: State, i: nat, p: Proc)
    requires Counted(s) && i < |s.procs| && !p.Running?
    ensures Counted(s.(procs := s.procs[i := p]))
  {
  }

  lemma ReleaseCounts(s: State, i: nat, deleted: bool)
    requires Counted(s) && Enabled(s, Release(i, deleted))
    ensures Counted(Next(s, Release(i, deleted)))
  {
    hide KeyOf;
    FreedCounts(s, i, if s.procs[i].detached then Gone else Free);
  }

  lemma ProcCounts(s: State, l: Label)
    requires Counted(s) && Enabled(s, l) && (l.Receive? || l.ProcExit? || l.Succeed? || l.NoHandler? || l.Release?)
    ensures Counted(Next(s, l))
  {
    hide Counted, KeyOf, Backoffs.Backoff;
    match l
    case Succeed(i) => EndCounts(s, i, Completed);
    case NoHandler(i) => EndCounts(s, i, NoHandlerFound);
    case Receive(i) => ReceiveCounts(s, i);
    case ProcExit(i) => FreedCounts(s, i, Gone);
    case Release(i, deleted) => ReleaseCounts(s, i, deleted);
  }

  lemma RetryCounts(s: State, l: Label)
    requires Counted(s) && Enabled(s, l)
    requires l.BackoffSend? || l.BackoffDrop? || l.TakeEnqueue? || l.Push?
    ensures Counted(Next(s, l))
  {
    hide Backoffs.Backoff, KeyOf;
    if l.BackoffSend? || l.BackoffDrop? {
      var t := s.(backoffs := s.backoffs[..l.i] + s.backoffs[l.i + 1..]);
      assert Counted(t);
      if l.BackoffDrop? {
        FinishCounts(t, s.backoffs[l.i].job, ShutDown);
      }
    } else if l.Push? {
      var t := s.(enqueuer := EnqIdle);
      assert Counted(t);
      QueueCounts(t, s.enqueuer.job);
      FinishCounts(t, s.enqueuer.job, PushFailed);
    }
  }

  lemma StandingCounts(s: State, l: Label)
    requires Counted(s) && Enabled(s, l) && Stands(l)
    ensures Counted(Next(s, l))
  {
    hide KeyOf, Backoffs.Backoff, LockFree;
  }

  lemma StepCounts(s: State, l: Label)
    requires Counted(s) && Enabled(s, l)
    ensures Counted(Next(s, l)) && Next(s, l).maxRetries == s.maxRetries
  {
    hide Next, Counted, Enabled;
    StepMaxRetries(s, l);
    if Submits(l) {
      SubmitCounts(s, l);
    } else if l.Pop? || l.Acquire? || l.Send? || l.Abandon? {
      PollerCounts(s, l);
    } else if l.Fail? {
      FailCounts(s, l.i);
    } else if l.Receive? || l.ProcExit? || l.Succeed? || l.NoHandler? || l.Release? {
      ProcCounts(s, l);
    } else if Stands(l) {
      StandingCounts(s, l);
    } else {
      RetryCounts(s, l);
    }
  }

  lemma {:induction false} AlwaysCounted(s: State, ls: seq<Label>, n: nat)
    requires Initial(s) && n <= |ls|
    ensures Counted(StateAt(s, ls, n)) && StateAt(s, ls, n).maxRetries == s.maxRetries
  {
    if n > 0 {
      AlwaysCounted(s, ls, n - 1);
      if Enabled(StateAt(s, ls, n - 1), ls[n - 1]) {
        StepCounts(StateAt(s, ls, n - 1), ls[n - 1]);
      }
    }
  }

  /** With at least one retry configured, a job submitted at attempt 0 is handed to the handler at most maxRetries
      times. */
  lemma RunsWithinRetries(s: State, ls: seq<Label>, n: nat)
    requires Initial(s) && n <= |ls| && s.maxRetries >= 1
    ensures
      var t := StateAt(s, ls, n);
      && (forall i :: 0 <= i < |t.finished| && t.finished[i].job.first == 0 ==> t.finished[i].job.runs <= s.maxRetries)
      && (forall i :: 0 <= i < |t.procs| && t.procs[i].Running? && t.procs[i].held.job.first == 0 ==>
            t.procs[i].held.job.runs <= s.maxRetries)
      && (forall i :: 0 <= i < |t.queue| && t.queue[i].first == 0 ==> t.queue[i].runs < s.maxRetries)
  {
    AlwaysCounted(s, ls, n);
  }

  // ---- Backoffs are waited out ----

  /** At step m a job failed, to be retried after its backoff as w says. */
  ghost predicate FailedInto(s: State, ls: seq<Label>, m: nat, w: Waiting)
    requires m < |ls|
  {
    var before := StateAt(s, ls, m);
    && Enabled(before, ls[m]) && ls[m].Fail?
    && w.job == before.procs[ls[m].i].held.job.(attempt := before.procs[ls[m].i].held.job.attempt + 1)
    && w.due == before.now + Backoffs.Backoff(w.job.attempt) * 1_000_000_000
  }

  lemma EndBackoffs(s: State, l: Label, w: Waiting)
    requires Enabled(s, l) && (l.Succeed? || l.NoHandler? || l.Fail?) && w in Next(s, l).backoffs && w !in s.backoffs
    ensures
      && l.Fail?
      && w.job == s.procs[l.i].held.job.(attempt := s.procs[l.i].held.job.attempt + 1)
      && w.due == s.now + Backoffs.Backoff(w.job.attempt) * 1_000_000_000
  {
    hide KeyOf;
  }

  lemma OtherBackoffs(s: State, l: Label, w: Waiting)
    requires Enabled(s, l) && !l.Succeed? && !l.NoHandler? && !l.Fail? && w in Next(s, l).backoffs
    ensures w in s.backoffs
  {
    hide KeyOf, LockFree, Backoffs.Backoff;
  }

  lemma {:induction false} BackoffOrigin(s: State, ls: seq<Label>, n: nat, w: Waiting) returns (m: nat)
    requires Initial(s) && n <= |ls| && w in StateAt(s, ls, n).backoffs
    ensures m < n && FailedInto(s, ls, m, w)
  {
    hide Next, Enabled;
    var before := StateAt(s, ls, n - 1);
    if w in before.backoffs {
      m := BackoffOrigin(s, ls, n - 1, w);
    } else {
      m := n - 1;
      if ls[m].Succeed? || ls[m].NoHandler? || ls[m].Fail? {
        EndBackoffs(before, ls[m], w);
      } else {
        OtherBackoffs(before, ls[m], w);
      }
    }
  }

  /** A retry leaves its backoff, for enqueueCh or dropped at a shutdown, no earlier than its whole delay after the
      failure that caused it. */
  lemma RetriesWait(s: State, ls: seq<Label>, n: nat) returns (m: nat)
    requires Initial(s) && n < |ls| && (ls[n].BackoffSend? || ls[n].BackoffDrop?) && Enabled(StateAt(s, ls, n), ls[n])
    ensures m < n && FailedInto(s, ls, m, StateAt(s, ls, n).backoffs[ls[n].i])
    ensures StateAt(s, ls, n).now - StateAt(s, ls, m).now >=
      Backoffs.Backoff(StateAt(s, ls, n).backoffs[ls[n].i].job.attempt) * 1_000_000_000
  {
    m := BackoffOrigin(s, ls, n, StateAt(s, ls, n).backoffs[ls[n].i]);
  }

  // ---- At rest only when done ----

  /** While the worker is up, its loops are: the first processing goroutine is not a detached one. */
  ghost predicate LoopsUp(s: State) {
    !Down(s) ==>
      && !s.poller.PollGone? && !s.enqueuer.EnqGone? && s.procs != []
      && !s.procs[0].Gone? && (s.procs[0].Running? || s.procs[0].Releasing? ==> !s.procs[0].detached)
  }

  lemma EndUp(s: State, l: Label)
    requires LoopsUp(s) && Enabled(s, l) && (l.Succeed? || l.NoHandler? || l.Fail?)
    ensures LoopsUp(Next(s, l))
  {
    hide KeyOf, Backoffs.Backoff;
  }

  lemma QueueUp(s: State, l: Label)
    requires LoopsUp(s) && Enabled(s, l)
    requires l.Pop? || l.TakeEnqueue? || l.Push? || l.BackoffSend? || l.BackoffDrop? || Stands(l)
    ensures LoopsUp(Next(s, l))
  {
    hide KeyOf, LockFree, Backoffs.Backoff;
  }

  lemma LockUp(s: State, l: Label)
    requires LoopsUp(s) && Enabled(s, l)
    requires Submits(l) || l.Acquire? || l.Send? || l.Abandon? || l.Receive? || l.ProcExit? || l.Release?
    ensures LoopsUp(Next(s, l))
  {
    hide KeyOf, LockFree, Backoffs.Backoff;
  }

  lemma StepUp(s: State, l: Label)
    requires LoopsUp(s) && Enabled(s, l)
    ensures LoopsUp(Next(s, l))
  {
    hide Next, LoopsUp, Enabled;
    if l.Succeed? || l.NoHandler? || l.Fail? {
      EndUp(s, l);
    } else if Submits(l) || l.Acquire? || l.Send? || l.Abandon? || l.Receive? || l.ProcExit? || l.Release? {
      LockUp(s, l);
    } else {
      QueueUp(s, l);
    }
  }

  lemma {:induction false} AlwaysUp(s: State, ls: seq<Label>, n: nat)
    requires Initial(s) && n <= |ls|
    ensures LoopsUp(StateAt(s, ls, n))
  {
    if n > 0 {
      AlwaysUp(s, ls, n - 1);
      if Enabled(StateAt(s, ls, n - 1), ls[n - 1]) {
        StepUp(StateAt(s, ls, n - 1), ls[n - 1]);
      }
    }
  }

  ghost predicate AtRest(s: State) {
    && s.queue == [] && s.poller.PollIdle? && s.jobCh == [] && s.backoffs == [] && s.enqueueCh == []
    && s.enqueuer.EnqIdle?
    && forall i :: 0 <= i < |s.procs| ==> s.procs[i].Free? || s.procs[i].Gone?
  }

  lemma ProcMove(s: State, i: nat) returns (l: Label)
    requires i < |s.procs| && (s.procs[i].Running? || s.procs[i].Releasing? || (s.procs[i].Free? && s.jobCh != []))
    ensures Enabled(s, l) && Moves(l) && !l.Stop? && !l.Cancel?
  {
    l := if s.procs[i].Running? then Succeed(i) else if s.procs[i].Releasing? then Release(i, true) else Receive(i);
  }

  /** Nothing blocks for good: unless all is done, some move of the worker is enabled at once or after a while. */
  lemma NeverStuck(s: State) returns (elapsed: nat, l: Label)
    requires LoopsUp(s) && !Down(s) && !AtRest(s)
    ensures Enabled(Next(s, Tick(elapsed)), l) && Moves(l) && !l.Stop? && !l.Cancel?
  {
    elapsed := 0;
    if s.jobCh != [] {
      l := ProcMove(s, 0);
    } else if s.poller.Popped? {
      l := Acquire(true);
    } else if s.poller.Holding? {
      l := Send;
    } else if i :| 0 <= i < |s.procs| && (s.procs[i].Running? || s.procs[i].Releasing?) {
      l := ProcMove(s, i);
    } else if s.enqueuer.Pushing? {
      l := Push(true);
    } else if s.enqueueCh != [] {
      l := TakeEnqueue;
    } else if s.queue != [] {
      l := Pop(true);
    } else {
      assert s.backoffs != [];
      elapsed := if s.backoffs[0].due > s.now then s.backoffs[0].due - s.now else 0;
      l := BackoffSend(0);
    }
    assert Next(s, Tick(0)) == s;
  }

  lemma RestLocates(s: State, x: Ident)
    requires AtRest(s)
    ensures Located(s, x) == Sum(s.finished, DoneIs(x))
  {
    NoRunningJobs(s.procs, x);
  }

  /** At rest, every submitted job has finished, with exactly one recorded reason. */
  lemma RestMeansFinished(s: State, ls: seq<Label>, n: nat)
    requires Initial(s) && n <= |ls| && AtRest(StateAt(s, ls, n))
    ensures
      var t := StateAt(s, ls, n);
      forall i :: 0 <= i < |t.submitted| ==> Sum(t.finished, DoneIs(IdentOf(t.submitted[i]))) == 1
  {
    hide StateAt, Located, AtRest, Initial, Sum;
    ExactlyOnePlace(s, ls, n);
    var t := StateAt(s, ls, n);
    forall i | 0 <= i < |t.submitted| ensures Sum(t.finished, DoneIs(IdentOf(t.submitted[i]))) == 1 {
      assert Located(t, IdentOf(t.submitted[i])) == 1;
      RestLocates(t, IdentOf(t.submitted[i]));
    }
  }

  /** A run that the worker cannot continue while up has finished every job. */
  lemma StuckMeansFinished(s: State, ls: seq<Label>, n: nat)
    requires Initial(s) && n <= |ls| && !Down(StateAt(s, ls, n))
    requires forall elapsed: nat, l :: Moves(l) && !l.Stop? && !l.Cancel? ==>
      !Enabled(Next(StateAt(s, ls, n), Tick(elapsed)), l)
    ensures
      var t := StateAt(s, ls, n);
      forall i :: 0 <= i < |t.submitted| ==> Sum(t.finished, DoneIs(IdentOf(t.submitted[i]))) == 1
  {
    AlwaysUp(s, ls, n);
    if !AtRest(StateAt(s, ls, n)) {
      var elapsed, l := NeverStuck(StateAt(s, ls, n));
      assert false;
    }
    RestMeansFinished(s, ls, n);
  }
}
