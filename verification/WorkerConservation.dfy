// Every submitted job is in exactly one place.

module WorkerConservation {
  import opened Uuids
  import opened Bags
  import opened WorkerProtocol

  /** What stays the same about a job from its submission on. */
  datatype Ident = Ident(id: nat, media: Uuid, name: string)

  function IdentOf(job: Job): Ident {
    Ident(job.id, job.media, job.name)
  }

  function One(yes: bool): nat {
    if yes then 1 else 0
  }

  function JobIs(x: Ident): Job -> nat {
    (job: Job) => One(IdentOf(job) == x)
  }

  function HeldIs(x: Ident): Held -> nat {
    (h: Held) => One(IdentOf(h.job) == x)
  }

  /** A releasing goroutine no longer has its job: the job has finished or waits out its backoff. */
  function ProcIs(x: Ident): Proc -> nat {
    (p: Proc) => One(p.Running? && IdentOf(p.held.job) == x)
  }

  function WaitingIs(x: Ident): Waiting -> nat {
    (w: Waiting) => One(IdentOf(w.job) == x)
  }

  function DoneIs(x: Ident): Done -> nat {
    (d: Done) => One(IdentOf(d.job) == x)
  }

  function PollerHas(p: Poller, x: Ident): nat {
    match p
    case Popped(job) => One(IdentOf(job) == x)
    case Holding(held) => One(IdentOf(held.job) == x)
    case _ => 0
  }

  function EnqueuerHas(e: Enqueuer, x: Ident): nat {
    if e.Pushing? then One(IdentOf(e.job) == x) else 0
  }

  /** In how many places the job is: Redis list, poller, jobCh, running, backoff, enqueueCh, enqueuer, finished. */
  ghost function Located(s: State, x: Ident): nat {
    Sum(s.queue, JobIs(x)) + PollerHas(s.poller, x) + Sum(s.jobCh, HeldIs(x)) + Sum(s.procs, ProcIs(x))
    + Sum(s.backoffs, WaitingIs(x)) + Sum(s.enqueueCh, JobIs(x)) + EnqueuerHas(s.enqueuer, x)
    + Sum(s.finished, DoneIs(x))
  }

  lemma FinishLocates(s: State, job: Job, reason: Reason, x: Ident)
    ensures Located(Finish(s, job, reason), x) == Located(s, x) + One(IdentOf(job) == x)
  {
    SumPush(s.finished, Done(job, reason), DoneIs(x));
  }

  lemma SumHead<T>(s: seq<T>, f: T -> nat)
    requires s != []
    ensures Sum(s, f) == f(s[0]) + Sum(s[1..], f)
  {
  }

  lemma SumCons<T>(x: T, s: seq<T>, f: T -> nat)
    ensures Sum([x] + s, f) == f(x) + Sum(s, f)
  {
    assert ([x] + s)[1..] == s;
  }

  lemma SubmitAsyncLocates(s: State, job: Job, pushed: bool, x: Ident)
    requires Enabled(s, SubmitAsync(job, pushed))
    ensures Located(Next(s, SubmitAsync(job, pushed)), x) == Located(s, x) + One(IdentOf(job) == x)
  {
    var t := s.(submitted := s.submitted + [job]);
    FinishLocates(t, job, PushFailed, x);
    SumCons(job, s.queue, JobIs(x));
  }

  lemma SubmitSyncLocates(s: State, job: Job, redisUp: bool, x: Ident)
    requires Enabled(s, SubmitSync(job, redisUp))
    ensures Located(Next(s, SubmitSync(job, redisUp)), x) == Located(s, x) + One(IdentOf(job) == x)
  {
    hide KeyOf;
    var t := s.(submitted := s.submitted + [job]);
    FinishLocates(t, job, LockBusy, x);
    SumPush(s.procs, Running(Held(Started(job), s.now), true), ProcIs(x));
  }

  lemma PopLocates(s: State, decodes: bool, x: Ident)
    requires Enabled(s, Pop(decodes))
    ensures Located(Next(s, Pop(decodes)), x) == Located(s, x)
  {
    SumHead(s.queue, JobIs(x));
    FinishLocates(s.(queue := s.queue[1..]), s.queue[0], DecodeFailed, x);
  }

  lemma AcquireLocates(s: State, redisUp: bool, x: Ident)
    requires Enabled(s, Acquire(redisUp))
    ensures Located(Next(s, Acquire(redisUp)), x) == Located(s, x)
  {
    hide KeyOf;
    FinishLocates(s.(poller := PollIdle), s.poller.job, LockBusy, x);
  }

  lemma SendLocates(s: State, x: Ident)
    requires Enabled(s, Send)
    ensures Located(Next(s, Send), x) == Located(s, x)
  {
    SumPush(s.jobCh, s.poller.held, HeldIs(x));
  }

  lemma AbandonLocates(s: State, deleted: bool, x: Ident)
    requires Enabled(s, Abandon(deleted))
    ensures Located(Next(s, Abandon(deleted)), x) == Located(s, x)
  {
    hide KeyOf;
    FinishLocates(Unlock(s, s.poller.held.job, deleted).(poller := PollIdle), s.poller.held.job, ShutDown, x);
  }

  lemma ReceiveLocates(s: State, i: nat, x: Ident)
    requires Enabled(s, Receive(i))
    ensures Located(Next(s, Receive(i)), x) == Located(s, x)
  {
    SumHead(s.jobCh, HeldIs(x));
    SumUpdate(s.procs, i, Running(Held(Started(s.jobCh[0].job), s.jobCh[0].since), false), ProcIs(x));
  }

  lemma EndedLocates(s: State, i: nat, x: Ident)
    requires i < |s.procs| && s.procs[i].Running?
    ensures Located(Ended(s, i), x) + One(IdentOf(s.procs[i].held.job) == x) == Located(s, x)
  {
    SumUpdate(s.procs, i, Releasing(s.procs[i].held, s.procs[i].detached), ProcIs(x));
  }

  /** A job that ends for good, under its identity, moves from its goroutine to the finished ones. */
  lemma EndLocates(s: State, i: nat, job: Job, reason: Reason, x: Ident)
    requires i < |s.procs| && s.procs[i].Running? && IdentOf(job) == IdentOf(s.procs[i].held.job)
    ensures Located(Finish(Ended(s, i), job, reason), x) == Located(s, x)
  {
    hide Located, Ended, Finish;
    EndedLocates(s, i, x);
    FinishLocates(Ended(s, i), job, reason, x);
  }

  lemma BackOffLocates(s: State, i: nat, w: Waiting, x: Ident)
    requires i < |s.procs| && s.procs[i].Running? && IdentOf(w.job) == IdentOf(s.procs[i].held.job)
    ensures Located(Ended(s, i).(backoffs := s.backoffs + [w]), x) == Located(s, x)
  {
    EndedLocates(s, i, x);
    SumPush(s.backoffs, w, WaitingIs(x));
  }

  lemma FailLocates(s: State, i: nat, x: Ident)
    requires Enabled(s, Fail(i))
    ensures Located(Next(s, Fail(i)), x) == Located(s, x)
  {
    hide Located, Ended, Finish, Backoffs.Backoff;
    var job := Retried(s.procs[i].held.job);
    EndLocates(s, i, job, RetriesExhausted, x);
    BackOffLocates(s, i, Waiting(job, s.now + Backoffs.Backoff(job.attempt) * SECOND, s.procs[i].detached), x);
  }

  lemma FreedLocates(s: State, i: nat, p: Proc, x: Ident)
    requires i < |s.procs| && !s.procs[i].Running? && !p.Running?
    ensures Located(s.(procs := s.procs[i := p]), x) == Located(s, x)
  {
    SumUpdate(s.procs, i, p, ProcIs(x));
  }

  lemma ReleaseLocates(s: State, i: nat, deleted: bool, x: Ident)
    requires Enabled(s, Release(i, deleted))
    ensures Located(Next(s, Release(i, deleted)), x) == Located(s, x)
  {
    hide KeyOf;
    FreedLocates(s, i, if s.procs[i].detached then Gone else Free, x);
  }

  lemma BackoffSendLocates(s: State, i: nat, x: Ident)
    requires Enabled(s, BackoffSend(i))
    ensures Located(Next(s, BackoffSend(i)), x) == Located(s, x)
  {
    SumRemove(s.backoffs, i, WaitingIs(x));
    SumPush(s.enqueueCh, s.backoffs[i].job, JobIs(x));
  }

  lemma BackoffDropLocates(s: State, i: nat, x: Ident)
    requires Enabled(s, BackoffDrop(i))
    ensures Located(Next(s, BackoffDrop(i)), x) == Located(s, x)
  {
    SumRemove(s.backoffs, i, WaitingIs(x));
    FinishLocates(s.(backoffs := s.backoffs[..i] + s.backoffs[i + 1..]), s.backoffs[i].job, ShutDown, x);
  }

  lemma TakeLocates(s: State, x: Ident)
    requires Enabled(s, TakeEnqueue)
    ensures Located(Next(s, TakeEnqueue), x) == Located(s, x)
  {
    SumHead(s.enqueueCh, JobIs(x));
  }

  lemma PushLocates(s: State, pushed: bool, x: Ident)
    requires Enabled(s, Push(pushed))
    ensures Located(Next(s, Push(pushed)), x) == Located(s, x)
  {
    SumCons(s.enqueuer.job, s.queue, JobIs(x));
    FinishLocates(s.(enqueuer := EnqIdle), s.enqueuer.job, PushFailed, x);
  }

  ghost predicate Conserved(s: State) {
    && (forall x :: Located(s, x) == Sum(s.submitted, JobIs(x)))
    && (forall i, j :: 0 <= i < j < |s.submitted| ==> s.submitted[i].id != s.submitted[j].id)
  }

  predicate Submits(l: Label) {
    l.SubmitAsync? || l.SubmitSync?
  }

  /** Steps that move no job. */
  predicate Stands(l: Label) {
    l.Tick? || l.Stop? || l.Cancel? || l.PollExit? || l.EnqExit?
  }

  lemma StandingLocates(s: State, l: Label, x: Ident)
    requires Enabled(s, l) && Stands(l)
    ensures Located(Next(s, l), x) == Located(s, x)
  {
  }

  lemma StepLocates(s: State, l: Label, x: Ident)
    requires Enabled(s, l)
    ensures Located(Next(s, l), x) == Located(s, x) + (if Submits(l) then One(IdentOf(l.job) == x) else 0)
  {
    hide Located, Finish, KeyOf, Lock, Unlock, LockFree;
    match l
    case SubmitAsync(job, pushed) => SubmitAsyncLocates(s, job, pushed, x);
    case SubmitSync(job, redisUp) => SubmitSyncLocates(s, job, redisUp, x);
    case Pop(decodes) => PopLocates(s, decodes, x);
    case Acquire(redisUp) => AcquireLocates(s, redisUp, x);
    case Send => SendLocates(s, x);
    case Abandon(deleted) => AbandonLocates(s, deleted, x);
    case Receive(i) => ReceiveLocates(s, i, x);
    case ProcExit(i) => FreedLocates(s, i, Gone, x);
    case Succeed(i) => EndLocates(s, i, s.procs[i].held.job, Completed, x);
    case NoHandler(i) => EndLocates(s, i, s.procs[i].held.job, NoHandlerFound, x);
    case Fail(i) => FailLocates(s, i, x);
    case Release(i, deleted) => ReleaseLocates(s, i, deleted, x);
    case BackoffSend(i) => BackoffSendLocates(s, i, x);
    case BackoffDrop(i) => BackoffDropLocates(s, i, x);
    case TakeEnqueue => TakeLocates(s, x);
    case Push(pushed) => PushLocates(s, pushed, x);
    case _ => StandingLocates(s, l, x);
  }

  lemma MoveSubmits(s: State, l: Label)
    requires Enabled(s, l) && (l.Pop? || l.Acquire? || l.Send? || l.Abandon? || l.Receive? || l.ProcExit? || l.Release?)
    ensures Next(s, l).submitted == s.submitted
  {
    hide KeyOf, LockFree, Backoffs.Backoff;
  }

  lemma EndSubmits(s: State, l: Label)
    requires Enabled(s, l)
    requires l.Succeed? || l.NoHandler? || l.Fail? || l.BackoffSend? || l.BackoffDrop? || l.TakeEnqueue?
    ensures Next(s, l).submitted == s.submitted
  {
    hide KeyOf, LockFree, Backoffs.Backoff;
  }

  lemma StepSubmits(s: State, l: Label)
    requires Enabled(s, l)
    ensures Next(s, l).submitted == if Submits(l) then s.submitted + [l.job] else s.submitted
    ensures Submits(l) ==> forall i :: 0 <= i < |s.submitted| ==> s.submitted[i].id != l.job.id
  {
    hide KeyOf, LockFree, Backoffs.Backoff;
    if l.Pop? || l.Acquire? || l.Send? || l.Abandon? || l.Receive? || l.ProcExit? || l.Release? {
      MoveSubmits(s, l);
    } else if l.Succeed? || l.NoHandler? || l.Fail? || l.BackoffSend? || l.BackoffDrop? || l.TakeEnqueue? {
      EndSubmits(s, l);
    }
  }

  lemma StepTime(s: State, l: Label)
    requires Enabled(s, l)
    ensures s.now <= Next(s, l).now
  {
    hide KeyOf, LockFree, Backoffs.Backoff;
  }

  lemma StepConserves(s: State, l: Label)
    requires Conserved(s) && Enabled(s, l)
    ensures Conserved(Next(s, l))
  {
    var t := Next(s, l);
    StepSubmits(s, l);
    forall x ensures Located(t, x) == Sum(t.submitted, JobIs(x)) {
      StepLocates(s, l, x);
      if Submits(l) {
        SumPush(s.submitted, l.job, JobIs(x));
      }
    }
  }

  lemma {:induction false} AlwaysConserved(s: State, ls: seq<Label>, n: nat)
    requires Initial(s) && n <= |ls|
    ensures Conserved(StateAt(s, ls, n))
  {
    if n == 0 {
      forall x ensures Located(s, x) == Sum(s.submitted, JobIs(x)) {
        NoRunningJobs(s.procs, x);
      }
    } else {
      AlwaysConserved(s, ls, n - 1);
      if Enabled(StateAt(s, ls, n - 1), ls[n - 1]) {
        StepConserves(StateAt(s, ls, n - 1), ls[n - 1]);
      }
    }
  }

  lemma {:induction false} NoRunningJobs(procs: seq<Proc>, x: Ident)
    requires forall i :: 0 <= i < |procs| ==> !procs[i].Running?
    ensures Sum(procs, ProcIs(x)) == 0
  {
    if procs != [] {
      NoRunningJobs(procs[1..], x);
    }
  }

  lemma {:induction false} SubmittedOnce(jobs: seq<Job>, i: nat)
    requires i < |jobs| && forall j, k :: 0 <= j < k < |jobs| ==> jobs[j].id != jobs[k].id
    ensures Sum(jobs, JobIs(IdentOf(jobs[i]))) == 1
  {
    var x := IdentOf(jobs[i]);
    if i == 0 {
      NotAmong(jobs[1..], x);
    } else {
      SubmittedOnce(jobs[1..], i - 1);
    }
  }

  lemma {:induction false} NotAmong(jobs: seq<Job>, x: Ident)
    requires forall j :: 0 <= j < |jobs| ==> jobs[j].id != x.id
    ensures Sum(jobs, JobIs(x)) == 0
  {
    if jobs != [] {
      NotAmong(jobs[1..], x);
    }
  }

  /** In every reachable state every submitted job is in exactly one place, and nothing else is anywhere. */
  lemma ExactlyOnePlace(s: State, ls: seq<Label>, n: nat)
    requires Initial(s) && n <= |ls|
    ensures
      var t := StateAt(s, ls, n);
      && (forall i :: 0 <= i < |t.submitted| ==> Located(t, IdentOf(t.submitted[i])) == 1)
      && (forall x: Ident :: (forall i :: 0 <= i < |t.submitted| ==> t.submitted[i].id != x.id) ==> Located(t, x) == 0)
  {
    AlwaysConserved(s, ls, n);
    var t := StateAt(s, ls, n);
    forall i | 0 <= i < |t.submitted| ensures Located(t, IdentOf(t.submitted[i])) == 1 {
      SubmittedOnce(t.submitted, i);
    }
    forall x: Ident | forall i :: 0 <= i < |t.submitted| ==> t.submitted[i].id != x.id ensures Located(t, x) == 0 {
      NotAmong(t.submitted, x);
    }
  }
}
