// The reason recorded for a finished job is what happened to it.

module WorkerReasons {
  import opened WorkerProtocol

  /** The step finishes this job, for this reason. */
  predicate Because(s: State, l: Label, d: Done) {
    Enabled(s, l) &&
    match d.reason
    case Completed => l.Succeed? && d.job == s.procs[l.i].held.job
    case NoHandlerFound => l.NoHandler? && d.job == s.procs[l.i].held.job
    case RetriesExhausted =>
      && l.Fail? && d.job == s.procs[l.i].held.job.(attempt := s.procs[l.i].held.job.attempt + 1)
      && d.job.attempt >= s.maxRetries
    case LockBusy =>
      || (l.Acquire? && d.job == s.poller.job && !(l.redisUp && LockFree(s, KeyOf(d.job))))
      || (l.SubmitSync? && d.job == l.job && !(l.redisUp && LockFree(s, KeyOf(d.job))))
    case PushFailed =>
      || (l.SubmitAsync? && !l.pushed && d.job == l.job)
      || (l.Push? && !l.pushed && d.job == s.enqueuer.job)
    case DecodeFailed => l.Pop? && !l.decodes && d.job == s.queue[0]
    case ShutDown =>
      || (l.Abandon? && s.cancelled && d.job == s.poller.held.job)
      || (l.BackoffDrop? && Down(s) && d.job == s.backoffs[l.i].job)
  }

  /** The step adds nothing to the finished jobs, or one, for the reason it gives. */
  ghost predicate Accounts(s: State, l: Label)
    requires Enabled(s, l)
  {
    var finished := Next(s, l).finished;
    finished == s.finished || exists d :: Because(s, l, d) && finished == s.finished + [d]
  }

  lemma Adds(s: State, l: Label, d: Done)
    requires Enabled(s, l) && Because(s, l, d) && Next(s, l).finished == s.finished + [d]
    ensures Accounts(s, l)
  {
  }

  lemma EndAccounts(s: State, l: Label)
    requires Enabled(s, l) && (l.Succeed? || l.NoHandler? || l.Fail?)
    ensures Accounts(s, l)
  {
    hide KeyOf, LockFree, Backoffs.Backoff;
    var job := s.procs[l.i].held.job;
    match l
    case Succeed(_) => Adds(s, l, Done(job, Completed));
    case NoHandler(_) => Adds(s, l, Done(job, NoHandlerFound));
    case Fail(_) =>
      if job.attempt + 1 >= s.maxRetries {
        Adds(s, l, Done(job.(attempt := job.attempt + 1), RetriesExhausted));
      }
  }

  lemma LockAccounts(s: State, l: Label)
    requires Enabled(s, l) && (l.Acquire? || l.SubmitSync?)
    ensures Accounts(s, l)
  {
    hide KeyOf;
    var job := if l.Acquire? then s.poller.job else l.job;
    if !(l.redisUp && LockFree(s, KeyOf(job))) {
      Adds(s, l, Done(job, LockBusy));
    }
  }

  lemma QueueAccounts(s: State, l: Label)
    requires Enabled(s, l) && (l.SubmitAsync? || l.Push? || l.Pop?)
    ensures Accounts(s, l)
  {
    hide KeyOf, LockFree, Backoffs.Backoff;
    match l
    case SubmitAsync(job, pushed) =>
      if !pushed {
        Adds(s, l, Done(job, PushFailed));
      }
    case Push(pushed) =>
      if !pushed {
        Adds(s, l, Done(s.enqueuer.job, PushFailed));
      }
    case Pop(decodes) =>
      if !decodes {
        Adds(s, l, Done(s.queue[0], DecodeFailed));
      }
  }

  lemma DropAccounts(s: State, l: Label)
    requires Enabled(s, l) && (l.Abandon? || l.BackoffDrop?)
    ensures Accounts(s, l)
  {
    hide KeyOf, LockFree, Backoffs.Backoff;
    match l
    case Abandon(_) => Adds(s, l, Done(s.poller.held.job, ShutDown));
    case BackoffDrop(i) => Adds(s, l, Done(s.backoffs[i].job, ShutDown));
  }

  predicate MayFinish(l: Label) {
    || l.Succeed? || l.NoHandler? || l.Fail? || l.Acquire? || l.SubmitSync? || l.SubmitAsync? || l.Push? || l.Pop?
    || l.Abandon? || l.BackoffDrop?
  }

  lemma OtherAccounts(s: State, l: Label)
    requires Enabled(s, l) && !MayFinish(l)
    ensures Next(s, l).finished == s.finished
  {
    hide KeyOf, LockFree, Backoffs.Backoff;
  }

  lemma StepAccounts(s: State, l: Label)
    requires Enabled(s, l)
    ensures Accounts(s, l)
  {
    hide Next, Enabled, Because;
    if l.Succeed? || l.NoHandler? || l.Fail? {
      EndAccounts(s, l);
    } else if l.Acquire? || l.SubmitSync? {
      LockAccounts(s, l);
    } else if l.SubmitAsync? || l.Push? || l.Pop? {
      QueueAccounts(s, l);
    } else if l.Abandon? || l.BackoffDrop? {
      DropAccounts(s, l);
    } else {
      OtherAccounts(s, l);
    }
  }

  /** In every run, each finished job was finished by a step that the recorded reason describes. */
  lemma {:induction false} FinishedBecause(s: State, ls: seq<Label>, n: nat, k: nat) returns (m: nat)
    requires Initial(s) && n <= |ls| && k < |StateAt(s, ls, n).finished|
    ensures m < n && Because(StateAt(s, ls, m), ls[m], StateAt(s, ls, n).finished[k])
  {
    hide Next, Enabled, Because;
    if n == 0 {
      NothingFinished(s);
      assert false;
    } else {
      var before := StateAt(s, ls, n - 1);
      if k < |before.finished| {
        m := FinishedBecause(s, ls, n - 1, k);
        if Enabled(before, ls[n - 1]) {
          StepAccounts(before, ls[n - 1]);
        }
      } else {
        m := n - 1;
        StepAccounts(before, ls[n - 1]);
      }
    }
  }

  lemma NothingFinished(s: State)
    requires Initial(s)
    ensures s.finished == []
  {
  }
}
