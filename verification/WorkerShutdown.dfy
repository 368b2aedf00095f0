// What a stopped or cancelled worker leaves behind. Stop only closes a channel that every loop looks at between two
// jobs: nothing is put back into Redis and no lock is released.

module WorkerShutdown {
  import opened Bags
  import opened WorkerProtocol
  import opened WorkerConservation
  import opened WorkerExclusion
  import opened WorkerTermination

  /** Nothing of the worker's own can move any more, however long one waits. */
  ghost predicate Stuck(s: State) {
    forall elapsed: nat, l :: Moves(l) && !l.Stop? && !l.Cancel? ==> !Enabled(Next(s, Tick(elapsed)), l)
  }

  predicate PollerHalted(s: State) {
    s.poller.PollGone? || (s.poller.Holding? && |s.jobCh| >= CHANNEL_SIZE && !s.cancelled)
  }

  predicate BackoffsHalted(s: State) {
    s.backoffs == [] ||
    (!s.stopped && |s.enqueueCh| >= CHANNEL_SIZE && forall i :: 0 <= i < |s.backoffs| ==> s.backoffs[i].detached)
  }

  /** All loops have ended, but for a poller blocked on a full jobCh, which Stop does not wake, and detached goroutines
      blocked on a full enqueueCh, which a cancel does not wake. */
  predicate Halted(s: State) {
    && PollerHalted(s) && BackoffsHalted(s) && s.enqueuer.EnqGone?
    && forall i :: 0 <= i < |s.procs| ==> s.procs[i].Gone?
  }

  lemma AfterTick(s: State, elapsed: nat)
    ensures Next(s, Tick(elapsed)) == s.(now := s.now + elapsed)
  {
  }

  lemma HaltedCannotMove(s: State, l: Label)
    requires Down(s) && Halted(s) && Moves(l) && !l.Stop? && !l.Cancel?
    ensures !Enabled(s, l)
  {
  }

  lemma HaltedIsStuck(s: State)
    requires Down(s) && Halted(s)
    ensures Stuck(s)
  {
    hide Next, Moves, PollerHalted, BackoffsHalted;
    forall elapsed: nat, l | Moves(l) && !l.Stop? && !l.Cancel? ensures !Enabled(Next(s, Tick(elapsed)), l) {
      AfterTick(s, elapsed);
      TickKeepsHalted(s, elapsed);
      HaltedCannotMove(s.(now := s.now + elapsed), l);
    }
  }

  lemma TickKeepsHalted(s: State, elapsed: nat)
    requires Down(s) && Halted(s)
    ensures Down(s.(now := s.now + elapsed)) && Halted(s.(now := s.now + elapsed))
  {
  }

  /** A backoff that is over can be dropped after a stop, sent on while there is room, and dropped after a cancel unless
      it is detached. */
  lemma BackoffMove(s: State) returns (elapsed: nat, l: Label)
    requires Down(s) && !BackoffsHalted(s)
    ensures Moves(l) && !l.Stop? && !l.Cancel? && Enabled(s.(now := s.now + elapsed), l)
  {
    var i: nat := 0;
    if !s.stopped && |s.enqueueCh| >= CHANNEL_SIZE {
      i :| 0 <= i < |s.backoffs| && !s.backoffs[i].detached;
    }
    elapsed := if s.backoffs[i].due > s.now then s.backoffs[i].due - s.now else 0;
    l := if |s.enqueueCh| < CHANNEL_SIZE then BackoffSend(i) else BackoffDrop(i);
  }

  lemma HaltingMove(s: State) returns (elapsed: nat, l: Label)
    requires Down(s) && !Halted(s)
    ensures Moves(l) && !l.Stop? && !l.Cancel? && Enabled(s.(now := s.now + elapsed), l)
  {
    elapsed := 0;
    if i :| 0 <= i < |s.procs| && !s.procs[i].Gone? {
      l := if s.procs[i].Running? then Succeed(i) else if s.procs[i].Releasing? then Release(i, true) else ProcExit(i);
    } else if !s.enqueuer.EnqGone? {
      l := if s.enqueuer.Pushing? then Push(true) else EnqExit;
    } else if !PollerHalted(s) {
      l := match s.poller
        case PollIdle => PollExit
        case Popped(_) => Acquire(true)
        case _ => if |s.jobCh| < CHANNEL_SIZE then Send else Abandon(true);
    } else {
      elapsed, l := BackoffMove(s);
    }
  }

  /** A worker that is down has come to its end exactly when it is halted. */
  lemma StuckIffHalted(s: State)
    requires Down(s)
    ensures Stuck(s) <==> Halted(s)
  {
    if Halted(s) {
      HaltedIsStuck(s);
    } else {
      var elapsed, l := HaltingMove(s);
      AfterTick(s, elapsed);
    }
  }

  lemma NoneRunning(s: State, x: Ident)
    requires Halted(s)
    ensures Sum(s.procs, ProcIs(x)) == 0 && EnqueuerHas(s.enqueuer, x) == 0
  {
    NoRunningJobs(s.procs, x);
  }

  /** Nobody receives from jobCh or enqueueCh now, nor ever will. */
  predicate Deaf(s: State) {
    && Down(s) && s.enqueuer.EnqGone?
    && forall i :: 0 <= i < |s.procs| ==>
         !s.procs[i].Free? && (s.procs[i].Running? || s.procs[i].Releasing? ==> s.procs[i].detached)
  }

  lemma HaltedIsDeaf(s: State)
    requires Down(s) && Halted(s)
    ensures Deaf(s)
  {
  }

  /** Where jobs are in the end: every submitted job has finished, or is in the Redis list, or is in the memory of the
      process, in jobCh, in enqueueCh, with a blocked poller or with a blocked backoff; and only in one of these. Nobody
      will receive from the two channels. */
  lemma HaltedLeavesJobs(s: State, ls: seq<Label>, n: nat, i: nat)
    requires Initial(s) && n <= |ls| && Down(StateAt(s, ls, n)) && Stuck(StateAt(s, ls, n))
    requires i < |StateAt(s, ls, n).submitted|
    ensures
      var t := StateAt(s, ls, n);
      var x := IdentOf(t.submitted[i]);
      Sum(t.finished, DoneIs(x)) + Sum(t.queue, JobIs(x)) + Sum(t.jobCh, HeldIs(x)) + Sum(t.enqueueCh, JobIs(x))
      + PollerHas(t.poller, x) + Sum(t.backoffs, WaitingIs(x)) == 1
    ensures Deaf(StateAt(s, ls, n))
  {
    hide StateAt, Stuck, Initial, IdentOf;
    var t := StateAt(s, ls, n);
    ExactlyOnePlace(s, ls, n);
    StuckIffHalted(t);
    HaltedIsDeaf(t);
    NoneRunning(t, IdentOf(t.submitted[i]));
    assert Located(t, IdentOf(t.submitted[i])) == 1;
  }

  // ---- Jobs left in memory are lost ----

  lemma ProcsStayDeaf(s: State, l: Label)
    requires Deaf(s) && Enabled(s, l) && (l.SubmitSync? || l.Succeed? || l.NoHandler? || l.Fail? || l.Release?)
    ensures Deaf(Next(s, l)) && Next(s, l).jobCh == s.jobCh && Next(s, l).enqueueCh == s.enqueueCh
  {
    hide KeyOf, LockFree, Backoffs.Backoff;
  }

  lemma ChannelsGrow(s: State, l: Label)
    requires Deaf(s) && Enabled(s, l) && !l.SubmitSync? && !l.Succeed? && !l.NoHandler? && !l.Fail? && !l.Release?
    ensures Deaf(Next(s, l)) && s.jobCh <= Next(s, l).jobCh && s.enqueueCh <= Next(s, l).enqueueCh
  {
    hide KeyOf, LockFree, Backoffs.Backoff;
  }

  lemma StepStaysDeaf(s: State, l: Label)
    requires Deaf(s) && Enabled(s, l)
    ensures Deaf(Next(s, l)) && s.jobCh <= Next(s, l).jobCh && s.enqueueCh <= Next(s, l).enqueueCh
  {
    hide Next, Enabled, Deaf;
    if l.SubmitSync? || l.Succeed? || l.NoHandler? || l.Fail? || l.Release? {
      ProcsStayDeaf(s, l);
    } else {
      ChannelsGrow(s, l);
    }
  }

  /** Whatever is submitted, stopped or cancelled afterwards, the jobs in jobCh and enqueueCh stay where they are: they
      are not handed to a handler, not put back into Redis and not recorded as finished. */
  lemma {:induction false} LostForGood(s: State, ls: seq<Label>, m: nat, n: nat)
    requires m <= n <= |ls| && Deaf(StateAt(s, ls, m))
    ensures Deaf(StateAt(s, ls, n))
    ensures StateAt(s, ls, m).jobCh <= StateAt(s, ls, n).jobCh
    ensures StateAt(s, ls, m).enqueueCh <= StateAt(s, ls, n).enqueueCh
    decreases n
  {
    hide Next, Enabled, Deaf;
    if m < n {
      LostForGood(s, ls, m, n - 1);
      if Enabled(StateAt(s, ls, n - 1), ls[n - 1]) {
        StepStaysDeaf(StateAt(s, ls, n - 1), ls[n - 1]);
      }
    }
  }

  // ---- And their locks outlive them ----

  /** The lock of a job that nobody will take out of jobCh. */
  ghost predicate Stranded(s: State, h: Held) {
    && Deaf(s) && h in s.jobCh && Holders(s, KeyOf(h.job)) == 1
    && KeyOf(h.job) in s.locks && s.locks[KeyOf(h.job)] == h.since + JOB_TTL
  }

  lemma ReleasedBesides(s: State, l: Label, h: Held)
    requires Enabled(s, l) && LetsGo(l) && h in s.jobCh && KeyOf(Released(s, l).job) == KeyOf(h.job)
    ensures Holders(s, KeyOf(h.job)) >= 2
  {
    hide LockKey;
    var key := KeyOf(h.job);
    var i :| 0 <= i < |s.jobCh| && s.jobCh[i] == h;
    SumMember(s.jobCh, i, HeldKey(key));
    if l.Release? {
      SumMember(s.procs, l.i, ProcKey(key));
    }
  }

  lemma StepStranded(s: State, l: Label, h: Held)
    requires Stranded(s, h) && Enabled(s, l) && Next(s, l).now < h.since + JOB_TTL
    ensures Stranded(Next(s, l), h)
  {
    hide Next, Enabled, Deaf, KeyOf, Holders, Acquires, Acquired, LetsGo, Released;
    StepTime(s, l);
    StepStaysDeaf(s, l);
    StepLocks(s, l);
    StepHolderCount(s, l, KeyOf(h.job));
    if Acquires(s, l) {
      AcquiresFree(s, l);
    }
    if LetsGo(l) && KeyOf(Released(s, l).job) == KeyOf(h.job) {
      ReleasedBesides(s, l, h);
    }
    assert s.jobCh <= Next(s, l).jobCh;
  }

  lemma {:induction false} StaysStranded(s: State, ls: seq<Label>, m: nat, n: nat, h: Held)
    requires m <= n <= |ls| && Stranded(StateAt(s, ls, m), h) && StateAt(s, ls, n).now < h.since + JOB_TTL
    ensures Stranded(StateAt(s, ls, n), h)
    decreases n
  {
    hide Next, Enabled, Stranded;
    if m < n {
      if Enabled(StateAt(s, ls, n - 1), ls[n - 1]) {
        StepTime(StateAt(s, ls, n - 1), ls[n - 1]);
        StaysStranded(s, ls, m, n - 1, h);
        StepStranded(StateAt(s, ls, n - 1), ls[n - 1], h);
      } else {
        StaysStranded(s, ls, m, n - 1, h);
      }
    }
  }

  /** The lock of a job left in jobCh stays taken, with its expiry, until its ttl is over, whatever happens in between:
      for that long every job with its key is turned away. */
  lemma StrandedLock(s: State, ls: seq<Label>, m: nat, n: nat, h: Held)
    requires m <= n <= |ls| && Exclusive(StateAt(s, ls, m)) && Deaf(StateAt(s, ls, m)) && h in StateAt(s, ls, m).jobCh
    requires StateAt(s, ls, n).now < h.since + JOB_TTL
    ensures
      var t := StateAt(s, ls, n);
      && h in t.jobCh && KeyOf(h.job) in t.locks && t.locks[KeyOf(h.job)] == h.since + JOB_TTL
      && !LockFree(t, KeyOf(h.job))
  {
    hide StateAt, Deaf, KeyOf, Holders;
    var a := StateAt(s, ls, m);
    assert Holds(a, h);
    HolderCounts(a, h);
    assert Holders(a, KeyOf(h.job)) <= 1;
    StaysStranded(s, ls, m, n, h);
  }
}
