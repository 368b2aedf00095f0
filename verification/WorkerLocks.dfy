// When a lock is taken, over any number of worker processes on one Redis, and what that means for a job that waits: in
// the list, in a backoff, on its way back to the list, or popped and about to acquire its lock.

module WorkerLocks {
  import opened Bags
  import opened WorkerProtocol
  import opened WorkerConservation
  import opened WorkerExclusion
  import opened WorkerCluster

  // ---- Why a lock is taken ----

  predicate KeyFree(c: Cluster, key: string) {
    key !in c.locks || c.locks[key] <= c.now
  }

  /** The step lets a lock of this key go, which expires at `until`, but fails to delete it. */
  ghost predicate FailsToDelete(c: Cluster, x: Step, key: string, until: int) {
    && CanStep(c, x) && LetsGo(x.act) && !x.act.deleted
    && KeyOf(Released(Local(c, x.node), x.act).job) == key
    && until == Released(Local(c, x.node), x.act).since + JOB_TTL
  }

  /** A holder in some process let the key go within the ttl, and the deletion failed. */
  ghost predicate LeftBehind(c: Cluster, xs: seq<Step>, n: nat, key: string)
    requires n <= |xs|
  {
    exists m, until ::
      0 <= m < n && FailsToDelete(ClusterAt(c, xs, m), xs[m], key, until) && ClusterAt(c, xs, n).now < until
  }

  /** Redis had the lock before the processes started, and it has not expired. */
  predicate Inherited(c: Cluster, now: int, key: string) {
    key in c.locks && now < c.locks[key]
  }

  /** A lock that nobody holds and that nobody is going to delete. */
  ghost predicate Ownerless(c: Cluster, key: string, until: int) {
    key in c.locks && c.locks[key] == until && AllHolders(c, key) == 0
  }

  lemma AfterLocks(c: Cluster, x: Step)
    requires CanStep(c, x)
    ensures
      var s := Local(c, x.node);
      && (Acquires(s, x.act) ==>
            After(c, x).locks == c.locks[KeyOf(Acquired(s, x.act).job) := c.now + JOB_TTL]
            && KeyFree(c, KeyOf(Acquired(s, x.act).job)) && !LetsGo(x.act))
      && (LetsGo(x.act) ==>
            After(c, x).locks == if x.act.deleted then c.locks - {KeyOf(Released(s, x.act).job)} else c.locks)
      && (!Acquires(s, x.act) && !LetsGo(x.act) ==> After(c, x).locks == c.locks)
    ensures c.now <= After(c, x).now
  {
    hide Next, Enabled, Acquires, LetsGo, Acquired, Released, KeyOf;
    var s := Local(c, x.node);
    StepLocks(s, x.act);
    StepTime(s, x.act);
    if Acquires(s, x.act) {
      AcquiresFree(s, x.act);
    }
  }

  lemma AfterOwnerless(c: Cluster, x: Step, key: string, until: int)
    requires CanStep(c, x) && Ownerless(c, key, until) && After(c, x).now < until
    ensures Ownerless(After(c, x), key, until)
  {
    hide After, CanStep, Acquires, KeyOf, AllHolders, Acquired, Released;
    AfterLocks(c, x);
    AfterCounts(c, x, key);
  }

  lemma {:induction false} StaysOwnerless(c: Cluster, xs: seq<Step>, m: nat, n: nat, key: string, until: int)
    requires m <= n <= |xs| && Ownerless(ClusterAt(c, xs, m), key, until) && ClusterAt(c, xs, n).now < until
    ensures Ownerless(ClusterAt(c, xs, n), key, until)
    decreases n
  {
    hide After, CanStep, Ownerless;
    if m < n {
      if CanStep(ClusterAt(c, xs, n - 1), xs[n - 1]) {
        AfterLocks(ClusterAt(c, xs, n - 1), xs[n - 1]);
        StaysOwnerless(c, xs, m, n - 1, key, until);
        AfterOwnerless(ClusterAt(c, xs, n - 1), xs[n - 1], key, until);
      } else {
        StaysOwnerless(c, xs, m, n - 1, key, until);
      }
    }
  }

  ghost predicate TimelyUntil(c: Cluster, xs: seq<Step>, n: nat)
    requires n <= |xs|
  {
    forall i :: 0 <= i <= n ==> ClusterTimely(ClusterAt(c, xs, i))
  }

  lemma FailedDeletionLeaves(c: Cluster, x: Step, key: string, until: int)
    requires ClusterExclusive(c) && ClusterTimely(c) && FailsToDelete(c, x, key, until)
    ensures Ownerless(After(c, x), key, until)
  {
    hide After, Acquires, KeyOf, AllHolders, Acquired, Released, Local;
    var h := Released(Local(c, x.node), x.act);
    ReleasedHolds(Local(c, x.node), x.act);
    LocalHolds(c, x.node, h);
    AfterLocks(c, x);
    AfterCounts(c, x, key);
    AfterAtMostOne(c, x, key);
    HeldIsCounted(c, x.node, h);
    assert AllHolders(c, key) <= 1;
  }

  lemma LocalHolds(c: Cluster, k: nat, h: Held)
    requires k < |c.nodes| && Holds(Local(c, k), h)
    ensures HeldIn(c, k, h)
  {
    SharedDoesNotCount(c, k, "");
  }

  lemma FailureIsStep(c: Cluster, xs: seq<Step>, m: nat, key: string, until: int)
    requires m < |xs| && FailsToDelete(ClusterAt(c, xs, m), xs[m], key, until)
    ensures CanStep(ClusterAt(c, xs, m), xs[m]) && ClusterAt(c, xs, m + 1) == After(ClusterAt(c, xs, m), xs[m])
  {
    hide Next, Enabled, LetsGo, Released, KeyOf, IsNew;
  }

  lemma LeftLock(c: Cluster, xs: seq<Step>, m: nat, n: nat, key: string, until: int)
    requires Fresh(c) && m < n <= |xs| && TimelyUntil(c, xs, m)
    requires FailsToDelete(ClusterAt(c, xs, m), xs[m], key, until) && ClusterAt(c, xs, n).now < until
    ensures Ownerless(ClusterAt(c, xs, n), key, until)
  {
    hide ClusterAt, FailsToDelete, Ownerless, Fresh, ClusterTimely, ClusterExclusive;
    ClusterMutualExclusion(c, xs, m);
    FailureIsStep(c, xs, m, key, until);
    FailedDeletionLeaves(ClusterAt(c, xs, m), xs[m], key, until);
    StaysOwnerless(c, xs, m + 1, n, key, until);
  }

  lemma InheritedLock(c: Cluster, xs: seq<Step>, n: nat, key: string)
    requires Fresh(c) && n <= |xs| && Inherited(c, ClusterAt(c, xs, n).now, key)
    ensures Ownerless(ClusterAt(c, xs, n), key, c.locks[key])
  {
    hide Initial, Holders;
    NothingHeld(c.nodes, key);
    StaysOwnerless(c, xs, 0, n, key, c.locks[key]);
  }

  lemma HeldIsLocked(c: Cluster, key: string)
    requires ClusterExclusive(c) && ClusterTimely(c) && AllHolders(c, key) >= 1
    ensures !KeyFree(c, key)
  {
    hide AllHolders, HeldIn, KeyOf;
    var k, h := CountedIsHeld(c, key);
  }

  /** The lock was taken before, with the expiry it has now. */
  predicate SameLock(c: Cluster, d: Cluster, key: string) {
    !KeyFree(c, key) && key in d.locks && d.locks[key] == c.locks[key]
  }

  /** What a step does to a lock that is taken after it. */
  lemma AfterLocked(c: Cluster, x: Step, key: string)
    requires CanStep(c, x) && !KeyFree(After(c, x), key)
    ensures
      || AllHolders(After(c, x), key) >= 1
      || (exists until :: FailsToDelete(c, x, key, until))
      || (AllHolders(After(c, x), key) == AllHolders(c, key) && SameLock(c, After(c, x), key))
  {
    hide Next, Enabled, Acquires, KeyOf, AllHolders, Acquired, Released;
    AfterLocks(c, x);
    AfterCounts(c, x, key);
    if LetsGo(x.act) && !x.act.deleted && KeyOf(Released(Local(c, x.node), x.act).job) == key {
      assert FailsToDelete(c, x, key, Released(Local(c, x.node), x.act).since + JOB_TTL);
    }
  }

  /** A reason for a taken lock other than a holder is still one a step later, while the lock is taken. */
  lemma Recall(c: Cluster, xs: seq<Step>, n: nat, key: string)
    requires Fresh(c) && n < |xs| && TimelyUntil(c, xs, n)
    requires SameLock(ClusterAt(c, xs, n), ClusterAt(c, xs, n + 1), key) && !KeyFree(ClusterAt(c, xs, n + 1), key)
    ensures LeftBehind(c, xs, n, key) ==> LeftBehind(c, xs, n + 1, key)
    ensures Inherited(c, ClusterAt(c, xs, n).now, key) ==> Inherited(c, ClusterAt(c, xs, n + 1).now, key)
  {
    hide ClusterAt, FailsToDelete, KeyOf, AllHolders, Fresh, ClusterTimely;
    if LeftBehind(c, xs, n, key) {
      var m, until :|
        0 <= m < n && FailsToDelete(ClusterAt(c, xs, m), xs[m], key, until) && ClusterAt(c, xs, n).now < until;
      LeftLock(c, xs, m, n, key, until);
    }
    if Inherited(c, ClusterAt(c, xs, n).now, key) {
      InheritedLock(c, xs, n, key);
    }
  }

  lemma LeavesBehind(c: Cluster, xs: seq<Step>, n: nat, key: string, until: int)
    requires Fresh(c) && n < |xs| && TimelyUntil(c, xs, n) && FailsToDelete(ClusterAt(c, xs, n), xs[n], key, until)
    requires !KeyFree(ClusterAt(c, xs, n + 1), key)
    ensures LeftBehind(c, xs, n + 1, key)
  {
    hide ClusterAt, FailsToDelete, AllHolders, Fresh, ClusterTimely, ClusterExclusive;
    ClusterMutualExclusion(c, xs, n);
    FailureIsStep(c, xs, n, key, until);
    FailedDeletionLeaves(ClusterAt(c, xs, n), xs[n], key, until);
  }

  lemma {:induction false} LockedMeans(c: Cluster, xs: seq<Step>, n: nat, key: string)
    requires Fresh(c) && n <= |xs| && TimelyUntil(c, xs, n) && !KeyFree(ClusterAt(c, xs, n), key)
    ensures
      || AllHolders(ClusterAt(c, xs, n), key) >= 1
      || LeftBehind(c, xs, n, key)
      || Inherited(c, ClusterAt(c, xs, n).now, key)
  {
    hide After, CanStep, KeyOf, AllHolders, Fresh, ClusterTimely, LeftBehind, KeyFree, FailsToDelete;
    if n > 0 {
      var earlier, x := ClusterAt(c, xs, n - 1), xs[n - 1];
      if !CanStep(earlier, x) {
        UnchangedLock(earlier, key);
        LockedMeans(c, xs, n - 1, key);
        Recall(c, xs, n - 1, key);
      } else {
        AfterLocked(earlier, x, key);
        if until :| FailsToDelete(earlier, x, key, until) {
          LeavesBehind(c, xs, n - 1, key, until);
        } else if AllHolders(After(earlier, x), key) == 0 {
          LockedMeans(c, xs, n - 1, key);
          Recall(c, xs, n - 1, key);
        }
      }
    } else {
      UnchangedLock(c, key);
    }
  }

  lemma UnchangedLock(c: Cluster, key: string)
    ensures !KeyFree(c, key) ==> SameLock(c, c, key) && Inherited(c, c.now, key)
  {
  }

  lemma AtMostOneHolder(c: Cluster, xs: seq<Step>, n: nat, key: string)
    requires Fresh(c) && n <= |xs| && TimelyUntil(c, xs, n)
    ensures AllHolders(ClusterAt(c, xs, n), key) <= 1
  {
    ClusterMutualExclusion(c, xs, n);
  }

  /** While holders are in time, a lock is taken if and only if a job of some process holds it, a holder failed to
      delete it and its ttl is not over, or Redis had it before the processes started and it has not expired. */
  lemma LockedIff(c: Cluster, xs: seq<Step>, n: nat, key: string)
    requires Fresh(c) && n <= |xs| && TimelyUntil(c, xs, n)
    ensures !KeyFree(ClusterAt(c, xs, n), key) <==>
      || AllHolders(ClusterAt(c, xs, n), key) == 1
      || LeftBehind(c, xs, n, key)
      || Inherited(c, ClusterAt(c, xs, n).now, key)
  {
    hide ClusterAt, FailsToDelete, KeyOf, AllHolders, Fresh, ClusterTimely;
    var d := ClusterAt(c, xs, n);
    ClusterMutualExclusion(c, xs, n);
    AtMostOneHolder(c, xs, n, key);
    if !KeyFree(d, key) {
      LockedMeans(c, xs, n, key);
    }
    if AllHolders(d, key) == 1 {
      HeldIsLocked(d, key);
    }
    if LeftBehind(c, xs, n, key) {
      var m, until :| 0 <= m < n && FailsToDelete(ClusterAt(c, xs, m), xs[m], key, until) && d.now < until;
      LeftLock(c, xs, m, n, key, until);
    }
    if Inherited(c, d.now, key) {
      InheritedLock(c, xs, n, key);
    }
  }

  // ---- Jobs that wait ----

  predicate Waits(s: State, job: Job) {
    || job in s.queue
    || s.poller == Popped(job)
    || (exists i :: 0 <= i < |s.backoffs| && s.backoffs[i].job == job)
    || job in s.enqueueCh
    || s.enqueuer == Pushing(job)
  }

  /** The job waits in the list or in some process. */
  predicate WaitsIn(c: Cluster, job: Job) {
    job in c.queue || exists k :: 0 <= k < |c.nodes| && Waits(Private(c.nodes[k]), job)
  }

  /** Held for processing, not just until the lock is deleted. */
  predicate Works(s: State, h: Held) {
    || s.poller == Holding(h)
    || h in s.jobCh
    || exists i :: 0 <= i < |s.procs| && s.procs[i].Running? && s.procs[i].held == h
  }

  predicate Releases(s: State, h: Held) {
    exists i :: 0 <= i < |s.procs| && s.procs[i].Releasing? && s.procs[i].held == h
  }

  lemma HoldsIsWorksOrReleases(s: State, h: Held)
    ensures Holds(s, h) <==> Works(s, h) || Releases(s, h)
  {
  }

  ghost function WaitingAt(s: State, x: Ident): nat {
    Sum(s.queue, JobIs(x)) + (if s.poller.Popped? then PollerHas(s.poller, x) else 0) + Sum(s.backoffs, WaitingIs(x))
    + Sum(s.enqueueCh, JobIs(x)) + EnqueuerHas(s.enqueuer, x)
  }

  ghost function WorkingAt(s: State, x: Ident): nat {
    (if s.poller.Holding? then PollerHas(s.poller, x) else 0) + Sum(s.jobCh, HeldIs(x)) + Sum(s.procs, ProcIs(x))
  }

  lemma WaitsCounts(s: State, job: Job)
    requires Waits(s, job)
    ensures WaitingAt(s, IdentOf(job)) >= 1
  {
    var x := IdentOf(job);
    if job in s.queue {
      var i :| 0 <= i < |s.queue| && s.queue[i] == job;
      SumMember(s.queue, i, JobIs(x));
    } else if job in s.enqueueCh {
      var i :| 0 <= i < |s.enqueueCh| && s.enqueueCh[i] == job;
      SumMember(s.enqueueCh, i, JobIs(x));
    } else if i :| 0 <= i < |s.backoffs| && s.backoffs[i].job == job {
      SumMember(s.backoffs, i, WaitingIs(x));
    }
  }

  lemma WorksCounts(s: State, h: Held)
    requires Works(s, h)
    ensures WorkingAt(s, IdentOf(h.job)) >= 1
  {
    var x := IdentOf(h.job);
    if h in s.jobCh {
      var i :| 0 <= i < |s.jobCh| && s.jobCh[i] == h;
      SumMember(s.jobCh, i, HeldIs(x));
    } else if i :| 0 <= i < |s.procs| && s.procs[i].Running? && s.procs[i].held == h {
      SumMember(s.procs, i, ProcIs(x));
    }
  }

  lemma WaitsLocated(c: Cluster, job: Job)
    requires WaitsIn(c, job)
    ensures ClusterLocated(c, IdentOf(job)) >= 1
  {
    hide Located;
    var x := IdentOf(job);
    if job in c.queue {
      var i :| 0 <= i < |c.queue| && c.queue[i] == job;
      SumMember(c.queue, i, JobIs(x));
    } else {
      var k :| 0 <= k < |c.nodes| && Waits(Private(c.nodes[k]), job);
      WaitsCounts(Private(c.nodes[k]), job);
      PartsLocated(Private(c.nodes[k]), x);
      SumMember(c.nodes, k, NodeLocated(x));
    }
  }

  lemma PartsLocated(s: State, x: Ident)
    ensures Located(s, x) >= WaitingAt(s, x) + WorkingAt(s, x)
  {
  }

  lemma WorksLocated(c: Cluster, k: nat, h: Held)
    requires k < |c.nodes| && Works(c.nodes[k], h)
    ensures NodeLocated(IdentOf(h.job))(c.nodes[k]) >= 1
  {
    hide Located;
    assert Works(Private(c.nodes[k]), h);
    WorksCounts(Private(c.nodes[k]), h);
    PartsLocated(Private(c.nodes[k]), IdentOf(h.job));
  }

  lemma TwoNodes(nodes: seq<State>, j: nat, k: nat, f: State -> nat)
    requires j < |nodes| && k < |nodes| && j != k
    ensures Sum(nodes, f) >= f(nodes[j]) + f(nodes[k])
  {
    hide Sum;
    SumRemove(nodes, j, f);
    var rest := nodes[..j] + nodes[j + 1..];
    var i := if k < j then k else k - 1;
    assert rest[i] == nodes[k];
    SumMember(rest, i, f);
  }

  /** A job that waits and one being worked on under the same identity would be in two places. */
  lemma WaitingAndWorkingLocated(c: Cluster, job: Job, k: nat, h: Held)
    requires WaitsIn(c, job) && k < |c.nodes| && Works(c.nodes[k], h) && IdentOf(h.job) == IdentOf(job)
    ensures ClusterLocated(c, IdentOf(job)) >= 2
  {
    hide Located, Works;
    var x := IdentOf(job);
    WorksLocated(c, k, h);
    if job in c.queue {
      var i :| 0 <= i < |c.queue| && c.queue[i] == job;
      SumMember(c.queue, i, JobIs(x));
      SumMember(c.nodes, k, NodeLocated(x));
    } else {
      var j :| 0 <= j < |c.nodes| && Waits(Private(c.nodes[j]), job);
      WaitsCounts(Private(c.nodes[j]), job);
      PartsLocated(Private(c.nodes[j]), x);
      if j != k {
        TwoNodes(c.nodes, j, k, NodeLocated(x));
      } else {
        PrivateWorks(c.nodes[k], h);
        WorksCounts(Private(c.nodes[k]), h);
        SumMember(c.nodes, k, NodeLocated(x));
      }
    }
  }

  lemma PrivateWorks(s: State, h: Held)
    requires Works(s, h)
    ensures Works(Private(s), h)
  {
  }

  lemma WaitingIsNotWorking(c: Cluster, job: Job, k: nat, h: Held)
    requires ClusterConserved(c) && WaitsIn(c, job) && k < |c.nodes| && Works(c.nodes[k], h)
    ensures h.job.id != job.id
  {
    hide WaitsIn, Works;
    WaitsLocated(c, job);
    WorksLocated(c, k, h);
    SumMember(c.nodes, k, NodeLocated(IdentOf(h.job)));
    assert AllSubmitted(c, IdentOf(job)) == ClusterLocated(c, IdentOf(job));
    assert AllSubmitted(c, IdentOf(h.job)) == ClusterLocated(c, IdentOf(h.job));
    if h.job.id == job.id {
      assert IdentOf(h.job) == IdentOf(job);
      WaitingAndWorkingLocated(c, job, k, h);
    }
  }

  ghost predicate ReleasingSubmitted(c: Cluster) {
    forall k, i :: 0 <= k < |c.nodes| && 0 <= i < |c.nodes[k].procs| && c.nodes[k].procs[i].Releasing? ==>
      AllSubmitted(c, IdentOf(c.nodes[k].procs[i].held.job)) >= 1
  }

  /** A releasing goroutine was releasing or running the same job one step before. */
  lemma ReleasingComesFrom(s: State, l: Label, i: nat)
    requires Enabled(s, l) && i < |Next(s, l).procs| && Next(s, l).procs[i].Releasing?
    ensures i < |s.procs| && Keeps(s.procs[i]) && s.procs[i].held == Next(s, l).procs[i].held
  {
    hide KeyOf, LockFree, Backoffs.Backoff;
    if l.Succeed? || l.NoHandler? || l.Fail? {
      EndProcs(s, l);
    } else if l.Send? || l.BackoffSend? || l.BackoffDrop? || Stands(l) {
      ChannelProcs(s, l);
    } else if !l.SubmitSync? && !l.ProcExit? && !l.Release? && !l.Receive? {
      QueueProcs(s, l);
    }
  }

  lemma AfterReleasingSubmitted(c: Cluster, x: Step)
    requires ClusterConserved(c) && ReleasingSubmitted(c) && CanStep(c, x)
    ensures ReleasingSubmitted(After(c, x))
  {
    hide Next, Enabled, IdentOf, ClusterConserved, AllSubmitted, IsNew;
    var d := After(c, x);
    forall k, i | 0 <= k < |d.nodes| && 0 <= i < |d.nodes[k].procs| && d.nodes[k].procs[i].Releasing?
      ensures AllSubmitted(d, IdentOf(d.nodes[k].procs[i].held.job)) >= 1
    {
      var y := IdentOf(d.nodes[k].procs[i].held.job);
      AfterSubmitted(c, x, y);
      if k == x.node {
        ReleasingComesFrom(Local(c, k), x.act, i);
        if c.nodes[k].procs[i].Running? {
          RunningIsSubmitted(c, k, i);
        }
      }
    }
  }

  lemma RunningIsSubmitted(c: Cluster, k: nat, i: nat)
    requires ClusterConserved(c) && k < |c.nodes| && i < |c.nodes[k].procs| && c.nodes[k].procs[i].Running?
    ensures AllSubmitted(c, IdentOf(c.nodes[k].procs[i].held.job)) >= 1
  {
    hide Located;
    var h := c.nodes[k].procs[i].held;
    assert Works(c.nodes[k], h);
    WorksLocated(c, k, h);
    SumMember(c.nodes, k, NodeLocated(IdentOf(h.job)));
    assert AllSubmitted(c, IdentOf(h.job)) == ClusterLocated(c, IdentOf(h.job));
  }

  lemma {:induction false} AlwaysReleasingSubmitted(c: Cluster, xs: seq<Step>, n: nat)
    requires Fresh(c) && n <= |xs|
    ensures ReleasingSubmitted(ClusterAt(c, xs, n))
  {
    hide CanStep, After, ClusterConserved, AllSubmitted;
    if n > 0 {
      AlwaysReleasingSubmitted(c, xs, n - 1);
      ClusterExactlyOnePlace(c, xs, n - 1);
      if CanStep(ClusterAt(c, xs, n - 1), xs[n - 1]) {
        AfterReleasingSubmitted(ClusterAt(c, xs, n - 1), xs[n - 1]);
      }
    }
  }

  /** In every reachable state, nobody in any process is past acquiring a waiting job but a goroutine about to delete
      its lock. */
  lemma WaitingHoldsOnlyToRelease(c: Cluster, xs: seq<Step>, n: nat, job: Job, k: nat, h: Held)
    requires Fresh(c) && n <= |xs| && WaitsIn(ClusterAt(c, xs, n), job)
    requires HeldIn(ClusterAt(c, xs, n), k, h) && h.job.id == job.id
    ensures
      var d := ClusterAt(c, xs, n);
      Releases(d.nodes[k], h) && !Works(d.nodes[k], h) && KeyOf(h.job) == KeyOf(job)
  {
    hide ClusterAt, Fresh, Works, WaitsIn;
    var d := ClusterAt(c, xs, n);
    ClusterExactlyOnePlace(c, xs, n);
    AlwaysReleasingSubmitted(c, xs, n);
    HoldsIsWorksOrReleases(d.nodes[k], h);
    if Works(d.nodes[k], h) {
      WaitingIsNotWorking(d, job, k, h);
    }
    WaitsLocated(d, job);
    assert AllSubmitted(d, IdentOf(job)) == ClusterLocated(d, IdentOf(job));
    assert IdentOf(h.job) == IdentOf(job);
  }

  predicate ReleasesJob(p: Proc, job: Job) {
    p.Releasing? && p.held.job.id == job.id
  }

  /** A goroutine that ran the job before, in whatever process, is yet to delete its lock. */
  predicate StillReleasing(c: Cluster, job: Job) {
    exists k, i :: 0 <= k < |c.nodes| && 0 <= i < |c.nodes[k].procs| && ReleasesJob(c.nodes[k].procs[i], job)
  }

  ghost predicate HeldByAnother(c: Cluster, job: Job) {
    exists k, h :: HeldIn(c, k, h) && h.job.id != job.id && KeyOf(h.job) == KeyOf(job)
  }

  lemma ReleasesIsHeld(c: Cluster, k: nat, i: nat)
    requires k < |c.nodes| && i < |c.nodes[k].procs| && c.nodes[k].procs[i].Releasing?
    ensures HeldIn(c, k, c.nodes[k].procs[i].held)
  {
  }

  lemma HolderIsReleasingOrOther(c: Cluster, xs: seq<Step>, n: nat, job: Job)
    requires Fresh(c) && n <= |xs| && WaitsIn(ClusterAt(c, xs, n), job)
    ensures
      var d := ClusterAt(c, xs, n);
      AllHolders(d, KeyOf(job)) >= 1 <==> StillReleasing(d, job) || HeldByAnother(d, job)
  {
    hide ClusterAt, Fresh, WaitsIn, KeyOf, Works, AllHolders, HeldIn;
    var d := ClusterAt(c, xs, n);
    if AllHolders(d, KeyOf(job)) >= 1 {
      var k, h := CountedIsHeld(d, KeyOf(job));
      if h.job.id == job.id {
        HeldInRange(d, k, h);
        WaitingHoldsOnlyToRelease(c, xs, n, job, k, h);
        var i :| 0 <= i < |d.nodes[k].procs| && d.nodes[k].procs[i].Releasing? && d.nodes[k].procs[i].held == h;
        assert ReleasesJob(d.nodes[k].procs[i], job);
      }
    }
    if k, i :| 0 <= k < |d.nodes| && 0 <= i < |d.nodes[k].procs| && ReleasesJob(d.nodes[k].procs[i], job) {
      ReleasesIsHeld(d, k, i);
      WaitingHoldsOnlyToRelease(c, xs, n, job, k, d.nodes[k].procs[i].held);
      HeldIsCounted(d, k, d.nodes[k].procs[i].held);
    }
    if k, h :| HeldIn(d, k, h) && h.job.id != job.id && KeyOf(h.job) == KeyOf(job) {
      HeldIsCounted(d, k, h);
    }
  }

  lemma HeldInRange(c: Cluster, k: int, h: Held)
    requires HeldIn(c, k, h)
    ensures 0 <= k < |c.nodes|
  {
  }

  /** Nothing stands in the way of a waiting job's lock. */
  ghost predicate Unobstructed(c: Cluster, xs: seq<Step>, n: nat, job: Job)
    requires n <= |xs|
  {
    var d := ClusterAt(c, xs, n);
    && !StillReleasing(d, job) && !HeldByAnother(d, job)
    && !LeftBehind(c, xs, n, KeyOf(job)) && !Inherited(c, d.now, KeyOf(job))
  }

  /** While holders are in time, the lock of a waiting job is free if and only if no goroutine is yet to delete it for
      this job, no other submission holds it, no deletion of it failed within the ttl, and Redis did not have it
      before. */
  lemma WaitingLockFreeIff(c: Cluster, xs: seq<Step>, n: nat, job: Job)
    requires Fresh(c) && n <= |xs| && TimelyUntil(c, xs, n) && WaitsIn(ClusterAt(c, xs, n), job)
    ensures KeyFree(ClusterAt(c, xs, n), KeyOf(job)) <==> Unobstructed(c, xs, n, job)
  {
    hide ClusterAt, Fresh, WaitsIn, KeyOf, AllHolders, KeyFree, LeftBehind, Inherited, TimelyUntil, StillReleasing,
      HeldByAnother;
    AtMostOneHolder(c, xs, n, KeyOf(job));
    LockedIff(c, xs, n, KeyOf(job));
    HolderIsReleasingOrOther(c, xs, n, job);
  }

  /** A popped job, a retry for one, acquires its lock if and only if it is unobstructed; otherwise it is dropped for
      good, however many attempts it has left. */
  lemma PoppedAcquiresIff(c: Cluster, xs: seq<Step>, n: nat, k: nat, job: Job)
    requires Fresh(c) && n <= |xs| && TimelyUntil(c, xs, n)
    requires k < |ClusterAt(c, xs, n).nodes| && ClusterAt(c, xs, n).nodes[k].poller == Popped(job)
    ensures
      var d := ClusterAt(c, xs, n);
      var t := After(d, Step(k, Acquire(true))).nodes[k];
      && (Unobstructed(c, xs, n, job) <==> t.poller == Holding(Held(job, d.now)))
      && (!Unobstructed(c, xs, n, job) <==> t.finished == d.nodes[k].finished + [Done(job, LockBusy)])
  {
    hide ClusterAt, Unobstructed, Fresh, TimelyUntil, KeyOf;
    var d := ClusterAt(c, xs, n);
    assert Waits(Private(d.nodes[k]), job);
    WaitingLockFreeIff(c, xs, n, job);
    assert |d.nodes[k].finished + [Done(job, LockBusy)]| == |d.nodes[k].finished| + 1;
  }

  predicate DeletesWork(l: Label) {
    LetsGo(l) ==> l.deleted
  }

  /** Where deletions succeed and no earlier lock is left in Redis, a lock is taken exactly when one job holds it. */
  lemma LockedIffHeld(c: Cluster, xs: seq<Step>, n: nat, key: string)
    requires Fresh(c) && n <= |xs| && TimelyUntil(c, xs, n)
    requires forall i :: 0 <= i < n ==> DeletesWork(xs[i].act)
    requires !Inherited(c, ClusterAt(c, xs, n).now, key)
    ensures AllHolders(ClusterAt(c, xs, n), key) == if KeyFree(ClusterAt(c, xs, n), key) then 0 else 1
  {
    hide ClusterAt, Fresh, KeyOf, AllHolders, KeyFree, TimelyUntil;
    AtMostOneHolder(c, xs, n, key);
    LockedIff(c, xs, n, key);
  }
}
