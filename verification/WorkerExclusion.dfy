// At most one job per media and conversion name is being processed, as long as no holder outlives its lock.

module WorkerExclusion {
  import opened Text
  import opened Uuids
  import opened Bags
  import opened WorkerProtocol
  import opened WorkerConservation

  /** Different jobs' keys differ, so a lock never blocks a job of other media or another conversion. */
  lemma LockKeyIdentifies(media: Uuid, name: string, media': Uuid, name': string)
    ensures LockKey(media, name) == LockKey(media', name') <==> media == media' && name == name'
  {
    var prefix := "media:conversions:lock:";
    var a, b := Print(media) + [':'] + name, Print(media') + [':'] + name';
    assert LockKey(media, name) == prefix + a && LockKey(media', name') == prefix + b;
    if LockKey(media, name) == LockKey(media', name') {
      assert a == (prefix + a)[|prefix|..] && b == (prefix + b)[|prefix|..];
      PrintIsWellFormed(media);
      PrintIsWellFormed(media');
      FirstSeparator(Print(media), name, Print(media'), name', ':');
      PrintInjective(media, media');
    }
  }

  // ---- Holders of a lock ----

  function HeldKey(key: string): Held -> nat {
    (h: Held) => One(KeyOf(h.job) == key)
  }

  function ProcKey(key: string): Proc -> nat {
    (p: Proc) => One((p.Running? || p.Releasing?) && KeyOf(p.held.job) == key)
  }

  function PollerKey(p: Poller, key: string): nat {
    One(p.Holding? && KeyOf(p.held.job) == key)
  }

  /** How many jobs with this key are past acquiring it: with the poller, in jobCh, running or releasing. */
  ghost function Holders(s: State, key: string): nat {
    PollerKey(s.poller, key) + Sum(s.jobCh, HeldKey(key)) + Sum(s.procs, ProcKey(key))
  }

  ghost predicate Holds(s: State, h: Held) {
    || s.poller == Holding(h)
    || h in s.jobCh
    || exists i :: 0 <= i < |s.procs| && (s.procs[i].Running? || s.procs[i].Releasing?) && s.procs[i].held == h
  }

  lemma HolderCounts(s: State, h: Held)
    requires Holds(s, h)
    ensures Holders(s, KeyOf(h.job)) >= 1
  {
    var key := KeyOf(h.job);
    if h in s.jobCh {
      var i :| 0 <= i < |s.jobCh| && s.jobCh[i] == h;
      SumRemove(s.jobCh, i, HeldKey(key));
    } else if s.poller != Holding(h) {
      var i :| 0 <= i < |s.procs| && (s.procs[i].Running? || s.procs[i].Releasing?) && s.procs[i].held == h;
      SumRemove(s.procs, i, ProcKey(key));
    }
  }

  lemma {:induction false} PositiveSum<T>(s: seq<T>, f: T -> nat) returns (i: nat)
    requires Sum(s, f) > 0
    ensures i < |s| && f(s[i]) > 0
  {
    if f(s[0]) > 0 {
      i := 0;
    } else {
      i := PositiveSum(s[1..], f);
      i := i + 1;
    }
  }

  lemma CountedHolder(s: State, key: string) returns (h: Held)
    requires Holders(s, key) >= 1
    ensures Holds(s, h) && KeyOf(h.job) == key
  {
    if PollerKey(s.poller, key) > 0 {
      h := s.poller.held;
    } else if Sum(s.jobCh, HeldKey(key)) > 0 {
      var i := PositiveSum(s.jobCh, HeldKey(key));
      h := s.jobCh[i];
    } else {
      var i := PositiveSum(s.procs, ProcKey(key));
      h := s.procs[i].held;
    }
  }

  /** The lock of every holder is in the store with the expiry it was taken with, and no key has two holders. */
  ghost predicate Exclusive(s: State) {
    && (forall h :: Holds(s, h) ==> KeyOf(h.job) in s.locks && s.locks[KeyOf(h.job)] == h.since + JOB_TTL)
    && (forall key :: Holders(s, key) <= 1)
  }

  /** No holder has had its lock for as long as the lock lives. */
  ghost predicate Timely(s: State) {
    forall h :: Holds(s, h) ==> s.now < h.since + JOB_TTL
  }

  predicate Acquires(s: State, l: Label)
    requires Enabled(s, l)
  {
    match l
    case SubmitSync(job, redisUp) => redisUp && LockFree(s, KeyOf(job))
    case Acquire(redisUp) => redisUp && LockFree(s, KeyOf(s.poller.job))
    case _ => false
  }

  function Acquired(s: State, l: Label): Held
    requires Enabled(s, l) && Acquires(s, l)
  {
    if l.SubmitSync? then Held(Started(l.job), s.now) else Held(s.poller.job, s.now)
  }

  predicate LetsGo(l: Label) {
    l.Release? || l.Abandon?
  }

  function Released(s: State, l: Label): Held
    requires Enabled(s, l) && LetsGo(l)
  {
    if l.Release? then s.procs[l.i].held else s.poller.held
  }

  lemma AcquireCounts(s: State, l: Label, key: string)
    requires Enabled(s, l) && (l.Acquire? || l.SubmitSync?)
    ensures Holders(Next(s, l), key) ==
      Holders(s, key) + (if Acquires(s, l) then One(KeyOf(Acquired(s, l).job) == key) else 0)
  {
    if l.SubmitSync? {
      SumPush(s.procs, Running(Held(Started(l.job), s.now), true), ProcKey(key));
    }
  }

  lemma AbandonCounts(s: State, deleted: bool, key: string)
    requires Enabled(s, Abandon(deleted))
    ensures Holders(Next(s, Abandon(deleted)), key) + One(KeyOf(s.poller.held.job) == key) == Holders(s, key)
  {
    hide LockKey;
  }

  lemma ReleaseProcCounts(s: State, i: nat, deleted: bool, key: string)
    requires Enabled(s, Release(i, deleted))
    ensures Holders(Next(s, Release(i, deleted)), key) + One(KeyOf(s.procs[i].held.job) == key) == Holders(s, key)
  {
    hide LockKey;
    SumUpdate(s.procs, i, if s.procs[i].detached then Gone else Free, ProcKey(key));
  }

  lemma ReleaseCounts(s: State, l: Label, key: string)
    requires Enabled(s, l) && LetsGo(l)
    ensures Holders(Next(s, l), key) + One(KeyOf(Released(s, l).job) == key) == Holders(s, key)
  {
    hide Next, Holders, LockKey;
    match l
    case Release(i, deleted) => ReleaseProcCounts(s, i, deleted, key);
    case Abandon(deleted) => AbandonCounts(s, deleted, key);
  }

  lemma ReceiveCounts(s: State, i: nat, key: string)
    requires Enabled(s, Receive(i))
    ensures Holders(Next(s, Receive(i)), key) == Holders(s, key)
  {
    SumHead(s.jobCh, HeldKey(key));
    SumUpdate(s.procs, i, Running(Held(Started(s.jobCh[0].job), s.jobCh[0].since), false), ProcKey(key));
  }

  lemma EndedCounts(s: State, i: nat, key: string)
    requires i < |s.procs| && s.procs[i].Running?
    ensures Holders(Ended(s, i), key) == Holders(s, key)
  {
    SumUpdate(s.procs, i, Releasing(s.procs[i].held, s.procs[i].detached), ProcKey(key));
  }

  lemma EndCounts(s: State, l: Label, key: string)
    requires Enabled(s, l) && (l.Succeed? || l.NoHandler? || l.Fail?)
    ensures Holders(Next(s, l), key) == Holders(s, key)
  {
    hide LockKey, Backoffs.Backoff;
    EndedCounts(s, l.i, key);
  }

  lemma MoveCounts(s: State, l: Label, key: string)
    requires Enabled(s, l) && !l.Acquire? && !l.SubmitSync? && !LetsGo(l)
    ensures Holders(Next(s, l), key) == Holders(s, key)
  {
    hide LockKey, Backoffs.Backoff;
    if l.Receive? {
      ReceiveCounts(s, l.i, key);
    } else if l.ProcExit? {
      SumUpdate(s.procs, l.i, Gone, ProcKey(key));
    } else if l.Succeed? || l.NoHandler? || l.Fail? {
      EndCounts(s, l, key);
    } else if l.Send? {
      SumPush(s.jobCh, s.poller.held, HeldKey(key));
    }
  }

  /** Some holder has the same lock, taken at the same instant. */
  ghost predicate LockHeld(s: State, h: Held) {
    exists g :: Holds(s, g) && KeyOf(g.job) == KeyOf(h.job) && g.since == h.since
  }

  lemma PollerComesFrom(s: State, l: Label, h: Held)
    requires Enabled(s, l) && Next(s, l).poller == Holding(h)
    ensures (Acquires(s, l) && h == Acquired(s, l)) || Holds(s, h)
  {
    hide Holders, KeyOf, Backoffs.Backoff;
  }

  lemma ChannelComesFrom(s: State, l: Label, h: Held)
    requires Enabled(s, l) && h in Next(s, l).jobCh
    ensures Holds(s, h)
  {
    hide Holders, KeyOf, Backoffs.Backoff;
  }

  predicate Keeps(p: Proc) {
    p.Running? || p.Releasing?
  }

  lemma EndProcs(s: State, l: Label)
    requires Enabled(s, l) && (l.Succeed? || l.NoHandler? || l.Fail?)
    ensures Next(s, l).procs == Ended(s, l.i).procs
  {
    hide LockKey, Backoffs.Backoff;
  }

  lemma QueueProcs(s: State, l: Label)
    requires Enabled(s, l) && (l.SubmitAsync? || l.Pop? || l.Acquire? || l.Abandon? || l.TakeEnqueue? || l.Push?)
    ensures Next(s, l).procs == s.procs
  {
    hide KeyOf, LockFree, Backoffs.Backoff;
  }

  lemma ChannelProcs(s: State, l: Label)
    requires Enabled(s, l) && (l.Send? || l.BackoffSend? || l.BackoffDrop? || Stands(l))
    ensures Next(s, l).procs == s.procs
  {
    hide KeyOf, LockFree, Lock, Unlock, Backoffs.Backoff;
  }

  lemma ProcsComeFrom(s: State, l: Label, i: nat)
    requires Enabled(s, l) && !l.Receive? && i < |Next(s, l).procs| && Keeps(Next(s, l).procs[i])
    ensures
      || (Acquires(s, l) && Next(s, l).procs[i].held == Acquired(s, l))
      || (i < |s.procs| && Keeps(s.procs[i]) && s.procs[i].held == Next(s, l).procs[i].held)
  {
    hide KeyOf, LockFree, Backoffs.Backoff;
    if l.Succeed? || l.NoHandler? || l.Fail? {
      EndProcs(s, l);
    } else if l.Send? || l.BackoffSend? || l.BackoffDrop? || Stands(l) {
      ChannelProcs(s, l);
    } else if !l.SubmitSync? && !l.ProcExit? && !l.Release? {
      QueueProcs(s, l);
    }
  }

  lemma ReceiverComesFrom(s: State, i: nat, k: nat)
    requires Enabled(s, Receive(k)) && i < |Next(s, Receive(k)).procs| && Keeps(Next(s, Receive(k)).procs[i])
    ensures LockHeld(s, Next(s, Receive(k)).procs[i].held)
  {
    if i == k {
      assert Holds(s, s.jobCh[0]);
    } else {
      assert Holds(s, s.procs[i].held);
    }
  }

  /** A holder after a step held the same lock before it, up to the run count, unless the step took the lock. */
  lemma HoldersComeFrom(s: State, l: Label, h: Held)
    requires Enabled(s, l) && Holds(Next(s, l), h)
    ensures (Acquires(s, l) && h == Acquired(s, l)) || LockHeld(s, h)
  {
    hide Next, Enabled, Acquires, Acquired, LockKey;
    var t := Next(s, l);
    if t.poller == Holding(h) {
      PollerComesFrom(s, l, h);
    } else if h in t.jobCh {
      ChannelComesFrom(s, l, h);
    } else {
      var i :| 0 <= i < |t.procs| && (t.procs[i].Running? || t.procs[i].Releasing?) && t.procs[i].held == h;
      if l.Receive? {
        ReceiverComesFrom(s, i, l.i);
      } else {
        ProcsComeFrom(s, l, i);
      }
    }
  }

  lemma AcquireLocks(s: State, l: Label)
    requires Enabled(s, l) && (l.Acquire? || l.SubmitSync?)
    ensures Next(s, l).locks ==
      if Acquires(s, l) then s.locks[KeyOf(Acquired(s, l).job) := s.now + JOB_TTL] else s.locks
  {
  }

  lemma ReleaseLocks(s: State, l: Label)
    requires Enabled(s, l) && LetsGo(l)
    ensures Next(s, l).locks == if l.deleted then s.locks - {KeyOf(Released(s, l).job)} else s.locks
  {
  }

  lemma EndLocks(s: State, l: Label)
    requires Enabled(s, l) && (l.Succeed? || l.NoHandler? || l.Fail?)
    ensures Next(s, l).locks == s.locks
  {
    hide Backoffs.Backoff;
  }

  lemma QueueLocks(s: State, l: Label)
    requires Enabled(s, l)
    requires l.SubmitAsync? || l.Pop? || l.TakeEnqueue? || l.Push? || l.BackoffSend? || l.BackoffDrop?
    ensures Next(s, l).locks == s.locks
  {
    hide KeyOf, Lock, Unlock, LockFree, Backoffs.Backoff;
  }

  lemma ChannelLocks(s: State, l: Label)
    requires Enabled(s, l) && (l.Send? || l.Receive? || l.ProcExit? || Stands(l))
    ensures Next(s, l).locks == s.locks
  {
    hide KeyOf, Lock, Unlock, LockFree, Backoffs.Backoff;
  }

  lemma OtherLocks(s: State, l: Label)
    requires Enabled(s, l) && !l.Acquire? && !l.SubmitSync? && !LetsGo(l)
    ensures Next(s, l).locks == s.locks
  {
    hide Enabled, Next;
    if l.Succeed? || l.NoHandler? || l.Fail? {
      EndLocks(s, l);
    } else if l.Send? || l.Receive? || l.ProcExit? || Stands(l) {
      ChannelLocks(s, l);
    } else {
      QueueLocks(s, l);
    }
  }

  lemma StepLocks(s: State, l: Label)
    requires Enabled(s, l)
    ensures Acquires(s, l) ==> Next(s, l).locks == s.locks[KeyOf(Acquired(s, l).job) := s.now + JOB_TTL]
    ensures LetsGo(l) ==> Next(s, l).locks == if l.deleted then s.locks - {KeyOf(Released(s, l).job)} else s.locks
    ensures !Acquires(s, l) && !LetsGo(l) ==> Next(s, l).locks == s.locks
  {
    hide Next, Enabled, KeyOf, Released, Acquired;
    if l.Acquire? || l.SubmitSync? {
      AcquireLocks(s, l);
    } else if LetsGo(l) {
      ReleaseLocks(s, l);
    } else {
      OtherLocks(s, l);
    }
  }

  /** A free lock has no holder, while all holders are in time. */
  lemma FreeMeansUnheld(s: State, key: string)
    requires Exclusive(s) && Timely(s) && LockFree(s, key)
    ensures Holders(s, key) == 0
  {
    if Holders(s, key) >= 1 {
      var h := CountedHolder(s, key);
    }
  }

  lemma StepHolders(s: State, l: Label, key: string)
    requires Exclusive(s) && Timely(s) && Enabled(s, l)
    ensures Holders(Next(s, l), key) <= 1
    ensures LetsGo(l) && key == KeyOf(Released(s, l).job) ==> Holders(Next(s, l), key) == 0
    ensures Acquires(s, l) && key == KeyOf(Acquired(s, l).job) ==> Holders(s, key) == 0
  {
    assert Holders(s, key) <= 1;
    if l.Acquire? || l.SubmitSync? {
      AcquireCounts(s, l, key);
      if Acquires(s, l) && KeyOf(Acquired(s, l).job) == key {
        FreeMeansUnheld(s, key);
      }
    } else if LetsGo(l) {
      ReleaseCounts(s, l, key);
    } else {
      MoveCounts(s, l, key);
    }
  }

  lemma StepExclusive(s: State, l: Label)
    requires Exclusive(s) && Timely(s) && Enabled(s, l)
    ensures Exclusive(Next(s, l))
  {
    hide Next, Enabled, Acquires, LetsGo, Released, LockKey, Holders;
    var t := Next(s, l);
    StepLocks(s, l);
    forall key ensures Holders(t, key) <= 1 {
      StepHolders(s, l, key);
    }
    forall h | Holds(t, h) ensures KeyOf(h.job) in t.locks && t.locks[KeyOf(h.job)] == h.since + JOB_TTL {
      var key := KeyOf(h.job);
      HolderCounts(t, h);
      StepHolders(s, l, key);
      HoldersComeFrom(s, l, h);
      if !(Acquires(s, l) && h == Acquired(s, l)) {
        var g :| Holds(s, g) && KeyOf(g.job) == key && g.since == h.since;
        HolderCounts(s, g);
      }
    }
  }

  /** Over every run in which no holder outlives its lock, at most one job per key is past acquiring it. */
  lemma {:induction false} MutualExclusion(s: State, ls: seq<Label>, n: nat)
    requires Initial(s) && n <= |ls|
    requires forall i :: 0 <= i < n ==> Timely(StateAt(s, ls, i))
    ensures Exclusive(StateAt(s, ls, n))
  {
    if n == 0 {
      forall key ensures Holders(s, key) == 0 {
        NoProcHolds(s.procs, key);
      }
    } else {
      MutualExclusion(s, ls, n - 1);
      if Enabled(StateAt(s, ls, n - 1), ls[n - 1]) {
        StepExclusive(StateAt(s, ls, n - 1), ls[n - 1]);
      }
    }
  }

  lemma {:induction false} NoProcHolds(procs: seq<Proc>, key: string)
    requires forall i :: 0 <= i < |procs| ==> procs[i].Free?
    ensures Sum(procs, ProcKey(key)) == 0
  {
    if procs != [] {
      NoProcHolds(procs[1..], key);
    }
  }

  /** The time limit is what exclusion rests on: an acquisition gives a key a second holder exactly when the holder it
      has is past its time. */
  lemma OnlyLateHoldersAreOvertaken(s: State, l: Label, h: Held)
    requires Exclusive(s) && Enabled(s, l) && (l == Acquire(true) || (l.SubmitSync? && l.redisUp))
    requires Holds(s, h) && KeyOf(h.job) == KeyOf(if l.Acquire? then s.poller.job else l.job)
    ensures Holders(Next(s, l), KeyOf(h.job)) == 2 <==> h.since + JOB_TTL <= s.now
    ensures Holders(Next(s, l), KeyOf(h.job)) == 1 <==> s.now < h.since + JOB_TTL
  {
    HolderCounts(s, h);
    AcquireCounts(s, l, KeyOf(h.job));
    assert Holders(s, KeyOf(h.job)) <= 1;
  }

  // ---- Every step's effect on the holders ----

  lemma StepHolderCount(s: State, l: Label, key: string)
    requires Enabled(s, l)
    ensures
      Holders(Next(s, l), key) + (if LetsGo(l) then One(KeyOf(Released(s, l).job) == key) else 0) ==
      Holders(s, key) + (if Acquires(s, l) then One(KeyOf(Acquired(s, l).job) == key) else 0)
  {
    hide Next, Enabled, Holders, LockKey;
    if l.Acquire? || l.SubmitSync? {
      AcquireCounts(s, l, key);
    } else if LetsGo(l) {
      ReleaseCounts(s, l, key);
    } else {
      MoveCounts(s, l, key);
    }
  }

  lemma AcquiresFree(s: State, l: Label)
    requires Enabled(s, l) && Acquires(s, l)
    ensures LockFree(s, KeyOf(Acquired(s, l).job)) && !LetsGo(l)
  {
  }

  lemma ReleasedHolds(s: State, l: Label)
    requires Enabled(s, l) && LetsGo(l)
    ensures Holds(s, Released(s, l))
  {
  }

  lemma {:induction false} NothingHeldAtFirst(s: State, key: string)
    requires Initial(s)
    ensures Holders(s, key) == 0
  {
    NoProcHolds(s.procs, key);
  }
}
