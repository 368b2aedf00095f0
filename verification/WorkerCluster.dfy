// Several worker processes on one Redis: the list, the locks and the clock are shared, all else is each one's own.

module WorkerCluster {
  import opened Bags
  import opened WorkerProtocol
  import opened WorkerConservation
  import opened WorkerExclusion

  /** `before` is what the list held at the start; it is history. */
  datatype Cluster = Cluster(queue: seq<Job>, locks: map<string, int>, now: int, nodes: seq<State>, before: seq<Job>)

  /** What a process has to itself. */
  function Private(s: State): State {
    s.(queue := [], locks := map[], now := 0)
  }

  /** What one process sees. */
  function Local(c: Cluster, k: nat): State
    requires k < |c.nodes|
  {
    c.nodes[k].(queue := c.queue, locks := c.locks, now := c.now)
  }

  datatype Step = Step(node: nat, act: Label)

  /** A submission is told apart from all others, of whatever process. */
  predicate IsNew(c: Cluster, l: Label) {
    Submits(l) ==>
      && NotIn(c.before, l.job.id)
      && forall k :: 0 <= k < |c.nodes| ==> NotIn(c.nodes[k].submitted, l.job.id)
  }

  predicate NotIn(jobs: seq<Job>, id: nat) {
    forall i :: 0 <= i < |jobs| ==> jobs[i].id != id
  }

  predicate CanStep(c: Cluster, x: Step) {
    x.node < |c.nodes| && Enabled(Local(c, x.node), x.act) && IsNew(c, x.act)
  }

  function After(c: Cluster, x: Step): Cluster
    requires CanStep(c, x)
  {
    var t := Next(Local(c, x.node), x.act);
    Cluster(t.queue, t.locks, t.now, c.nodes[x.node := Private(t)], c.before)
  }

  /** The processes have just started; Redis may hold anything. */
  ghost predicate Fresh(c: Cluster) {
    && c.before == c.queue && Unstarted(c.queue)
    && forall k :: 0 <= k < |c.nodes| ==> Initial(c.nodes[k]) && c.nodes[k] == Private(c.nodes[k])
  }

  /** The cluster after the first n steps; a step that is not enabled is skipped. */
  function ClusterAt(c: Cluster, xs: seq<Step>, n: nat): Cluster
    requires n <= |xs|
  {
    if n == 0 then c
    else
      var earlier := ClusterAt(c, xs, n - 1);
      if CanStep(earlier, xs[n - 1]) then After(earlier, xs[n - 1]) else earlier
  }

  // ---- One holder per key ----

  ghost function NodeHolders(key: string): State -> nat {
    (s: State) => Holders(s, key)
  }

  /** How many jobs with this key are past acquiring it, in all processes together. */
  ghost function AllHolders(c: Cluster, key: string): nat {
    Sum(c.nodes, NodeHolders(key))
  }

  ghost predicate HeldIn(c: Cluster, k: int, h: Held) {
    0 <= k < |c.nodes| && Holds(c.nodes[k], h)
  }

  ghost predicate ClusterExclusive(c: Cluster) {
    && (forall k, h :: HeldIn(c, k, h) ==> KeyOf(h.job) in c.locks && c.locks[KeyOf(h.job)] == h.since + JOB_TTL)
    && (forall key :: AllHolders(c, key) <= 1)
  }

  ghost predicate ClusterTimely(c: Cluster) {
    forall k, h :: HeldIn(c, k, h) ==> c.now < h.since + JOB_TTL
  }

  lemma PrivateHolds(s: State, key: string)
    ensures Holders(Private(s), key) == Holders(s, key)
    ensures forall h :: Holds(Private(s), h) <==> Holds(s, h)
  {
  }

  lemma SharedDoesNotCount(c: Cluster, k: nat, key: string)
    requires k < |c.nodes|
    ensures Holders(Local(c, k), key) == Holders(c.nodes[k], key)
    ensures forall h :: Holds(Local(c, k), h) <==> Holds(c.nodes[k], h)
  {
  }

  lemma HeldIsCounted(c: Cluster, k: int, h: Held)
    requires HeldIn(c, k, h)
    ensures AllHolders(c, KeyOf(h.job)) >= 1
  {
    HolderCounts(c.nodes[k], h);
    SumMember(c.nodes, k, NodeHolders(KeyOf(h.job)));
  }

  /** Holders of one key in two processes are two. */
  lemma HeldTwice(c: Cluster, j: int, g: Held, k: int, h: Held)
    requires HeldIn(c, j, g) && HeldIn(c, k, h) && j != k && KeyOf(g.job) == KeyOf(h.job)
    ensures AllHolders(c, KeyOf(h.job)) >= 2
  {
    hide Holders, Holds, KeyOf;
    var key := KeyOf(h.job);
    var f := NodeHolders(key);
    HolderCounts(c.nodes[j], g);
    HolderCounts(c.nodes[k], h);
    SumRemove(c.nodes, j, f);
    var rest := c.nodes[..j] + c.nodes[j + 1..];
    var i := if k < j then k else k - 1;
    assert rest[i] == c.nodes[k];
    SumMember(rest, i, f);
  }

  lemma CountedIsHeld(c: Cluster, key: string) returns (k: nat, h: Held)
    requires AllHolders(c, key) >= 1
    ensures HeldIn(c, k, h) && KeyOf(h.job) == key
  {
    hide Holders, Holds, KeyOf;
    k := PositiveSum(c.nodes, NodeHolders(key));
    h := CountedHolder(c.nodes[k], key);
  }

  lemma FreeIsUnheld(c: Cluster, key: string)
    requires ClusterExclusive(c) && ClusterTimely(c) && (key !in c.locks || c.locks[key] <= c.now)
    ensures AllHolders(c, key) == 0
  {
    hide AllHolders, HeldIn, KeyOf;
    if AllHolders(c, key) >= 1 {
      var k, h := CountedIsHeld(c, key);
    }
  }

  lemma AfterCounts(c: Cluster, x: Step, key: string)
    requires CanStep(c, x)
    ensures
      var s := Local(c, x.node);
      AllHolders(After(c, x), key) + (if LetsGo(x.act) then One(KeyOf(Released(s, x.act).job) == key) else 0) ==
      AllHolders(c, key) + (if Acquires(s, x.act) then One(KeyOf(Acquired(s, x.act).job) == key) else 0)
  {
    hide Next, Enabled, Holders, LetsGo, Acquires, Released, Acquired, KeyOf;
    StepHolderCount(Local(c, x.node), x.act, key);
    SharedDoesNotCount(c, x.node, key);
    PrivateHolds(Next(Local(c, x.node), x.act), key);
    SumUpdate(c.nodes, x.node, Private(Next(Local(c, x.node), x.act)), NodeHolders(key));
  }

  lemma AfterAtMostOne(c: Cluster, x: Step, key: string)
    requires ClusterExclusive(c) && ClusterTimely(c) && CanStep(c, x)
    ensures AllHolders(After(c, x), key) <= 1
    ensures Acquires(Local(c, x.node), x.act) && KeyOf(Acquired(Local(c, x.node), x.act).job) == key ==>
      AllHolders(c, key) == 0
  {
    hide Next, Enabled, Holders, LetsGo, Acquires, Released, Acquired, KeyOf, Holds;
    AfterCounts(c, x, key);
    assert AllHolders(c, key) <= 1;
    if Acquires(Local(c, x.node), x.act) && KeyOf(Acquired(Local(c, x.node), x.act).job) == key {
      AcquiresFree(Local(c, x.node), x.act);
      FreeIsUnheld(c, key);
    }
  }

  ghost predicate Locked(locks: map<string, int>, h: Held) {
    KeyOf(h.job) in locks && locks[KeyOf(h.job)] == h.since + JOB_TTL
  }

  /** A holder that had its lock before the step has it after, unless the step let this very key go. */
  lemma KeepsLock(c: Cluster, x: Step, k: int, h: Held)
    requires ClusterExclusive(c) && ClusterTimely(c) && CanStep(c, x) && HeldIn(c, k, h)
    ensures Locked(After(c, x).locks, h) ||
      (LetsGo(x.act) && KeyOf(Released(Local(c, x.node), x.act).job) == KeyOf(h.job))
  {
    hide Next, Enabled, Holders, LetsGo, Acquires, Released, Acquired, KeyOf, Holds;
    StepLocks(Local(c, x.node), x.act);
    AfterAtMostOne(c, x, KeyOf(h.job));
    HeldIsCounted(c, k, h);
  }

  lemma OthersKeepLock(c: Cluster, x: Step, k: int, h: Held)
    requires ClusterExclusive(c) && ClusterTimely(c) && CanStep(c, x) && HeldIn(c, k, h) && k != x.node
    ensures Locked(After(c, x).locks, h)
  {
    hide Next, Enabled, Holders, LetsGo, Acquires, Released, Acquired, KeyOf, Holds;
    KeepsLock(c, x, k, h);
    if LetsGo(x.act) && KeyOf(Released(Local(c, x.node), x.act).job) == KeyOf(h.job) {
      ReleasedHolds(Local(c, x.node), x.act);
      SharedDoesNotCount(c, x.node, "");
      HeldTwice(c, x.node, Released(Local(c, x.node), x.act), k, h);
      assert false;
    }
  }

  lemma StepperKeepsLock(c: Cluster, x: Step, h: Held)
    requires ClusterExclusive(c) && ClusterTimely(c) && CanStep(c, x) && HeldIn(After(c, x), x.node, h)
    ensures Locked(After(c, x).locks, h)
  {
    hide Next, Enabled, Holders, LetsGo, Acquires, Released, KeyOf, Holds;
    var s := Local(c, x.node);
    PrivateHolds(Next(s, x.act), "");
    StepLocks(s, x.act);
    HoldersComeFrom(s, x.act, h);
    SharedDoesNotCount(c, x.node, "");
    HeldIsCounted(After(c, x), x.node, h);
    AfterCounts(c, x, KeyOf(h.job));
    AfterAtMostOne(c, x, KeyOf(h.job));
    if !(Acquires(s, x.act) && h == Acquired(s, x.act)) {
      var g :| Holds(s, g) && KeyOf(g.job) == KeyOf(h.job) && g.since == h.since;
      assert HeldIn(c, x.node, g);
      HeldIsCounted(c, x.node, g);
      KeepsLock(c, x, x.node, g);
    }
  }

  lemma AfterExclusive(c: Cluster, x: Step)
    requires ClusterExclusive(c) && ClusterTimely(c) && CanStep(c, x)
    ensures ClusterExclusive(After(c, x))
  {
    hide Next, Enabled, Holders, LetsGo, Acquires, Released, Acquired, KeyOf, Holds;
    var d := After(c, x);
    forall key ensures AllHolders(d, key) <= 1 {
      AfterAtMostOne(c, x, key);
    }
    forall k, h | HeldIn(d, k, h) ensures KeyOf(h.job) in d.locks && d.locks[KeyOf(h.job)] == h.since + JOB_TTL {
      if k == x.node {
        StepperKeepsLock(c, x, h);
      } else {
        assert HeldIn(c, k, h);
        OthersKeepLock(c, x, k, h);
      }
    }
  }

  lemma {:induction false} NothingHeld(nodes: seq<State>, key: string)
    requires forall k :: 0 <= k < |nodes| ==> Initial(nodes[k])
    ensures Sum(nodes, NodeHolders(key)) == 0
  {
    hide Initial, Holders;
    if nodes != [] {
      NothingHeldAtFirst(nodes[0], key);
      NothingHeld(nodes[1..], key);
    }
  }

  lemma FreshExclusive(c: Cluster)
    requires Fresh(c)
    ensures ClusterExclusive(c)
  {
    forall key ensures AllHolders(c, key) == 0 {
      NothingHeld(c.nodes, key);
    }
  }

  /** Over every run of any number of worker processes on one Redis, whatever it held at the start, in which no holder
      outlives its lock: all processes together have at most one job per key past acquiring it. */
  lemma {:induction false} ClusterMutualExclusion(c: Cluster, xs: seq<Step>, n: nat)
    requires Fresh(c) && n <= |xs|
    requires forall i :: 0 <= i < n ==> ClusterTimely(ClusterAt(c, xs, i))
    ensures ClusterExclusive(ClusterAt(c, xs, n))
  {
    if n == 0 {
      FreshExclusive(c);
    } else {
      ClusterMutualExclusion(c, xs, n - 1);
      if CanStep(ClusterAt(c, xs, n - 1), xs[n - 1]) {
        AfterExclusive(ClusterAt(c, xs, n - 1), xs[n - 1]);
      }
    }
  }

  // ---- Every job in one place ----

  ghost function NodeLocated(x: Ident): State -> nat {
    (s: State) => Located(Private(s), x)
  }

  /** In how many places the job is: the Redis list, and all places of all processes. */
  ghost function ClusterLocated(c: Cluster, x: Ident): nat {
    Sum(c.queue, JobIs(x)) + Sum(c.nodes, NodeLocated(x))
  }

  ghost function NodeSubmitted(x: Ident): State -> nat {
    (s: State) => Sum(s.submitted, JobIs(x))
  }

  /** How often the job was submitted, to whatever process or before the start. */
  ghost function AllSubmitted(c: Cluster, x: Ident): nat {
    Sum(c.before, JobIs(x)) + Sum(c.nodes, NodeSubmitted(x))
  }

  ghost predicate ClusterConserved(c: Cluster) {
    && (forall x :: ClusterLocated(c, x) == AllSubmitted(c, x) <= 1)
    && (forall x, y :: AllSubmitted(c, x) >= 1 && AllSubmitted(c, y) >= 1 && x.id == y.id ==> x == y)
  }

  lemma LocatedApart(s: State, x: Ident)
    ensures Located(s, x) == Sum(s.queue, JobIs(x)) + Located(Private(s), x)
  {
  }

  lemma AfterLocated(c: Cluster, x: Step, y: Ident)
    requires CanStep(c, x)
    ensures ClusterLocated(After(c, x), y) ==
      ClusterLocated(c, y) + (if Submits(x.act) then One(IdentOf(x.act.job) == y) else 0)
  {
    hide Next, Enabled, Located;
    var s := Local(c, x.node);
    StepLocates(s, x.act, y);
    LocatedApart(s, y);
    LocatedApart(Next(s, x.act), y);
    SumUpdate(c.nodes, x.node, Private(Next(s, x.act)), NodeLocated(y));
    assert Private(s) == Private(c.nodes[x.node]);
    assert Private(Private(Next(s, x.act))) == Private(Next(s, x.act));
  }

  lemma AfterSubmitted(c: Cluster, x: Step, y: Ident)
    requires CanStep(c, x)
    ensures AllSubmitted(After(c, x), y) ==
      AllSubmitted(c, y) + (if Submits(x.act) then One(IdentOf(x.act.job) == y) else 0)
  {
    hide Next, Enabled;
    var s := Local(c, x.node);
    StepSubmits(s, x.act);
    SumUpdate(c.nodes, x.node, Private(Next(s, x.act)), NodeSubmitted(y));
    if Submits(x.act) {
      SumPush(s.submitted, x.act.job, JobIs(y));
    }
  }

  lemma {:induction false} NewAmongNodes(nodes: seq<State>, y: Ident)
    requires forall k :: 0 <= k < |nodes| ==> NotIn(nodes[k].submitted, y.id)
    ensures Sum(nodes, NodeSubmitted(y)) == 0
  {
    if nodes != [] {
      NotAmong(nodes[0].submitted, y);
      NewAmongNodes(nodes[1..], y);
    }
  }

  lemma NewIsUncounted(c: Cluster, l: Label, y: Ident)
    requires IsNew(c, l) && Submits(l) && y.id == l.job.id
    ensures AllSubmitted(c, y) == 0
  {
    NotAmong(c.before, y);
    NewAmongNodes(c.nodes, y);
  }

  lemma AfterConserved(c: Cluster, x: Step)
    requires ClusterConserved(c) && CanStep(c, x)
    ensures ClusterConserved(After(c, x))
  {
    hide Next, Enabled, ClusterLocated, AllSubmitted, IsNew;
    var d := After(c, x);
    forall y ensures ClusterLocated(d, y) == AllSubmitted(d, y) <= 1 {
      AfterLocated(c, x, y);
      AfterSubmitted(c, x, y);
      if Submits(x.act) && IdentOf(x.act.job) == y {
        NewIsUncounted(c, x.act, y);
      }
    }
    forall y, z | AllSubmitted(d, y) >= 1 && AllSubmitted(d, z) >= 1 && y.id == z.id ensures y == z {
      AfterSubmitted(c, x, y);
      AfterSubmitted(c, x, z);
      if Submits(x.act) && y.id == x.act.job.id {
        NewIsUncounted(c, x.act, y);
        NewIsUncounted(c, x.act, z);
      }
    }
  }

  lemma {:induction false} NothingInNodes(nodes: seq<State>, x: Ident)
    requires forall k :: 0 <= k < |nodes| ==> Initial(nodes[k]) && nodes[k] == Private(nodes[k])
    ensures Sum(nodes, NodeLocated(x)) == Sum(nodes, NodeSubmitted(x)) == 0
  {
    if nodes != [] {
      NoRunningJobs(nodes[0].procs, x);
      NothingInNodes(nodes[1..], x);
    }
  }

  lemma {:induction false} CountedOnce(jobs: seq<Job>, x: Ident)
    requires Unstarted(jobs)
    ensures Sum(jobs, JobIs(x)) <= 1
    ensures Sum(jobs, JobIs(x)) == 1 ==> exists i :: 0 <= i < |jobs| && IdentOf(jobs[i]) == x
  {
    if Sum(jobs, JobIs(x)) >= 1 {
      var i := PositiveSum(jobs, JobIs(x));
      SubmittedOnce(jobs, i);
    }
  }

  lemma FreshConserved(c: Cluster)
    requires Fresh(c)
    ensures ClusterConserved(c)
  {
    hide Initial, Located;
    forall x ensures ClusterLocated(c, x) == AllSubmitted(c, x) == Sum(c.queue, JobIs(x)) <= 1 {
      NothingInNodes(c.nodes, x);
      CountedOnce(c.queue, x);
    }
    forall x, y | AllSubmitted(c, x) >= 1 && AllSubmitted(c, y) >= 1 && x.id == y.id ensures x == y {
      CountedOnce(c.queue, x);
      CountedOnce(c.queue, y);
    }
  }

  /** In every reachable state of all processes together, every job submitted to any of them or found in Redis is in
      exactly one place, and nothing else is anywhere. */
  lemma {:induction false} ClusterExactlyOnePlace(c: Cluster, xs: seq<Step>, n: nat)
    requires Fresh(c) && n <= |xs|
    ensures ClusterConserved(ClusterAt(c, xs, n))
  {
    hide CanStep, After, ClusterConserved, Fresh;
    if n == 0 {
      FreshConserved(c);
    } else {
      ClusterExactlyOnePlace(c, xs, n - 1);
      if CanStep(ClusterAt(c, xs, n - 1), xs[n - 1]) {
        AfterConserved(ClusterAt(c, xs, n - 1), xs[n - 1]);
      }
    }
  }
}
