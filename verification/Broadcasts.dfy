// internal/permission/invalidator.go across instances that share a database. Every instance has its own engine, its own
// memory cache and its own callers, as Staleness has them; an instance that changed the stored policy reloads and
// publishes a message, which reaches some instances, and each of them reloads when it gets to the message. Clears are
// steps of their own.

module Broadcasts {
  import opened TimedMap
  import opened CacheKeys
  import opened Policies
  import opened CachedDecisions
  import Staleness

  type Instance = Staleness.State

  /** What an instance still has to do for a change it made. */
  datatype Duty = Nothing | ChangeLoaded(e: Edit) | ReloadAndPublish | OnlyPublish

  datatype Node = Node(inst: Instance, duty: Duty, mail: nat)

  datatype Cluster = Cluster(stored: Policy, nodes: seq<Node>)

  datatype Label =
    | Own(n: nat, step: Staleness.Label)
    | Change(n: nat, e: Edit)
    | FollowChange(n: nat)
    | ReloadOwn(n: nat, reloaded: bool)
    | Publish(n: nat, reached: set<nat>)
    | OnInvalidate(n: nat, reloaded: bool)
    | Pass(elapsed: nat)

  /** What callers and administrators of one instance do to its cache. */
  predicate IsOwn(l: Staleness.Label) {
    l.Lookup? || l.Enforce? || l.Store? || l.Leave? || l.Clear? || l.Invalidate? || l.SetTTL? || l.OtherWrite?
  }

  predicate Enabled(c: Cluster, l: Label) {
    l.Pass? || (l.n < |c.nodes| &&
    match l
    case Own(n, step) => IsOwn(step) && Staleness.Enabled(c.nodes[n].inst, step)
    case Change(n, _) => c.nodes[n].duty.Nothing?
    case FollowChange(n) => c.nodes[n].duty.ChangeLoaded?
    case ReloadOwn(n, _) => c.nodes[n].duty.ReloadAndPublish?
    case Publish(n, _) => c.nodes[n].duty.OnlyPublish?
    case OnInvalidate(n, _) => c.nodes[n].mail > 0)
  }

  const STUTTER: Staleness.Label := Staleness.Tick(0)

  /** What a step is to instance i. */
  function Seen(c: Cluster, l: Label, i: nat): Staleness.Label
    requires Enabled(c, l) && i < |c.nodes|
  {
    match l
    case Own(n, step) => if i == n then step else STUTTER
    case Change(_, e) => Staleness.EditStored(Apply(c.stored, e))
    case FollowChange(n) =>
      if i == n then Staleness.EditLoaded(Apply(c.nodes[n].inst.loaded, c.nodes[n].duty.e)) else STUTTER
    case ReloadOwn(n, reloaded) => if i == n && reloaded then Staleness.LoadPolicy else STUTTER
    case Publish(_, _) => STUTTER
    case OnInvalidate(n, reloaded) => if i == n && reloaded then Staleness.LoadPolicy else STUTTER
    case Pass(elapsed) => Staleness.Tick(elapsed)
  }

  function DutyAfter(c: Cluster, l: Label, i: nat): Duty
    requires Enabled(c, l) && i < |c.nodes|
  {
    if l.Pass? || i != l.n then c.nodes[i].duty
    else
      match l
      case Change(_, e) => ChangeLoaded(e)
      case FollowChange(_) => ReloadAndPublish
      case ReloadOwn(_, _) => OnlyPublish
      case Publish(_, _) => Nothing
      case _ => c.nodes[i].duty
  }

  function MailAfter(c: Cluster, l: Label, i: nat): nat
    requires Enabled(c, l) && i < |c.nodes|
  {
    match l
    case Publish(_, reached) => c.nodes[i].mail + (if i in reached then 1 else 0)
    case OnInvalidate(n, _) => if i == n then c.nodes[i].mail - 1 else c.nodes[i].mail
    case _ => c.nodes[i].mail
  }

  lemma SeenIsEnabled(c: Cluster, l: Label, i: nat)
    requires Enabled(c, l) && i < |c.nodes|
    ensures Staleness.Enabled(c.nodes[i].inst, Seen(c, l, i))
  {
  }

  function NodeAfter(c: Cluster, l: Label, i: nat): Node
    requires Enabled(c, l) && i < |c.nodes|
  {
    SeenIsEnabled(c, l, i);
    Node(Staleness.Next(c.nodes[i].inst, Seen(c, l, i)), DutyAfter(c, l, i), MailAfter(c, l, i))
  }

  function Next(c: Cluster, l: Label): Cluster
    requires Enabled(c, l)
  {
    Cluster(if l.Change? then Apply(c.stored, l.e) else c.stored,
            seq(|c.nodes|, i requires 0 <= i < |c.nodes| => NodeAfter(c, l, i)))
  }

  function ClusterAt(c: Cluster, ls: seq<Label>, n: nat): Cluster
    requires n <= |ls|
  {
    if n == 0 then c
    else
      var before := ClusterAt(c, ls, n - 1);
      if Enabled(before, ls[n - 1]) then Next(before, ls[n - 1]) else before
  }

  /** A change is in the stored policy, as every instance finds it there, from the very step on, and in the policy its
      own instance has loaded once that has followed it. */
  lemma ChangeTakesEffect(c: Cluster, n: nat, e: Edit, q: Request)
    requires Enabled(c, Change(n, e))
    requires forall i :: 0 <= i < |c.nodes| ==> c.nodes[i].inst.stored == c.stored
    ensures
      var d := Next(c, Change(n, e));
      && (Decide(d.stored, q) <==> Decide(Apply(c.stored, e), q))
      && (forall i :: 0 <= i < |c.nodes| ==> d.nodes[i].inst.stored == d.stored)
      && (forall i :: 0 <= i < |c.nodes| ==> d.nodes[i].inst.loaded == c.nodes[i].inst.loaded)
      && Enabled(d, FollowChange(n))
      && (Decide(Next(d, FollowChange(n)).nodes[n].inst.loaded, q) <==> Decide(Apply(c.nodes[n].inst.loaded, e), q))
  {
    hide Decide, Apply;
  }

  // ---- Nobody is left behind ----

  predicate Busy(c: Cluster) {
    exists n :: 0 <= n < |c.nodes| && !c.nodes[n].duty.Nothing?
  }

  predicate UpToDate(c: Cluster, i: nat)
    requires i < |c.nodes|
  {
    c.nodes[i].inst.loaded == c.stored
  }

  /** An instance with an outdated policy has a message waiting, or somebody is still to publish one. */
  ghost predicate WillHear(c: Cluster) {
    && (forall i :: 0 <= i < |c.nodes| ==> c.nodes[i].inst.stored == c.stored)
    && (Busy(c) || forall i :: 0 <= i < |c.nodes| ==> UpToDate(c, i) || c.nodes[i].mail > 0)
  }

  /** Nobody but instance n has anything left to do for a change. */
  predicate LastBusy(c: Cluster, n: nat) {
    forall i :: 0 <= i < |c.nodes| && i != n ==> c.nodes[i].duty.Nothing?
  }

  /** The steps after which an outdated instance has nothing to wait for: its last message is used up by a reload that
      fails, or the last publisher's message does not reach it. */
  predicate Breaks(c: Cluster, l: Label)
    requires Enabled(c, l)
  {
    match l
    case OnInvalidate(n, reloaded) => !reloaded && !Busy(c) && !UpToDate(c, n) && c.nodes[n].mail == 1
    case Publish(n, reached) =>
      && LastBusy(c, n)
      && exists i :: 0 <= i < |c.nodes| && i !in reached && !UpToDate(c, i) && c.nodes[i].mail == 0
    case _ => false
  }

  lemma StepStored(c: Cluster, l: Label)
    requires Enabled(c, l) && forall i :: 0 <= i < |c.nodes| ==> c.nodes[i].inst.stored == c.stored
    ensures forall i :: 0 <= i < |c.nodes| ==> Next(c, l).nodes[i].inst.stored == Next(c, l).stored
  {
  }

  lemma StepLoaded(c: Cluster, l: Label, i: nat)
    requires Enabled(c, l) && i < |c.nodes| && c.nodes[i].inst.stored == c.stored
    ensures
      var after := Next(c, l).nodes[i].inst.loaded;
      if (l.OnInvalidate? || l.ReloadOwn?) && l.n == i && l.reloaded then after == c.stored
      else !(l.FollowChange? && l.n == i) ==> after == c.nodes[i].inst.loaded
  {
  }

  lemma StepBusy(c: Cluster, l: Label)
    requires Enabled(c, l)
    ensures l.Change? || l.FollowChange? || l.ReloadOwn? ==> Busy(Next(c, l))
    ensures l.Publish? ==> (Busy(Next(c, l)) <==> !LastBusy(c, l.n))
    ensures l.Own? || l.OnInvalidate? || l.Pass? ==> (Busy(Next(c, l)) <==> Busy(c))
  {
    var d := Next(c, l);
    if l.Change? || l.FollowChange? || l.ReloadOwn? {
      assert !d.nodes[l.n].duty.Nothing?;
    } else {
      assert forall i :: 0 <= i < |c.nodes| ==>
        d.nodes[i].duty == if l.Publish? && i == l.n then Nothing else c.nodes[i].duty;
    }
  }

  /** What a step other than a change leaves of the question who is up to date or has mail. */
  lemma StepInformed(c: Cluster, l: Label, i: nat)
    requires Enabled(c, l) && i < |c.nodes| && c.nodes[i].inst.stored == c.stored
    requires !l.Change? && !l.FollowChange? && !l.ReloadOwn?
    ensures (UpToDate(Next(c, l), i) || Next(c, l).nodes[i].mail > 0) <==>
      || UpToDate(c, i)
      || (if l.OnInvalidate? && l.n == i then l.reloaded || c.nodes[i].mail > 1 else c.nodes[i].mail > 0)
      || (l.Publish? && i in l.reached)
  {
    hide Staleness.Next;
    StepLoaded(c, l, i);
  }

  /** A step leaves some outdated instance with nothing to wait for exactly if it is one of the breaking ones. */
  lemma StepWillHearIff(c: Cluster, l: Label)
    requires WillHear(c) && Enabled(c, l)
    ensures WillHear(Next(c, l)) <==> !Breaks(c, l)
  {
    hide Next, Enabled, UpToDate;
    StepStored(c, l);
    StepBusy(c, l);
    SameSize(c, l);
    if !l.Change? && !l.FollowChange? && !l.ReloadOwn? {
      forall i | 0 <= i < |c.nodes|
        ensures (UpToDate(Next(c, l), i) || Next(c, l).nodes[i].mail > 0) <==>
          || UpToDate(c, i)
          || (if l.OnInvalidate? && l.n == i then l.reloaded || c.nodes[i].mail > 1 else c.nodes[i].mail > 0)
          || (l.Publish? && i in l.reached)
      {
        StepInformed(c, l, i);
      }
    }
  }

  lemma SameSize(c: Cluster, l: Label)
    requires Enabled(c, l)
    ensures |Next(c, l).nodes| == |c.nodes| && (!l.Pass? ==> l.n < |c.nodes|)
    ensures l.Publish? ==> c.nodes[l.n].duty.OnlyPublish?
    ensures l.OnInvalidate? ==> c.nodes[l.n].mail > 0
  {
  }

  ghost predicate NothingBreaks(c: Cluster, ls: seq<Label>, n: nat)
    requires n <= |ls|
  {
    forall i :: 0 <= i < n && Enabled(ClusterAt(c, ls, i), ls[i]) ==> !Breaks(ClusterAt(c, ls, i), ls[i])
  }

  lemma {:induction false} AlwaysWillHear(c: Cluster, ls: seq<Label>, n: nat)
    requires n <= |ls| && WillHear(c) && NothingBreaks(c, ls, n)
    ensures WillHear(ClusterAt(c, ls, n))
  {
    hide Next, Enabled, Breaks, WillHear;
    if n > 0 {
      AlwaysWillHear(c, ls, n - 1);
      if Enabled(ClusterAt(c, ls, n - 1), ls[n - 1]) {
        StepWillHearIff(ClusterAt(c, ls, n - 1), ls[n - 1]);
      }
    }
  }

  predicate ReachesAll(c: Cluster, l: Label) {
    l.Publish? ==> forall i :: 0 <= i < |c.nodes| ==> i in l.reached
  }

  /** If every message reaches every instance and every reload on a message succeeds, nothing breaks; an instance's own
      reload may fail. */
  lemma NoFailureBreaksNothing(c: Cluster, ls: seq<Label>, n: nat)
    requires n <= |ls|
    requires forall i :: 0 <= i < n ==> ReachesAll(c, ls[i]) && (ls[i].OnInvalidate? ==> ls[i].reloaded)
    ensures NothingBreaks(c, ls, n)
  {
    forall i | 0 <= i < n && Enabled(ClusterAt(c, ls, i), ls[i]) ensures !Breaks(ClusterAt(c, ls, i), ls[i]) {
      SizeStays(c, ls, i);
    }
  }

  /** All changes are published and instance k has handled its messages. */
  predicate Handled(c: Cluster, k: nat) {
    k < |c.nodes| && !Busy(c) && c.nodes[k].mail == 0
  }

  /** When every change has been published and an instance has handled its messages, it has the stored policy loaded,
      however changes, reloads and messages of different instances interleaved. */
  lemma InstancesConverge(c: Cluster, ls: seq<Label>, n: nat, k: nat)
    requires n <= |ls| && WillHear(c) && NothingBreaks(c, ls, n)
    requires Handled(ClusterAt(c, ls, n), k)
    ensures UpToDate(ClusterAt(c, ls, n), k)
  {
    AlwaysWillHear(c, ls, n);
  }

  // ---- Each instance runs as a single one does ----

  lemma {:induction false} SizeStays(c: Cluster, ls: seq<Label>, n: nat)
    requires n <= |ls|
    ensures |ClusterAt(c, ls, n).nodes| == |c.nodes|
  {
    if n > 0 {
      SizeStays(c, ls, n - 1);
    }
  }

  function SeenAt(c: Cluster, ls: seq<Label>, k: nat, n: nat): Staleness.Label
    requires k < |c.nodes| && n < |ls|
  {
    SizeStays(c, ls, n);
    if Enabled(ClusterAt(c, ls, n), ls[n]) then Seen(ClusterAt(c, ls, n), ls[n], k) else STUTTER
  }

  /** The run of the cluster as instance k sees it. */
  function View(c: Cluster, ls: seq<Label>, k: nat): seq<Staleness.Label>
    requires k < |c.nodes|
  {
    seq(|ls|, n requires 0 <= n < |ls| => SeenAt(c, ls, k, n))
  }

  lemma {:induction false} ViewReaches(c: Cluster, ls: seq<Label>, k: nat, n: nat)
    requires k < |c.nodes| && n <= |ls|
    ensures |ClusterAt(c, ls, n).nodes| == |c.nodes|
    ensures Staleness.StateAt(c.nodes[k].inst, View(c, ls, k), n) == ClusterAt(c, ls, n).nodes[k].inst
    ensures n < |ls| ==> Staleness.Enabled(ClusterAt(c, ls, n).nodes[k].inst, SeenAt(c, ls, k, n))
  {
    hide Staleness.Next, Staleness.Enabled, Seen, Enabled;
    SizeStays(c, ls, n);
    if n < |ls| && Enabled(ClusterAt(c, ls, n), ls[n]) {
      SeenIsEnabled(ClusterAt(c, ls, n), ls[n], k);
    }
    StutterStays(ClusterAt(c, ls, n).nodes[k].inst);
    if n > 0 {
      SizeStays(c, ls, n - 1);
      StutterStays(ClusterAt(c, ls, n - 1).nodes[k].inst);
      ViewReaches(c, ls, k, n - 1);
    }
  }

  lemma StutterStays(s: Instance)
    ensures Staleness.Enabled(s, STUTTER) && Staleness.Next(s, STUTTER) == s
  {
  }

  /** The callers of instance k ask for these requests only. */
  ghost predicate Asks(requests: iset<Request>, ls: seq<Label>, k: nat) {
    forall n :: 0 <= n < |ls| && ls[n].Own? && ls[n].n == k && ls[n].step.Lookup? ==> ls[n].step.q in requests
  }

  lemma SeenLookup(c: Cluster, l: Label, k: nat)
    requires Enabled(c, l) && k < |c.nodes| && Seen(c, l, k).Lookup?
    ensures l.Own? && l.n == k && l.step == Seen(c, l, k)
  {
  }

  lemma ViewIsRun(requests: iset<Request>, c: Cluster, ls: seq<Label>, k: nat)
    requires k < |c.nodes| && Staleness.Initial(c.nodes[k].inst) && KeyInjective(requests) && Asks(requests, ls, k)
    ensures Staleness.RunOver(requests, c.nodes[k].inst, View(c, ls, k))
  {
    hide Staleness.Next, Staleness.Enabled, Seen, Enabled, KeyInjective, Staleness.Initial;
    forall n | 0 <= n < |ls|
      ensures Staleness.EnabledAt(c.nodes[k].inst, View(c, ls, k), n)
      ensures View(c, ls, k)[n].Lookup? ==> View(c, ls, k)[n].q in requests
    {
      SizeStays(c, ls, n);
      ViewReaches(c, ls, k, n);
      if Enabled(ClusterAt(c, ls, n), ls[n]) && Seen(ClusterAt(c, ls, n), ls[n], k).Lookup? {
        SeenLookup(ClusterAt(c, ls, n), ls[n], k);
      }
    }
  }

  // ---- The whole cluster converges ----

  /** Instance k has nothing to do and nothing to hear, and nobody else has anything to say. */
  ghost predicate Settled(c: Cluster, k: nat) {
    && Handled(c, k) && UpToDate(c, k)
    && forall i :: 0 <= i < |c.nodes| ==> c.nodes[i].inst.stored == c.stored
  }

  lemma StepSettled(c: Cluster, l: Label, k: nat)
    requires Settled(c, k) && Enabled(c, l) && !l.Change?
    ensures Settled(Next(c, l), k) && Next(c, l).stored == c.stored
  {
    hide Staleness.Next;
    StepStored(c, l);
    StepBusy(c, l);
    StepLoaded(c, l, k);
  }

  lemma {:induction false} StaysSettled(c: Cluster, ls: seq<Label>, m: nat, n: nat, k: nat)
    requires m <= n <= |ls| && Settled(ClusterAt(c, ls, m), k) && forall i :: m <= i < n ==> !ls[i].Change?
    ensures Settled(ClusterAt(c, ls, n), k) && ClusterAt(c, ls, n).stored == ClusterAt(c, ls, m).stored
    decreases n
  {
    hide Next, Enabled, Settled;
    if m < n {
      StaysSettled(c, ls, m, n - 1, k);
      if Enabled(ClusterAt(c, ls, n - 1), ls[n - 1]) {
        StepSettled(ClusterAt(c, ls, n - 1), ls[n - 1], k);
      }
    }
  }

  lemma SettledOnceHandled(c: Cluster, ls: seq<Label>, m: nat, k: nat)
    requires m <= |ls| && WillHear(c) && NothingBreaks(c, ls, m) && Handled(ClusterAt(c, ls, m), k)
    ensures Settled(ClusterAt(c, ls, m), k)
  {
    hide Next, Enabled, Breaks;
    AlwaysWillHear(c, ls, m);
    InstancesConverge(c, ls, m, k);
  }

  /** From step m on nobody changes the policy, all changes have been published and instance k has handled its messages;
      its callers that held a decision then have stored it by step q; and more than the longest ttl has passed since.
      Then every answer of instance k is the stored policy's, whatever clears and reloads raced before. */
  lemma EveryInstanceConverges(requests: iset<Request>, c: Cluster, ls: seq<Label>, k: nat, m: nat, q: nat, n: nat,
                               longest: int)
    requires KeyInjective(requests) && Asks(requests, ls, k)
    requires k < |c.nodes| && Staleness.Initial(c.nodes[k].inst) && WillHear(c)
    requires m <= q <= n < |ls| && NothingBreaks(c, ls, m) && forall i :: m <= i < n ==> !ls[i].Change?
    requires Handled(ClusterAt(c, ls, m), k)
    requires Staleness.AllStoredBy(c.nodes[k].inst, View(c, ls, k), m, q)
    requires forall i :: 0 <= i <= q ==> Staleness.StateAt(c.nodes[k].inst, View(c, ls, k), i).ttl <= longest
    requires
      Staleness.StateAt(c.nodes[k].inst, View(c, ls, k), n).now
      - Staleness.StateAt(c.nodes[k].inst, View(c, ls, k), q).now > longest
    requires Staleness.AnswerAt(c.nodes[k].inst, View(c, ls, k), n).Some?
    ensures
      var answer := Staleness.AnswerAt(c.nodes[k].inst, View(c, ls, k), n).value;
      answer.allowed == Decide(ClusterAt(c, ls, n).stored, answer.q)
  {
    hide Next, Enabled, Breaks, Busy, WillHear, NothingBreaks, ClusterAt, View, Staleness.AllStoredBy, Asks,
      KeyInjective, Staleness.Initial, Staleness.StateAt, Staleness.AnswerAt, Decide;
    ViewSize(c, ls, k);
    ViewIsRun(requests, c, ls, k);
    SettledOnceHandled(c, ls, m, k);
    var final := ClusterAt(c, ls, m).stored;
    forall i | m <= i <= n ensures Staleness.StateAt(c.nodes[k].inst, View(c, ls, k), i).loaded == final {
      StaysSettled(c, ls, m, i, k);
      SizeStays(c, ls, i);
      ViewReaches(c, ls, k, i);
    }
    StaysSettled(c, ls, m, n, k);
    Staleness.AnswersConverge(requests, c.nodes[k].inst, View(c, ls, k), m, q, n, final, longest);
  }

  lemma ViewSize(c: Cluster, ls: seq<Label>, k: nat)
    requires k < |c.nodes|
    ensures |View(c, ls, k)| == |ls|
  {
  }
}
