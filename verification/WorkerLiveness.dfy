// A worker that is not stopped and gets no new submissions finishes every job it has.

module WorkerLiveness {
  import opened Bags
  import opened WorkerProtocol
  import opened WorkerConservation
  import opened WorkerTermination

  /** Infinite runs: `ls(n)` is the n-th step. */
  ghost function RunAt(s: State, ls: nat -> Label, n: nat): State {
    if n == 0 then s
    else
      var before := RunAt(s, ls, n - 1);
      if Enabled(before, ls(n - 1)) then Next(before, ls(n - 1)) else before
  }

  function Prefix(ls: nat -> Label, n: nat): seq<Label> {
    seq(n, i requires 0 <= i < n => ls(i))
  }

  /** What a run has reached after n steps is what its first steps reach. */
  lemma {:induction false} RunIsItsPrefixes(s: State, ls: nat -> Label, k: nat, n: nat)
    requires k <= n
    ensures StateAt(s, Prefix(ls, n), k) == RunAt(s, ls, k)
  {
    hide Next, Enabled;
    if k > 0 {
      RunIsItsPrefixes(s, ls, k - 1, n);
    }
  }

  /** The worker's own moves, those of whoever stops it apart. */
  predicate Works(l: Label) {
    Moves(l) && !l.Stop? && !l.Cancel?
  }

  ghost predicate CanWork(s: State) {
    exists l :: Works(l) && Enabled(s, l)
  }

  ghost predicate ClockReaches(s: State, ls: nat -> Label, n: nat, instant: int) {
    exists m: nat :: n <= m && RunAt(s, ls, m).now >= instant
  }

  /** Some time after step n the worker moves, or is at a point where it cannot. */
  ghost predicate Served(s: State, ls: nat -> Label, n: nat, m: nat) {
    n <= m && (Works(ls(m)) || !CanWork(RunAt(s, ls, m)))
  }

  ghost predicate ServedAfter(s: State, ls: nat -> Label, n: nat) {
    exists m: nat :: Served(s, ls, n, m)
  }

  /** From step `from` on every step is the worker's own or the clock's, the clock passes every instant, and the worker
      is not kept for ever from a move it can make. */
  ghost predicate Fair(s: State, ls: nat -> Label, from: nat) {
    && Initial(s)
    && !Down(RunAt(s, ls, from))
    && (forall n: nat :: from <= n ==> Enabled(RunAt(s, ls, n), ls(n)) && (Works(ls(n)) || ls(n).Tick?))
    && (forall n: nat, instant: int :: ClockReaches(s, ls, n, instant))
    && (forall n: nat :: ServedAfter(s, ls, n))
  }

  lemma StepKeepsUp(s: State, l: Label)
    requires Enabled(s, l) && (Works(l) || l.Tick?)
    ensures Down(Next(s, l)) == Down(s)
  {
    hide KeyOf, LockFree, Backoffs.Backoff;
  }

  lemma FairStep(s: State, ls: nat -> Label, from: nat, n: nat)
    requires Fair(s, ls, from) && from <= n
    ensures RunAt(s, ls, n + 1) == Next(RunAt(s, ls, n), ls(n)) && Enabled(RunAt(s, ls, n), ls(n))
    ensures Works(ls(n)) || ls(n).Tick?
  {
  }

  lemma {:induction false} StaysUp(s: State, ls: nat -> Label, from: nat, n: nat)
    requires Fair(s, ls, from) && from <= n
    ensures !Down(RunAt(s, ls, n)) && LoopsUp(RunAt(s, ls, n))
  {
    hide Next, Enabled, LoopsUp, Initial;
    if n == from {
      RunIsItsPrefixes(s, ls, n, n);
      assert Initial(s);
      AlwaysUp(s, Prefix(ls, n), n);
    } else {
      StaysUp(s, ls, from, n - 1);
      FairStep(s, ls, from, n - 1);
      StepKeepsUp(RunAt(s, ls, n - 1), ls(n - 1));
      StepUp(RunAt(s, ls, n - 1), ls(n - 1));
    }
  }

  // ---- A worker that is not at rest moves ----

  /** Only time passes from m to n. */
  predicate OnlyTicks(ls: nat -> Label, m: nat, n: nat) {
    forall k: nat :: m <= k < n ==> ls(k).Tick?
  }

  lemma AfterTick(s: State, l: Label)
    requires Enabled(s, l) && l.Tick?
    ensures Next(s, l) == s.(now := s.now + l.elapsed)
  {
  }

  lemma {:induction false} TicksChangeTime(s: State, ls: nat -> Label, from: nat, m: nat, n: nat)
    requires Fair(s, ls, from) && from <= m <= n && OnlyTicks(ls, m, n)
    ensures RunAt(s, ls, n) == RunAt(s, ls, m).(now := RunAt(s, ls, n).now)
    ensures RunAt(s, ls, m).now <= RunAt(s, ls, n).now
    decreases n
  {
    hide RunAt, Next, Enabled, Fair;
    if m < n {
      TicksChangeTime(s, ls, from, m, n - 1);
      FairStep(s, ls, from, n - 1);
      AfterTick(RunAt(s, ls, n - 1), ls(n - 1));
    }
  }

  /** The passing of time disables no move of the worker. */
  lemma StaysEnabled(s: State, l: Label, now: int)
    requires Enabled(s, l) && Works(l) && s.now <= now
    ensures Enabled(s.(now := now), l)
  {
  }

  /** A step between m and n that is not the clock's. */
  lemma {:induction false} FirstMove(ls: nat -> Label, m: nat, n: nat) returns (k: nat)
    requires m <= n && !OnlyTicks(ls, m, n)
    ensures m <= k < n && !ls(k).Tick?
  {
    k :| m <= k < n && !ls(k).Tick?;
  }

  lemma WorkComes(s: State, ls: nat -> Label, from: nat, n: nat) returns (k: nat)
    requires Fair(s, ls, from) && from <= n && !AtRest(RunAt(s, ls, n))
    ensures n <= k && Works(ls(k))
  {
    hide RunAt, Next, Enabled, AtRest, LoopsUp, Down, Initial;
    StaysUp(s, ls, from, n);
    var here := RunAt(s, ls, n);
    var elapsed, l := NeverStuck(here);
    assert ClockReaches(s, ls, n, here.now + elapsed);
    var m: nat :| n <= m && RunAt(s, ls, m).now >= here.now + elapsed;
    assert ServedAfter(s, ls, m);
    var served: nat :| Served(s, ls, m, served);
    if OnlyTicks(ls, n, served) {
      MoveStillThere(s, ls, from, n, m, served, elapsed, l);
      k := served;
    } else {
      k := FirstMove(ls, n, served);
      FairStep(s, ls, from, k);
    }
  }

  lemma MoveStillThere(s: State, ls: nat -> Label, from: nat, n: nat, m: nat, served: nat, elapsed: nat, l: Label)
    requires Fair(s, ls, from) && from <= n <= m <= served && OnlyTicks(ls, n, served)
    requires RunAt(s, ls, m).now >= RunAt(s, ls, n).now + elapsed
    requires Enabled(Next(RunAt(s, ls, n), Tick(elapsed)), l) && Works(l)
    ensures CanWork(RunAt(s, ls, served))
  {
    hide RunAt, Initial;
    TicksChangeTime(s, ls, from, n, m);
    TicksChangeTime(s, ls, from, m, served);
    StaysEnabled(Next(RunAt(s, ls, n), Tick(elapsed)), l, RunAt(s, ls, served).now);
  }

  // ---- And moves only so often ----

  lemma {:induction false} MeasureFalls(s: State, ls: nat -> Label, from: nat, n: nat, k: nat)
    requires Fair(s, ls, from) && from <= n <= k
    ensures Measure(RunAt(s, ls, k)) <= Measure(RunAt(s, ls, n))
    decreases k
  {
    hide Measure, Next, Enabled, Moves, Initial;
    if n < k {
      MeasureFalls(s, ls, from, n, k - 1);
      FairStep(s, ls, from, k - 1);
      NotSubmits(ls(k - 1));
      StepMeasure(RunAt(s, ls, k - 1), ls(k - 1));
    }
  }

  lemma NotSubmits(l: Label)
    requires Works(l) || l.Tick?
    ensures !Submits(l) && (Works(l) ==> Moves(l))
  {
  }

  lemma {:induction false} RestComes(s: State, ls: nat -> Label, from: nat, n: nat) returns (m: nat)
    requires Fair(s, ls, from) && from <= n
    ensures n <= m && AtRest(RunAt(s, ls, m))
    decreases Measure(RunAt(s, ls, n))
  {
    hide RunAt, Measure, Next, Enabled, AtRest, Moves, Initial, Fair;
    if AtRest(RunAt(s, ls, n)) {
      m := n;
    } else {
      var k := WorkComes(s, ls, from, n);
      MeasureFalls(s, ls, from, n, k);
      FairStep(s, ls, from, k);
      NotSubmits(ls(k));
      StepMeasure(RunAt(s, ls, k), ls(k));
      m := RestComes(s, ls, from, k + 1);
    }
  }

  /** In every infinite fair run on an advancing clock, from the last submission on and with nobody stopping the worker,
      there comes a point at which every submitted job has finished, with exactly one recorded reason. */
  lemma EveryJobFinishes(s: State, ls: nat -> Label, from: nat)
    requires Fair(s, ls, from)
    ensures exists m: nat :: from <= m && AllFinished(RunAt(s, ls, m))
  {
    hide RunAt, StateAt, AtRest, Initial;
    var m := RestComes(s, ls, from, from);
    RunIsItsPrefixes(s, ls, m, m);
    RestMeansFinished(s, Prefix(ls, m), m);
    assert AllFinished(RunAt(s, ls, m));
  }

  ghost predicate AllFinished(s: State) {
    forall i :: 0 <= i < |s.submitted| ==> Sum(s.finished, DoneIs(IdentOf(s.submitted[i]))) == 1
  }

  // ---- Such runs exist ----

  /** Every other step is the clock's; in between the worker moves if it can. */
  ghost function Choice(s: State, n: nat): Label {
    if n % 2 == 1 && CanWork(s) then
      var l :| Works(l) && Enabled(s, l);
      l
    else Tick(1)
  }

  ghost function Busy(s: State, n: nat): State {
    if n == 0 then s
    else
      var before := Busy(s, n - 1);
      if Enabled(before, Choice(before, n - 1)) then Next(before, Choice(before, n - 1)) else before
  }

  ghost function BusyRun(s: State): nat -> Label {
    (n: nat) => Choice(Busy(s, n), n)
  }

  lemma {:induction false} BusyRunIs(s: State, n: nat)
    ensures RunAt(s, BusyRun(s), n) == Busy(s, n)
  {
    hide Enabled, Next, Choice;
    if n > 0 {
      BusyRunIs(s, n - 1);
    }
  }

  lemma {:induction false} BusyTime(s: State, n: nat)
    ensures Busy(s, n).now >= s.now + (n + 1) / 2
  {
    hide Enabled, Next, CanWork;
    if n > 0 {
      var before := Busy(s, n - 1);
      BusyTime(s, n - 1);
      ChoiceIsEnabled(before, n - 1);
      StepTime(before, Choice(before, n - 1));
      if (n - 1) % 2 == 0 {
        AfterTick(before, Choice(before, n - 1));
      }
    }
  }

  lemma ChoiceIsEnabled(s: State, n: nat)
    ensures Enabled(s, Choice(s, n)) && (Works(Choice(s, n)) || Choice(s, n).Tick?)
    ensures n % 2 == 1 ==> Works(Choice(s, n)) || !CanWork(s)
    ensures n % 2 == 0 ==> Choice(s, n) == Tick(1)
  {
  }

  /** From every initial state there is a fair run. */
  lemma FairRunsExist(s: State)
    requires Initial(s)
    ensures Fair(s, BusyRun(s), 0)
  {
    hide Enabled, Next, Choice, RunAt, Busy, CanWork;
    var ls := BusyRun(s);
    BusyRunIs(s, 0);
    assert RunAt(s, ls, 0) == s by {
      RunStarts(s, ls);
    }
    forall n: nat ensures Enabled(RunAt(s, ls, n), ls(n)) && (Works(ls(n)) || ls(n).Tick?) && ServedAfter(s, ls, n) {
      var m := if n % 2 == 1 then n else n + 1;
      BusyRunIs(s, n);
      BusyRunIs(s, m);
      ChoiceIsEnabled(Busy(s, n), n);
      ChoiceIsEnabled(Busy(s, m), m);
      assert Served(s, ls, n, m);
    }
    forall n: nat, instant: int ensures ClockReaches(s, ls, n, instant) {
      var m := if 2 * (instant - s.now) > n then 2 * (instant - s.now) else n;
      BusyRunIs(s, m);
      BusyTime(s, m);
    }
  }

  lemma RunStarts(s: State, ls: nat -> Label)
    ensures RunAt(s, ls, 0) == s
  {
  }
}
