// The worker's two channels keep the order of what is sent through them.

module WorkerOrder {
  import opened WorkerProtocol

  /** What the n-th step sends into jobCh, and what it takes out of it, by the jobs' ids. */
  function SentBy(s: State, l: Label): seq<nat> {
    if Enabled(s, l) && l.Send? then [s.poller.held.job.id] else []
  }

  function ReceivedBy(s: State, l: Label): seq<nat> {
    if Enabled(s, l) && l.Receive? then
      var p := Next(s, l).procs[l.i];
      if p.Running? then [p.held.job.id] else []
    else []
  }

  function Sent(s: State, ls: seq<Label>, n: nat): seq<nat>
    requires n <= |ls|
  {
    if n == 0 then [] else Sent(s, ls, n - 1) + SentBy(StateAt(s, ls, n - 1), ls[n - 1])
  }

  function Received(s: State, ls: seq<Label>, n: nat): seq<nat>
    requires n <= |ls|
  {
    if n == 0 then [] else Received(s, ls, n - 1) + ReceivedBy(StateAt(s, ls, n - 1), ls[n - 1])
  }

  function HeldIds(hs: seq<Held>): seq<nat> {
    seq(|hs|, i requires 0 <= i < |hs| => hs[i].job.id)
  }

  lemma SendOrder(s: State)
    requires Enabled(s, Send)
    ensures HeldIds(Next(s, Send).jobCh) == HeldIds(s.jobCh) + [s.poller.held.job.id]
  {
  }

  lemma ReceiveOrder(s: State, i: nat)
    requires Enabled(s, Receive(i))
    ensures HeldIds(s.jobCh) == ReceivedBy(s, Receive(i)) + HeldIds(Next(s, Receive(i)).jobCh)
  {
  }

  lemma JobChUntouched(s: State, l: Label)
    requires Enabled(s, l) && !l.Send? && !l.Receive?
    ensures Next(s, l).jobCh == s.jobCh
  {
    hide KeyOf, LockFree, Backoffs.Backoff;
  }

  /** What has been sent into jobCh is, in order, what has been received from it and what it still holds. */
  lemma {:induction false} JobChKeepsOrder(s: State, ls: seq<Label>, n: nat)
    requires Initial(s) && n <= |ls|
    ensures Sent(s, ls, n) == Received(s, ls, n) + HeldIds(StateAt(s, ls, n).jobCh)
  {
    hide Next, HeldIds, Initial;
    if n == 0 {
      NoJobsAtFirst(s);
    } else {
      JobChKeepsOrder(s, ls, n - 1);
      var before, l := StateAt(s, ls, n - 1), ls[n - 1];
      if Enabled(before, l) {
        if l.Send? {
          SendOrder(before);
        } else if l.Receive? {
          ReceiveOrder(before, l.i);
        } else {
          JobChUntouched(before, l);
        }
      }
    }
  }

  lemma NoJobsAtFirst(s: State)
    requires Initial(s)
    ensures HeldIds(s.jobCh) == [] && JobIds(s.enqueueCh) == []
  {
  }

  // ---- enqueueCh ----

  function JobIds(jobs: seq<Job>): seq<nat> {
    seq(|jobs|, i requires 0 <= i < |jobs| => jobs[i].id)
  }

  function ReturnedBy(s: State, l: Label): seq<nat> {
    if Enabled(s, l) && l.BackoffSend? then [s.backoffs[l.i].job.id] else []
  }

  function TakenBy(s: State, l: Label): seq<nat> {
    if Enabled(s, l) && l.TakeEnqueue? then
      var e := Next(s, l).enqueuer;
      if e.Pushing? then [e.job.id] else []
    else []
  }

  function Returned(s: State, ls: seq<Label>, n: nat): seq<nat>
    requires n <= |ls|
  {
    if n == 0 then [] else Returned(s, ls, n - 1) + ReturnedBy(StateAt(s, ls, n - 1), ls[n - 1])
  }

  function Taken(s: State, ls: seq<Label>, n: nat): seq<nat>
    requires n <= |ls|
  {
    if n == 0 then [] else Taken(s, ls, n - 1) + TakenBy(StateAt(s, ls, n - 1), ls[n - 1])
  }

  lemma ReturnOrder(s: State, i: nat)
    requires Enabled(s, BackoffSend(i))
    ensures JobIds(Next(s, BackoffSend(i)).enqueueCh) == JobIds(s.enqueueCh) + [s.backoffs[i].job.id]
  {
  }

  lemma TakeOrder(s: State)
    requires Enabled(s, TakeEnqueue)
    ensures JobIds(s.enqueueCh) == TakenBy(s, TakeEnqueue) + JobIds(Next(s, TakeEnqueue).enqueueCh)
  {
  }

  lemma EnqueueChUntouched(s: State, l: Label)
    requires Enabled(s, l) && !l.BackoffSend? && !l.TakeEnqueue?
    ensures Next(s, l).enqueueCh == s.enqueueCh
  {
    hide KeyOf, LockFree, Backoffs.Backoff;
  }

  /** Retries come out of enqueueCh in the order in which their backoffs sent them. */
  lemma {:induction false} EnqueueChKeepsOrder(s: State, ls: seq<Label>, n: nat)
    requires Initial(s) && n <= |ls|
    ensures Returned(s, ls, n) == Taken(s, ls, n) + JobIds(StateAt(s, ls, n).enqueueCh)
  {
    hide Next, JobIds, Initial;
    if n == 0 {
      NoJobsAtFirst(s);
    } else {
      EnqueueChKeepsOrder(s, ls, n - 1);
      var before, l := StateAt(s, ls, n - 1), ls[n - 1];
      if Enabled(before, l) {
        if l.BackoffSend? {
          ReturnOrder(before, l.i);
        } else if l.TakeEnqueue? {
          TakeOrder(before);
        } else {
          EnqueueChUntouched(before, l);
        }
      }
    }
  }
}
