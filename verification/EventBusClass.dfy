// internal/domain/webhook_events.go: EventBus as an object. Each method is shown to take the object along a run of the
// protocol's steps, so what holds of the protocol holds of the object between calls.

module EventBusObject {
  import opened Wrappers
  import opened Events
  import opened EventBusProtocol

  /** Following `ls` from s, every step enabled, ends in t. */
  ghost predicate Follows(s: State, ls: seq<Label>, t: State)
    decreases |ls|
  {
    if ls == [] then s == t else Enabled(s, ls[0]) && Follows(Next(s, ls[0]), ls[1..], t)
  }

  ghost predicate Reaches(s: State, t: State) {
    exists ls :: Follows(s, ls, t)
  }

  lemma ReachesSelf(s: State)
    ensures Reaches(s, s)
  {
    assert Follows(s, [], s);
  }

  lemma {:induction false} FollowsStep(s: State, ls: seq<Label>, t: State, l: Label)
    requires Follows(s, ls, t) && Enabled(t, l)
    ensures Follows(s, ls + [l], Next(t, l))
    decreases |ls|
  {
    if ls == [] {
      assert [l][1..] == [];
      assert ls + [l] == [l];
    } else {
      FollowsStep(Next(s, ls[0]), ls[1..], t, l);
      assert (ls + [l])[1..] == ls[1..] + [l];
    }
  }

  lemma ReachesStep(s: State, t: State, l: Label)
    requires Reaches(s, t) && Enabled(t, l)
    ensures Reaches(s, Next(t, l))
  {
    var ls :| Follows(s, ls, t);
    FollowsStep(s, ls, t, l);
  }

  lemma {:induction false} FollowsKeeps(s: State, ls: seq<Label>, t: State)
    requires Conserved(s) && Delivered(s) && Follows(s, ls, t)
    ensures Conserved(t) && Delivered(t)
    decreases |ls|
  {
    if ls != [] {
      StepConserves(s, ls[0]);
      StepDelivers(s, ls[0]);
      FollowsKeeps(Next(s, ls[0]), ls[1..], t);
    }
  }

  /** Conservation and delivery hold along every run. */
  lemma ReachesKeeps(s: State, t: State)
    requires Conserved(s) && Delivered(s) && Reaches(s, t)
    ensures Conserved(t) && Delivered(t)
  {
    var ls :| Follows(s, ls, t);
    FollowsKeeps(s, ls, t);
  }

  /** One call of each handler from `first` on, all with the same event. */
  ghost predicate FanOut(calls: seq<Call>, event: WebhookEvent, first: nat) {
    forall i :: 0 <= i < |calls| ==> calls[i].handler == first + i && calls[i].event == event
  }

  const DEFAULT_BUFFER: int := 256

  class EventBus {
    var buffer: int
    var handlers: seq<nat>
    var ch: seq<WebhookEvent>
    var started: bool
    var cancelled: bool
    var calls: seq<Call>
    /** Where the dispatch goroutine stands. */
    var disp: Dispatcher
    ghost var since: seq<nat>
    ghost var accepted: seq<WebhookEvent>
    ghost var finished: seq<WebhookEvent>

    /** The object as a protocol state with one publisher, the caller. */
    ghost function View(): State
      reads this
    {
      State(if buffer >= 0 then buffer else 0, since, ch, started, cancelled, [Ready], disp, accepted, finished, calls)
    }

    ghost predicate Valid()
      reads this
    {
      && buffer > 0 && |since| == |handlers|
      && Conserved(View()) && Delivered(View())
    }

    constructor (bufferSize: int)
      ensures Valid() && Initial(View())
      ensures buffer == if bufferSize <= 0 then 256 else bufferSize
    {
      buffer := if bufferSize <= 0 then DEFAULT_BUFFER else bufferSize;
      handlers, ch, calls := [], [], [];
      started, cancelled := false, false;
      disp, since, accepted, finished := NotStarted, [], [], [];
    }

    method Start()
      requires Valid() && !started
      modifies this
      ensures Valid() && handlers == old(handlers)
      ensures View() == Next(old(View()), EventBusProtocol.Start)
    {
      StepConserves(View(), EventBusProtocol.Start);
      StepDelivers(View(), EventBusProtocol.Start);
      started := true;
      disp := Waiting;
    }

    method Subscribe(handler: nat)
      requires Valid()
      modifies this
      ensures Valid() && handlers == old(handlers) + [handler]
      ensures View() == Next(old(View()), EventBusProtocol.Subscribe)
    {
      StepConserves(View(), EventBusProtocol.Subscribe);
      StepDelivers(View(), EventBusProtocol.Subscribe);
      since := since + [|Snapshotted(View())|];
      handlers := handlers + [handler];
    }

    /** Never blocks: the event is queued, or one of the three errors is returned and nothing changes. */
    method Publish(event: WebhookEvent) returns (r: Result<(), PublishError>)
      requires Valid()
      modifies this
      ensures Valid() && Reaches(old(View()), View()) && handlers == old(handlers)
      ensures r == if !old(started) then Err(BusNotStarted)
                   else if old(cancelled) then Err(ContextCancelled)
                   else if |old(ch)| >= buffer then Err(ChannelFull) else Ok(())
      ensures r.Ok? ==> View() == old(View()).(ch := old(ch) + [event], accepted := old(accepted) + [event])
      ensures r.Err? ==> View() == old(View())
    {
      ghost var s := View();
      ReachesSelf(s);
      if !started {
        return Err(BusNotStarted);
      }
      if cancelled {
        return Err(ContextCancelled);
      }
      ghost var passed := Next(s, Check(0, event));
      ReachesStep(s, s, Check(0, event));
      ReachesStep(s, passed, Send(0));
      ReachesKeeps(s, Next(passed, Send(0)));
      assert [Ready][0 := Passed(event)][0 := Ready] == [Ready];
      if |ch| < buffer {
        ch := ch + [event];
        accepted := accepted + [event];
        return Ok(());
      } else {
        return Err(ChannelFull);
      }
    }

    /** Calls every handler subscribed at the snapshot, in order; a panic is recovered and the loop goes on. */
    method CallHandlers(event: WebhookEvent)
      requires Valid() && disp.Received? && disp.event == event
      modifies this`calls, this`disp
      ensures Valid() && Reaches(old(View()), View())
      ensures disp == Calling(event, |handlers|, |handlers|, old(disp).draining)
      ensures old(calls) <= calls && |calls| == |old(calls)| + |handlers|
      ensures FanOut(calls[|old(calls)|..], event, 0)
    {
      ghost var s := View();
      ReachesSelf(s);
      ReachesStep(s, s, Snapshot);
      disp := Calling(event, |handlers|, 0, disp.draining);
      ReachesKeeps(s, View());
      ghost var here := View();
      CallRest();
      ReachesCompose(s, here, View());
    }

    /** The handler calls that are left of a fan-out. */
    method CallRest()
      requires Valid() && disp.Calling?
      modifies this`calls, this`disp
      ensures Valid() && Reaches(old(View()), View())
      ensures disp == old(disp).(next := old(disp).handlers)
      ensures old(calls) <= calls && |calls| == |old(calls)| + old(disp).handlers - old(disp).next
      ensures FanOut(calls[|old(calls)|..], disp.event, old(disp).next)
    {
      ghost var s := View();
      ReachesSelf(s);
      var event, last := disp.event, disp.handlers;
      for h := disp.next to last
        invariant disp == s.disp.(next := h)
        invariant Reaches(s, View())
        invariant old(calls) <= calls && |calls| == |old(calls)| + h - s.disp.next
        invariant FanOut(calls[|old(calls)|..], event, s.disp.next)
      {
        var panicked: bool := *;
        ReachesStep(s, View(), CallNext(panicked));
        calls := calls + [Call(h, event, panicked)];
        disp := disp.(next := h + 1);
        assert calls[|old(calls)|..][h - s.disp.next] == Call(h, event, panicked);
      }
      ReachesKeeps(s, View());
    }

    /** One round of the dispatch loop that receives an event. */
    method DispatchOne()
      requires Valid() && (disp.Waiting? || disp.Draining?) && ch != []
      modifies this`calls, this`disp, this`ch, this`finished
      ensures Valid() && Reaches(old(View()), View())
      ensures disp == old(disp) && ch == old(ch)[1..] && finished == old(finished) + [old(ch)[0]]
    {
      ghost var s := View();
      ReachesSelf(s);
      ReachesStep(s, s, Take);
      var event := ch[0];
      disp := Received(event, disp.Draining?);
      ch := ch[1..];
      ReachesKeeps(s, View());
      label received:
      CallHandlers(event);
      ReachesCompose(s, old@received(View()), View());
      ReachesStep(s, View(), Finish);
      finished := finished + [event];
      disp := if disp.draining then Draining else Waiting;
      ReachesKeeps(s, View());
    }

    /** The inner loop of the dispatcher after a cancel. */
    method Drain()
      requires Valid() && disp.Draining?
      modifies this`calls, this`disp, this`ch, this`finished
      ensures Valid() && Reaches(old(View()), View())
      ensures disp.Draining? && ch == [] && finished == old(finished) + old(ch)
    {
      ghost var s := View();
      ReachesSelf(s);
      while ch != []
        invariant Valid() && Reaches(s, View()) && disp.Draining?
        invariant finished + ch == old(finished) + old(ch)
        decreases |ch|
      {
        ghost var here := View();
        assert finished + ch == (finished + [ch[0]]) + ch[1..];
        DispatchOne();
        ReachesCompose(s, here, View());
      }
    }

    /** Cancels and waits for the dispatcher, wherever it stands: it finishes the event in hand, drains the channel and
        exits, and everything accepted has been dispatched. A bus not started, or stopped before, is left as it is. */
    method Stop()
      requires Valid()
      modifies this
      ensures Valid() && Reaches(old(View()), View()) && handlers == old(handlers)
      ensures !old(started) || old(disp).Exited? ==> View() == old(View())
      ensures old(started) ==> disp.Exited? && cancelled
      ensures old(started) && !old(disp).Exited? ==> ch == [] && finished == accepted == old(accepted)
    {
      ghost var s := View();
      ReachesSelf(s);
      if !started || disp.Exited? {
        return;
      }
      ReachesStep(s, s, Cancel);
      cancelled := true;
      ReachesKeeps(s, View());
      ghost var here := View();
      FinishInHand();
      ReachesCompose(s, here, View());
      here := View();
      DrainAndExit();
      ReachesCompose(s, here, View());
    }

    method DrainAndExit()
      requires Valid() && cancelled && (disp.Waiting? || disp.Draining?)
      modifies this`calls, this`disp, this`ch, this`finished
      ensures Valid() && Reaches(old(View()), View())
      ensures disp.Exited? && ch == [] && finished == old(finished) + old(ch)
    {
      ghost var s := View();
      ReachesSelf(s);
      if disp.Waiting? {
        ReachesStep(s, s, BeginDrain);
        disp := Draining;
        ReachesKeeps(s, View());
      }
      ghost var here := View();
      Drain();
      ReachesCompose(s, here, View());
      ReachesStep(s, View(), Exit);
      disp := Exited;
      ReachesKeeps(s, View());
    }

    /** Lets the dispatcher complete the event it has taken from the channel, if any. */
    method FinishInHand()
      requires Valid() && started && !disp.Exited?
      modifies this`calls, this`disp, this`finished
      ensures Valid() && Reaches(old(View()), View())
      ensures (disp.Waiting? || disp.Draining?) && finished + ch == accepted
    {
      ghost var s := View();
      ReachesSelf(s);
      if disp.Received? {
        CallHandlers(disp.event);
      } else if disp.Calling? {
        CallRest();
      }
      if disp.Calling? {
        ReachesStep(s, View(), Finish);
        finished := finished + [disp.event];
        disp := if disp.draining then Draining else Waiting;
        ReachesKeeps(s, View());
      }
    }
  }

  lemma {:induction false} FollowsConcat(s: State, ls: seq<Label>, t: State, ms: seq<Label>, u: State)
    requires Follows(s, ls, t) && Follows(t, ms, u)
    ensures Follows(s, ls + ms, u)
    decreases |ls|
  {
    if ls == [] {
      assert ls + ms == ms;
    } else {
      assert (ls + ms)[1..] == ls[1..] + ms;
      FollowsConcat(Next(s, ls[0]), ls[1..], t, ms, u);
    }
  }

  lemma ReachesCompose(s: State, t: State, u: State)
    requires Reaches(s, t) && Reaches(t, u)
    ensures Reaches(s, u)
  {
    var ls :| Follows(s, ls, t);
    var ms :| Follows(t, ms, u);
    FollowsConcat(s, ls, t, ms, u);
  }
}
