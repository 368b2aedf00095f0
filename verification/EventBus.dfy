// internal/domain/webhook_events.go: the event bus as interleaved steps of publishers, subscribers and the dispatcher.
// A select over ready cases is a choice between steps. `since`, `accepted`, `finished` and `calls` are history.

module EventBusProtocol {
  import opened Wrappers
  import opened Events
  import opened Bags

  /** A goroutine that publishes: before the cancel check, or past it and about to send. */
  datatype Publisher = Ready | Passed(event: WebhookEvent)

  datatype Dispatcher =
    | NotStarted
    | Waiting
    | Received(event: WebhookEvent, draining: bool)
    | Calling(event: WebhookEvent, handlers: nat, next: nat, draining: bool)
    | Draining
    | Exited

  datatype Call = Call(handler: nat, event: WebhookEvent, panicked: bool)

  /** Handlers are known by their position; `since[h]` is how many events had been snapshotted when h subscribed. */
  datatype State = State(
    capacity: nat,
    since: seq<nat>,
    ch: seq<WebhookEvent>,
    started: bool,
    cancelled: bool,
    pubs: seq<Publisher>,
    disp: Dispatcher,
    accepted: seq<WebhookEvent>,
    finished: seq<WebhookEvent>,
    calls: seq<Call>)

  datatype Label =
    | Start
    | Subscribe
    | Check(p: nat, event: WebhookEvent)
    | Send(p: nat)
    | Cancel
    | Take
    | BeginDrain
    | Snapshot
    | CallNext(panics: bool)
    | Finish
    | Exit

  predicate Enabled(s: State, l: Label) {
    match l
    case Start => !s.started
    case Subscribe => true
    case Check(p, _) => p < |s.pubs| && s.pubs[p].Ready?
    case Send(p) => p < |s.pubs| && s.pubs[p].Passed?
    case Cancel => s.started
    case Take => (s.disp.Waiting? || s.disp.Draining?) && s.ch != []
    case BeginDrain => s.disp.Waiting? && s.cancelled
    case Snapshot => s.disp.Received?
    case CallNext(_) => s.disp.Calling? && s.disp.next < s.disp.handlers
    case Finish => s.disp.Calling? && s.disp.next >= s.disp.handlers
    case Exit => s.disp.Draining? && s.ch == []
  }

  predicate IsDispatch(l: Label) {
    l.Take? || l.BeginDrain? || l.Snapshot? || l.CallNext? || l.Finish? || l.Exit?
  }

  /** Events whose handlers have been snapshotted, in order. */
  function Snapshotted(s: State): seq<WebhookEvent> {
    s.finished + (if s.disp.Calling? then [s.disp.event] else [])
  }

  function Next(s: State, l: Label): State
    requires Enabled(s, l)
  {
    match l
    case Start => s.(started := true, disp := Waiting)
    case Subscribe => s.(since := s.since + [|Snapshotted(s)|])
    case Check(p, event) => if s.started && !s.cancelled then s.(pubs := s.pubs[p := Passed(event)]) else s
    case Send(p) =>
      if |s.ch| < s.capacity then
        s.(pubs := s.pubs[p := Ready], ch := s.ch + [s.pubs[p].event], accepted := s.accepted + [s.pubs[p].event])
      else s.(pubs := s.pubs[p := Ready])
    case Cancel => s.(cancelled := true)
    case Take => s.(disp := Received(s.ch[0], s.disp.Draining?), ch := s.ch[1..])
    case BeginDrain => s.(disp := Draining)
    case Snapshot => s.(disp := Calling(s.disp.event, |s.since|, 0, s.disp.draining))
    case CallNext(panics) =>
      s.(disp := s.disp.(next := s.disp.next + 1), calls := s.calls + [Call(s.disp.next, s.disp.event, panics)])
    case Finish =>
      s.(disp := if s.disp.draining then Draining else Waiting, finished := s.finished + [s.disp.event])
    case Exit => s.(disp := Exited)
  }

  datatype PublishError = BusNotStarted | ContextCancelled | ChannelFull

  /** What Publish returns at the step that ends it. */
  function PublishResult(s: State, l: Label): Option<Result<(), PublishError>> {
    match l
    case Check(_, _) =>
      if !s.started then Some(Err(BusNotStarted))
      else if s.cancelled then Some(Err(ContextCancelled)) else None
    case Send(_) => Some(if |s.ch| < s.capacity then Ok(()) else Err(ChannelFull))
    case _ => None
  }

  ghost predicate Initial(s: State) {
    && s.capacity > 0 && s.since == [] && s.ch == [] && !s.started && !s.cancelled
    && (forall p :: 0 <= p < |s.pubs| ==> s.pubs[p].Ready?)
    && s.disp.NotStarted? && s.accepted == [] && s.finished == [] && s.calls == []
  }

  /** A run is given by its labels; `ls(n)` is the n-th step. A step that is not enabled is skipped. */
  ghost function StateAt(s: State, ls: nat -> Label, n: nat): State {
    if n == 0 then s
    else
      var before := StateAt(s, ls, n - 1);
      if Enabled(before, ls(n - 1)) then Next(before, ls(n - 1)) else before
  }

  // ---- Conservation and order ----

  function InHand(d: Dispatcher): seq<WebhookEvent> {
    match d
    case Received(event, _) => [event]
    case Calling(event, _, _, _) => [event]
    case _ => []
  }

  ghost predicate Conserved(s: State) {
    && s.accepted == s.finished + InHand(s.disp) + s.ch
    && |s.ch| <= s.capacity
    && (s.cancelled ==> s.started)
    && (s.started <==> !s.disp.NotStarted?)
    && (s.disp.Draining? || s.disp.Exited? || ((s.disp.Received? || s.disp.Calling?) && s.disp.draining) ==>
          s.cancelled)
  }

  lemma StepConserves(s: State, l: Label)
    requires Conserved(s) && Enabled(s, l)
    ensures Conserved(Next(s, l))
  {
    match l
    case Take =>
      assert s.ch == [s.ch[0]] + s.ch[1..];
      assert s.finished + [] + s.ch == s.finished + [s.ch[0]] + s.ch[1..];
    case Finish => assert s.finished + [s.disp.event] + s.ch == (s.finished + [s.disp.event]) + [] + s.ch;
    case Send(p) =>
      assert s.finished + InHand(s.disp) + (s.ch + [s.pubs[p].event]) ==
             (s.finished + InHand(s.disp) + s.ch) + [s.pubs[p].event];
    case _ =>
  }

  /** In every reachable state the accepted events are, in order, those dispatched, the one in hand and those in the
      channel, and the channel is within its capacity. */
  lemma {:induction false} AlwaysConserved(s: State, ls: nat -> Label, n: nat)
    requires Initial(s)
    ensures Conserved(StateAt(s, ls, n))
  {
    if n > 0 {
      AlwaysConserved(s, ls, n - 1);
      if Enabled(StateAt(s, ls, n - 1), ls(n - 1)) {
        StepConserves(StateAt(s, ls, n - 1), ls(n - 1));
      }
    }
  }

  /** A failed Publish changes neither the channel nor what was accepted; a successful one appends its event to both. */
  lemma PublishOutcome(s: State, l: Label)
    requires Enabled(s, l) && PublishResult(s, l).Some?
    ensures PublishResult(s, l).value.Err? ==> Next(s, l).ch == s.ch && Next(s, l).accepted == s.accepted
    ensures PublishResult(s, l).value.Ok? ==>
      l.Send? && Next(s, l).ch == s.ch + [s.pubs[l.p].event] && Next(s, l).accepted == s.accepted + [s.pubs[l.p].event]
    ensures l.p < |Next(s, l).pubs| && Next(s, l).pubs[l.p].Ready?
  {
  }

  // ---- Delivery to each handler ----

  /** The events handler h was called with, in order. */
  function CallsOf(calls: seq<Call>, h: nat): seq<WebhookEvent> {
    if calls == [] then []
    else
      var last := calls[|calls| - 1];
      CallsOf(calls[..|calls| - 1], h) + (if last.handler == h then [last.event] else [])
  }

  /** What handler h must have been called with: everything snapshotted since it subscribed, short of the event in
      hand while h's turn has not come. */
  function Due(s: State, h: nat): seq<WebhookEvent>
    requires h < |s.since|
  {
    var from := if s.since[h] <= |s.finished| then s.finished[s.since[h]..] else [];
    if s.disp.Calling? && h < s.disp.next then from + [s.disp.event] else from
  }

  ghost predicate Delivered(s: State) {
    && (forall h :: 0 <= h < |s.since| ==> s.since[h] <= |Snapshotted(s)|)
    && (s.disp.Calling? ==>
          && s.disp.next <= s.disp.handlers <= |s.since|
          && forall h :: 0 <= h < |s.since| ==> (h < s.disp.handlers <==> s.since[h] <= |s.finished|))
    && (forall c :: 0 <= c < |s.calls| ==> s.calls[c].handler < |s.since|)
    && (forall h :: 0 <= h < |s.since| ==> CallsOf(s.calls, h) == Due(s, h))
  }

  lemma {:induction false} NoCallsYet(calls: seq<Call>, h: nat)
    requires forall c :: 0 <= c < |calls| ==> calls[c].handler < h
    ensures CallsOf(calls, h) == []
  {
    if calls != [] {
      NoCallsYet(calls[..|calls| - 1], h);
    }
  }

  lemma CallNextDelivers(s: State, l: Label)
    requires Delivered(s) && Enabled(s, l) && l.CallNext?
    ensures Delivered(Next(s, l))
  {
    var t := Next(s, l);
    assert t.calls[..|t.calls| - 1] == s.calls;
    forall h | 0 <= h < |t.since| ensures CallsOf(t.calls, h) == Due(t, h) {
      assert CallsOf(s.calls, h) == Due(s, h);
    }
  }

  lemma SubscribeDelivers(s: State)
    requires Delivered(s)
    ensures Delivered(s.(since := s.since + [|Snapshotted(s)|]))
  {
    var t := s.(since := s.since + [|Snapshotted(s)|]);
    NoCallsYet(s.calls, |s.since|);
    forall h | 0 <= h < |t.since| ensures CallsOf(t.calls, h) == Due(t, h) {
      if h < |s.since| {
        assert CallsOf(s.calls, h) == Due(s, h);
      }
    }
  }

  lemma SnapshotDelivers(s: State)
    requires Delivered(s) && s.disp.Received?
    ensures Delivered(s.(disp := Calling(s.disp.event, |s.since|, 0, s.disp.draining)))
  {
    hide CallsOf;
    var t := s.(disp := Calling(s.disp.event, |s.since|, 0, s.disp.draining));
    forall h | 0 <= h < |t.since| ensures CallsOf(t.calls, h) == Due(t, h) {
      assert CallsOf(s.calls, h) == Due(s, h);
    }
  }

  lemma FinishDelivers(s: State, d: Dispatcher)
    requires Delivered(s) && Enabled(s, Finish) && !d.Calling?
    ensures Delivered(s.(disp := d, finished := s.finished + [s.disp.event]))
  {
    hide CallsOf;
    var t := s.(disp := d, finished := s.finished + [s.disp.event]);
    forall h | 0 <= h < |t.since| ensures CallsOf(t.calls, h) == Due(t, h) {
      assert CallsOf(s.calls, h) == Due(s, h);
    }
  }

  /** Steps that touch neither handlers nor calls nor the event in hand. */
  lemma UnrelatedDelivers(s: State, t: State)
    requires Delivered(s) && t.since == s.since && t.calls == s.calls && t.finished == s.finished
    requires t.disp == s.disp || (!s.disp.Calling? && !t.disp.Calling?)
    ensures Delivered(t)
  {
    hide CallsOf;
    forall h | 0 <= h < |t.since| ensures CallsOf(t.calls, h) == Due(t, h) {
      assert CallsOf(s.calls, h) == Due(s, h);
    }
  }

  lemma StepDelivers(s: State, l: Label)
    requires Conserved(s) && Delivered(s) && Enabled(s, l)
    ensures Delivered(Next(s, l))
  {
    hide Delivered;
    match l
    case CallNext(_) => CallNextDelivers(s, l);
    case Subscribe => SubscribeDelivers(s);
    case Snapshot => SnapshotDelivers(s);
    case Finish => FinishDelivers(s, if s.disp.draining then Draining else Waiting);
    case _ => UnrelatedDelivers(s, Next(s, l));
  }

  lemma {:induction false} AlwaysDelivered(s: State, ls: nat -> Label, n: nat)
    requires Initial(s)
    ensures Delivered(StateAt(s, ls, n))
  {
    if n > 0 {
      AlwaysDelivered(s, ls, n - 1);
      AlwaysConserved(s, ls, n - 1);
      if Enabled(StateAt(s, ls, n - 1), ls(n - 1)) {
        StepDelivers(StateAt(s, ls, n - 1), ls(n - 1));
      }
    }
  }

  /** Between events, every handler has been called with exactly the events snapshotted since it subscribed, each once
      and in dispatch order, whichever handlers panicked. */
  lemma HandlerSeesItsEvents(s: State, ls: nat -> Label, n: nat, h: nat)
    requires Initial(s) && h < |StateAt(s, ls, n).since| && !StateAt(s, ls, n).disp.Calling?
    ensures
      var t := StateAt(s, ls, n);
      t.since[h] <= |t.finished| && CallsOf(t.calls, h) == t.finished[t.since[h]..]
  {
    AlwaysDelivered(s, ls, n);
    assert CallsOf(StateAt(s, ls, n).calls, h) == Due(StateAt(s, ls, n), h);
  }

  // ---- Shutdown ----

  function Carried(p: Publisher): multiset<WebhookEvent> {
    if p.Passed? then multiset{p.event} else multiset{}
  }

  /** Events of publishers that are past their cancel check. */
  ghost function PassedEvents(s: State): multiset<WebhookEvent> {
    Bag(s.pubs, Carried)
  }

  lemma SendTakesItsEvent(s: State, p: nat)
    requires p < |s.pubs| && s.pubs[p].Passed?
    ensures PassedEvents(s) == Bag(s.pubs[p := Ready], Carried) + multiset{s.pubs[p].event}
  {
    BagUpdate(s.pubs, p, Ready, Carried);
    assert Carried(Ready) == multiset{};
  }

  lemma PublishersStay(s: State, l: Label)
    requires Conserved(s) && Enabled(s, l) && s.cancelled && !l.Send?
    ensures Next(s, l).cancelled && Next(s, l).pubs == s.pubs
    ensures s.disp.Exited? ==> Next(s, l).disp.Exited? && Next(s, l).finished == s.finished && Next(s, l).ch == s.ch
  {
  }

  lemma SendAfterCancel(s: State, p: nat)
    requires Enabled(s, Send(p))
    ensures
      var t := Next(s, Send(p));
      && t.cancelled == s.cancelled && t.disp == s.disp && t.finished == s.finished
      && PassedEvents(t) <= PassedEvents(s)
      && multiset(t.ch) + PassedEvents(t) <= multiset(s.ch) + PassedEvents(s)
  {
    hide Bag, Carried;
    SendTakesItsEvent(s, p);
    assert multiset(s.ch + [s.pubs[p].event]) == multiset(s.ch) + multiset{s.pubs[p].event};
  }

  lemma StepAfterCancel(s: State, l: Label)
    requires Conserved(s) && Enabled(s, l) && s.cancelled
    ensures Next(s, l).cancelled
    ensures PassedEvents(Next(s, l)) <= PassedEvents(s)
    ensures s.disp.Exited? ==>
      && Next(s, l).disp.Exited? && Next(s, l).finished == s.finished
      && multiset(Next(s, l).ch) + PassedEvents(Next(s, l)) <= multiset(s.ch) + PassedEvents(s)
  {
    hide Next, Enabled, Conserved;
    if l.Send? {
      SendAfterCancel(s, l.p);
    } else {
      PublishersStay(s, l);
    }
  }

  lemma {:induction false} CancelIsFinal(s: State, ls: nat -> Label, c: nat, n: nat)
    requires Initial(s) && StateAt(s, ls, c).cancelled && c <= n
    ensures StateAt(s, ls, n).cancelled
    ensures PassedEvents(StateAt(s, ls, n)) <= PassedEvents(StateAt(s, ls, c))
  {
    if c < n {
      CancelIsFinal(s, ls, c, n - 1);
      AlwaysConserved(s, ls, n - 1);
      if Enabled(StateAt(s, ls, n - 1), ls(n - 1)) {
        StepAfterCancel(StateAt(s, ls, n - 1), ls(n - 1));
      }
    }
  }

  lemma {:induction false} ExitIsFinal(s: State, ls: nat -> Label, x: nat, n: nat)
    requires Initial(s) && StateAt(s, ls, x).cancelled && StateAt(s, ls, x).disp.Exited? && x <= n
    ensures
      var a, b := StateAt(s, ls, x), StateAt(s, ls, n);
      && b.disp.Exited? && b.finished == a.finished
      && multiset(b.ch) + PassedEvents(b) <= multiset(a.ch) + PassedEvents(a)
  {
    if x < n {
      ExitIsFinal(s, ls, x, n - 1);
      CancelIsFinal(s, ls, x, n - 1);
      AlwaysConserved(s, ls, n - 1);
      if Enabled(StateAt(s, ls, n - 1), ls(n - 1)) {
        StepAfterCancel(StateAt(s, ls, n - 1), ls(n - 1));
      }
    }
  }

  lemma LeftoverBound(exited: State, t: State, bound: multiset<WebhookEvent>)
    requires exited.ch == [] && PassedEvents(exited) <= bound
    requires multiset(t.ch) + PassedEvents(t) <= multiset(exited.ch) + PassedEvents(exited)
    ensures multiset(t.ch) <= bound
  {
    assert multiset(exited.ch) == multiset{};
    assert multiset(t.ch) <= multiset(t.ch) + PassedEvents(t);
  }

  ghost predicate StepIs(s: State, ls: nat -> Label, n: nat, l: Label) {
    ls(n) == l && Enabled(StateAt(s, ls, n), l)
  }

  lemma AtCancel(s: State, ls: nat -> Label, c: nat)
    requires StepIs(s, ls, c, Cancel)
    ensures StateAt(s, ls, c + 1).cancelled && PassedEvents(StateAt(s, ls, c + 1)) == PassedEvents(StateAt(s, ls, c))
  {
  }

  lemma AtExit(s: State, ls: nat -> Label, x: nat)
    requires Initial(s) && StepIs(s, ls, x, Exit)
    ensures
      var t := StateAt(s, ls, x + 1);
      t.disp.Exited? && t.ch == [] && t.accepted == t.finished && t.cancelled
  {
    AlwaysConserved(s, ls, x);
    AlwaysConserved(s, ls, x + 1);
    assert StateAt(s, ls, x + 1) == StateAt(s, ls, x).(disp := Exited);
  }

  lemma AfterExit(s: State, ls: nat -> Label, x: nat, n: nat)
    requires Initial(s) && StateAt(s, ls, x).disp.Exited? && x <= n
    ensures StateAt(s, ls, n).accepted == StateAt(s, ls, n).finished + StateAt(s, ls, n).ch
    ensures StateAt(s, ls, n).finished == StateAt(s, ls, x).finished
  {
    hide Next, Enabled, StateAt, PassedEvents;
    AlwaysConserved(s, ls, x);
    ExitIsFinal(s, ls, x, n);
    AlwaysConserved(s, ls, n);
  }

  /** When the dispatcher exits, the channel is empty and every event accepted so far was dispatched; whatever is left
      in the channel at any later time was published past the cancel check before the cancel. */
  lemma OnlyEarlierChecksAreLost(s: State, ls: nat -> Label, c: nat, x: nat, n: nat)
    requires Initial(s) && c < x < n && StepIs(s, ls, c, Cancel) && StepIs(s, ls, x, Exit)
    ensures StateAt(s, ls, x + 1).ch == []
    ensures StateAt(s, ls, x + 1).accepted == StateAt(s, ls, x + 1).finished
    ensures
      var t := StateAt(s, ls, n);
      && t.finished == StateAt(s, ls, x + 1).finished
      && t.accepted == t.finished + t.ch
      && multiset(t.ch) <= PassedEvents(StateAt(s, ls, c))
  {
    hide *;
    AtCancel(s, ls, c);
    AtExit(s, ls, x);
    CancelIsFinal(s, ls, c + 1, x + 1);
    ExitIsFinal(s, ls, x + 1, n);
    AfterExit(s, ls, x + 1, n);
    LeftoverBound(StateAt(s, ls, x + 1), StateAt(s, ls, n), PassedEvents(StateAt(s, ls, c)));
  }

  /** With nobody past the check at the cancel, nothing accepted is ever lost. */
  lemma QuietCancelLosesNothing(s: State, ls: nat -> Label, c: nat, x: nat, n: nat)
    requires Initial(s) && c < x < n && StepIs(s, ls, c, Cancel) && StepIs(s, ls, x, Exit)
    requires forall p :: 0 <= p < |StateAt(s, ls, c).pubs| ==> StateAt(s, ls, c).pubs[p].Ready?
    ensures StateAt(s, ls, n).accepted == StateAt(s, ls, n).finished
  {
    OnlyEarlierChecksAreLost(s, ls, c, x, n);
    NobodyPassed(StateAt(s, ls, c).pubs);
    var t := StateAt(s, ls, n);
    assert multiset(t.ch) == multiset{};
    assert |t.ch| == |multiset(t.ch)|;
  }

  lemma {:induction false} NobodyPassed(pubs: seq<Publisher>)
    requires forall p :: 0 <= p < |pubs| ==> pubs[p].Ready?
    ensures Bag(pubs, Carried) == multiset{}
  {
    if pubs != [] {
      NobodyPassed(pubs[1..]);
    }
  }

  // ---- The drain ends ----

  function PassWeight(p: Publisher): nat {
    if p.Passed? then 2 else 0
  }

  /** Events that may still reach the dispatcher. */
  ghost function Pending(s: State): nat {
    Sum(s.pubs, PassWeight) + |s.ch|
  }

  /** How far the dispatcher is from its exit, apart from events it may still take. */
  function Phase(d: Dispatcher): nat {
    match d
    case Received(_, draining) => if draining then 3 else 6
    case Calling(_, _, _, draining) => if draining then 2 else 5
    case Waiting => 4
    case Draining => 1
    case _ => 0
  }

  function CallsLeft(d: Dispatcher): nat {
    if d.Calling? && d.next < d.handlers then d.handlers - d.next else 0
  }

  /** Lexicographic comparison of (Pending, Phase, CallsLeft). */
  ghost predicate Closer(t: State, s: State) {
    || Pending(t) < Pending(s)
    || (Pending(t) == Pending(s) && Phase(t.disp) < Phase(s.disp))
    || (Pending(t) == Pending(s) && Phase(t.disp) == Phase(s.disp) && CallsLeft(t.disp) < CallsLeft(s.disp))
  }

  /** After a cancel every dispatcher step gets closer to the exit and no other step gets further from it. */
  lemma StepGetsCloser(s: State, l: Label)
    requires Conserved(s) && Enabled(s, l) && s.cancelled
    ensures IsDispatch(l) ==> Closer(Next(s, l), s)
    ensures !IsDispatch(l) ==>
      || Pending(Next(s, l)) < Pending(s)
      || (Pending(Next(s, l)) == Pending(s) && Next(s, l).disp == s.disp)
  {
    if l.Send? {
      SumUpdate(s.pubs, l.p, Ready, PassWeight);
    }
  }

  /** After a cancel the dispatcher can always move on until it has exited. */
  lemma DispatcherNeverStuck(s: State) returns (l: Label)
    requires Conserved(s) && s.cancelled && !s.disp.Exited?
    ensures Enabled(s, l) && IsDispatch(l)
  {
    match s.disp
    case Waiting => l := BeginDrain;
    case Received(_, _) => l := Snapshot;
    case Calling(_, handlers, next, _) => l := if next < handlers then CallNext(false) else Finish;
    case Draining => l := if s.ch == [] then Exit else Take;
  }

  ghost predicate IsTurn(s: State, ls: nat -> Label, n: nat, turn: nat) {
    n <= turn && (IsDispatch(ls(turn)) || StateAt(s, ls, turn).disp.Exited?)
  }

  ghost predicate TurnComes(s: State, ls: nat -> Label, n: nat) {
    exists turn: nat :: IsTurn(s, ls, n, turn)
  }

  /** Every step is enabled, and the dispatcher always gets another turn: no handler blocks for ever. */
  ghost predicate FairRun(s: State, ls: nat -> Label) {
    && Initial(s)
    && (forall n: nat :: Enabled(StateAt(s, ls, n), ls(n)))
    && (forall n: nat :: TurnComes(s, ls, n))
  }

  /** One step of a fair cancelled run. */
  lemma FairStep(s: State, ls: nat -> Label, n: nat)
    requires FairRun(s, ls) && StateAt(s, ls, n).cancelled
    ensures
      var here, there := StateAt(s, ls, n), StateAt(s, ls, n + 1);
      && there.cancelled
      && (IsDispatch(ls(n)) ==> Closer(there, here))
      && (!IsDispatch(ls(n)) ==>
            Pending(there) < Pending(here) || (Pending(there) == Pending(here) && there.disp == here.disp))
  {
    AlwaysConserved(s, ls, n);
    StepGetsCloser(StateAt(s, ls, n), ls(n));
    StepAfterCancel(StateAt(s, ls, n), ls(n));
  }

  lemma NextTurn(s: State, ls: nat -> Label, n: nat) returns (turn: nat)
    requires FairRun(s, ls)
    ensures IsTurn(s, ls, n, turn)
  {
    assert TurnComes(s, ls, n);
    turn :| IsTurn(s, ls, n, turn);
  }

  lemma {:induction false} ExitWithin(s: State, ls: nat -> Label, n: nat, turn: nat) returns (x: nat)
    requires FairRun(s, ls) && StateAt(s, ls, n).cancelled && IsTurn(s, ls, n, turn)
    ensures x >= n && StateAt(s, ls, x).disp.Exited?
    decreases Pending(StateAt(s, ls, n)), Phase(StateAt(s, ls, n).disp), CallsLeft(StateAt(s, ls, n).disp), turn - n
  {
    hide Next, Enabled, StateAt, Pending, Phase, CallsLeft, FairRun;
    if StateAt(s, ls, n).disp.Exited? {
      x := n;
    } else {
      FairStep(s, ls, n);
      var next := turn;
      if n == turn {
        next := NextTurn(s, ls, n + 1);
      }
      x := ExitWithin(s, ls, n + 1, next);
    }
  }

  /** A bus that is started, cancelled and drained, and subscribed to ever after. */
  function QuietRun(n: nat): Label {
    if n == 0 then Start
    else if n == 1 then Cancel
    else if n == 2 then BeginDrain
    else if n == 3 then Exit
    else Subscribe
  }

  lemma {:induction false} QuietRunExits(s: State, n: nat)
    requires Initial(s) && n >= 4
    ensures StateAt(s, QuietRun, n).disp.Exited? && StateAt(s, QuietRun, n).cancelled
  {
    if n == 4 {
      assert StateAt(s, QuietRun, 1) == Next(s, Start);
      assert StateAt(s, QuietRun, 2) == Next(Next(s, Start), Cancel);
      assert StateAt(s, QuietRun, 3) == Next(Next(Next(s, Start), Cancel), BeginDrain);
    } else {
      QuietRunExits(s, n - 1);
    }
  }

  /** Fair cancelled runs exist from every initial state. */
  lemma FairRunsExist(s: State)
    requires Initial(s)
    ensures FairRun(s, QuietRun) && StateAt(s, QuietRun, 4).cancelled
  {
    QuietRunExits(s, 4);
    forall n: nat ensures Enabled(StateAt(s, QuietRun, n), QuietRun(n)) {
      assert StateAt(s, QuietRun, 1) == Next(s, Start);
      assert StateAt(s, QuietRun, 2) == Next(Next(s, Start), Cancel);
      assert StateAt(s, QuietRun, 3) == Next(Next(Next(s, Start), Cancel), BeginDrain);
    }
    forall n: nat ensures TurnComes(s, QuietRun, n) {
      var turn := if n < 4 then 4 else n;
      QuietRunExits(s, turn);
      assert IsTurn(s, QuietRun, n, turn);
    }
  }

  /** In every fair infinite run that is cancelled, the dispatcher exits. */
  lemma DrainEnds(s: State, ls: nat -> Label, n: nat)
    requires FairRun(s, ls) && StateAt(s, ls, n).cancelled
    ensures exists x: nat :: x >= n && StateAt(s, ls, x).disp.Exited?
  {
    var turn := NextTurn(s, ls, n);
    var x := ExitWithin(s, ls, n, turn);
  }
}
