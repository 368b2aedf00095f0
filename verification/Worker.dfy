// internal/conversion/worker.go: the conversion worker as interleaved steps of submitters, the poller, the processing
// goroutines, the backoff goroutines and the enqueuer. Redis is a list, pushed and popped at its head, and a map of
// locks with an expiry instant; each Redis call is one step that may fail.

module WorkerProtocol {
  import opened Uuids
  import opened Backoffs

  const SECOND: int := 1_000_000_000
  const JOB_TTL: int := 3600 * SECOND
  const CHANNEL_SIZE: nat := 100

  /** A conversion job. `id` tells submissions apart, `first` is the attempt number at submission and `runs` counts how
      often the job was handed to handleJob; these three are history. */
  datatype Job = Job(media: Uuid, name: string, attempt: int, id: nat, first: int, runs: nat)

  /** A job together with the lock taken for it at instant `since`. */
  datatype Held = Held(job: Job, since: int)

  datatype Poller = PollIdle | Popped(job: Job) | Holding(held: Held) | PollGone

  /** A processing goroutine; a detached one was started by EnqueueSync and ends with its job. */
  datatype Proc = Free | Running(held: Held, detached: bool) | Releasing(held: Held, detached: bool) | Gone

  /** A goroutine sleeping out a backoff. */
  datatype Waiting = Waiting(job: Job, due: int, detached: bool)

  datatype Enqueuer = EnqIdle | Pushing(job: Job) | EnqGone

  datatype Reason = Completed | NoHandlerFound | RetriesExhausted | LockBusy | PushFailed | DecodeFailed | ShutDown

  datatype Done = Done(job: Job, reason: Reason)

  datatype State = State(
    now: int,
    maxRetries: int,
    queue: seq<Job>,
    locks: map<string, int>,
    poller: Poller,
    jobCh: seq<Held>,
    procs: seq<Proc>,
    backoffs: seq<Waiting>,
    enqueueCh: seq<Job>,
    enqueuer: Enqueuer,
    finished: seq<Done>,
    submitted: seq<Job>,
    stopped: bool,
    cancelled: bool)

  function LockKey(media: Uuid, name: string): string {
    "media:conversions:lock:" + Print(media) + ":" + name
  }

  function KeyOf(job: Job): string {
    LockKey(job.media, job.name)
  }

  datatype Label =
    | Tick(elapsed: nat)
    | SubmitAsync(job: Job, pushed: bool)
    | SubmitSync(job: Job, redisUp: bool)
    | Pop(decodes: bool)
    | Acquire(redisUp: bool)
    | Send
    | Abandon(deleted: bool)
    | PollExit
    | Receive(i: nat)
    | ProcExit(i: nat)
    | Succeed(i: nat)
    | NoHandler(i: nat)
    | Fail(i: nat)
    | Release(i: nat, deleted: bool)
    | BackoffSend(i: nat)
    | BackoffDrop(i: nat)
    | TakeEnqueue
    | Push(pushed: bool)
    | EnqExit
    | Stop
    | Cancel

  predicate LockFree(s: State, key: string) {
    key !in s.locks || s.locks[key] <= s.now
  }

  predicate IsFresh(s: State, job: Job) {
    job.runs == 0 && job.first == job.attempt && forall i :: 0 <= i < |s.submitted| ==> s.submitted[i].id != job.id
  }

  predicate Down(s: State) {
    s.stopped || s.cancelled
  }

  predicate Enabled(s: State, l: Label) {
    match l
    case Tick(_) => true
    case SubmitAsync(job, _) => IsFresh(s, job)
    case SubmitSync(job, _) => IsFresh(s, job)
    case Pop(_) => s.poller.PollIdle? && s.queue != []
    case Acquire(_) => s.poller.Popped?
    case Send => s.poller.Holding? && |s.jobCh| < CHANNEL_SIZE
    case Abandon(_) => s.poller.Holding? && s.cancelled
    case PollExit => s.poller.PollIdle? && Down(s)
    case Receive(i) => i < |s.procs| && s.procs[i].Free? && s.jobCh != []
    case ProcExit(i) => i < |s.procs| && s.procs[i].Free? && Down(s)
    case Succeed(i) => i < |s.procs| && s.procs[i].Running?
    case NoHandler(i) => i < |s.procs| && s.procs[i].Running?
    case Fail(i) => i < |s.procs| && s.procs[i].Running?
    case Release(i, _) => i < |s.procs| && s.procs[i].Releasing?
    case BackoffSend(i) => i < |s.backoffs| && s.backoffs[i].due <= s.now && |s.enqueueCh| < CHANNEL_SIZE
    case BackoffDrop(i) =>
      i < |s.backoffs| && s.backoffs[i].due <= s.now && (s.stopped || (s.cancelled && !s.backoffs[i].detached))
    case TakeEnqueue => s.enqueuer.EnqIdle? && s.enqueueCh != []
    case Push(_) => s.enqueuer.Pushing?
    case EnqExit => s.enqueuer.EnqIdle? && Down(s)
    case Stop => !s.stopped
    case Cancel => !s.cancelled
  }

  function Finish(s: State, job: Job, reason: Reason): State {
    s.(finished := s.finished + [Done(job, reason)])
  }

  function Lock(s: State, job: Job): State {
    s.(locks := s.locks[KeyOf(job) := s.now + JOB_TTL])
  }

  function Unlock(s: State, job: Job, deleted: bool): State {
    if deleted then s.(locks := s.locks - {KeyOf(job)}) else s
  }

  function Started(job: Job): Job {
    job.(runs := job.runs + 1)
  }

  function Retried(job: Job): Job {
    job.(attempt := job.attempt + 1)
  }

  function Ended(s: State, i: nat): State
    requires i < |s.procs| && s.procs[i].Running?
  {
    s.(procs := s.procs[i := Releasing(s.procs[i].held, s.procs[i].detached)])
  }

  function Next(s: State, l: Label): State
    requires Enabled(s, l)
  {
    match l
    case Tick(elapsed) => s.(now := s.now + elapsed)
    case SubmitAsync(job, pushed) =>
      var t := s.(submitted := s.submitted + [job]);
      if pushed then t.(queue := [job] + s.queue) else Finish(t, job, PushFailed)
    case SubmitSync(job, redisUp) =>
      var t := s.(submitted := s.submitted + [job]);
      if redisUp && LockFree(s, KeyOf(job)) then
        Lock(t, job).(procs := s.procs + [Running(Held(Started(job), s.now), true)])
      else Finish(t, job, LockBusy)
    case Pop(decodes) =>
      var t := s.(queue := s.queue[1..]);
      if decodes then t.(poller := Popped(s.queue[0])) else Finish(t, s.queue[0], DecodeFailed)
    case Acquire(redisUp) =>
      if redisUp && LockFree(s, KeyOf(s.poller.job)) then
        Lock(s, s.poller.job).(poller := Holding(Held(s.poller.job, s.now)))
      else Finish(s.(poller := PollIdle), s.poller.job, LockBusy)
    case Send => s.(jobCh := s.jobCh + [s.poller.held], poller := PollIdle)
    case Abandon(deleted) =>
      Finish(Unlock(s, s.poller.held.job, deleted).(poller := PollIdle), s.poller.held.job, ShutDown)
    case PollExit => s.(poller := PollGone)
    case Receive(i) =>
      s.(jobCh := s.jobCh[1..], procs := s.procs[i := Running(Held(Started(s.jobCh[0].job), s.jobCh[0].since), false)])
    case ProcExit(i) => s.(procs := s.procs[i := Gone])
    case Succeed(i) => Finish(Ended(s, i), s.procs[i].held.job, Completed)
    case NoHandler(i) => Finish(Ended(s, i), s.procs[i].held.job, NoHandlerFound)
    case Fail(i) =>
      var job := Retried(s.procs[i].held.job);
      if job.attempt >= s.maxRetries then Finish(Ended(s, i), job, RetriesExhausted)
      else
        var due := s.now + Backoff(job.attempt) * SECOND;
        Ended(s, i).(backoffs := s.backoffs + [Waiting(job, due, s.procs[i].detached)])
    case Release(i, deleted) =>
      Unlock(s, s.procs[i].held.job, deleted).(procs := s.procs[i := if s.procs[i].detached then Gone else Free])
    case BackoffSend(i) =>
      s.(backoffs := s.backoffs[..i] + s.backoffs[i + 1..], enqueueCh := s.enqueueCh + [s.backoffs[i].job])
    case BackoffDrop(i) => Finish(s.(backoffs := s.backoffs[..i] + s.backoffs[i + 1..]), s.backoffs[i].job, ShutDown)
    case TakeEnqueue => s.(enqueueCh := s.enqueueCh[1..], enqueuer := Pushing(s.enqueueCh[0]))
    case Push(pushed) =>
      var t := s.(enqueuer := EnqIdle);
      if pushed then t.(queue := [s.enqueuer.job] + s.queue) else Finish(t, s.enqueuer.job, PushFailed)
    case EnqExit => s.(enqueuer := EnqGone)
    case Stop => s.(stopped := true)
    case Cancel => s.(cancelled := true)
  }

  /** Jobs in Redis before the worker starts count as submissions; each is told apart and its history begins here. */
  predicate Unstarted(jobs: seq<Job>) {
    && (forall i :: 0 <= i < |jobs| ==> jobs[i].runs == 0 && jobs[i].first == jobs[i].attempt)
    && (forall i, j :: 0 <= i < j < |jobs| ==> jobs[i].id != jobs[j].id)
  }

  /** Redis outlives the worker: its list and locks may hold anything at the start. */
  ghost predicate Initial(s: State) {
    && s.submitted == s.queue && Unstarted(s.queue) && s.poller.PollIdle? && s.jobCh == []
    && s.procs != [] && (forall i :: 0 <= i < |s.procs| ==> s.procs[i].Free?)
    && s.backoffs == [] && s.enqueueCh == [] && s.enqueuer.EnqIdle?
    && s.finished == [] && !s.stopped && !s.cancelled
  }

  /** The state after the first n steps; a step that is not enabled is skipped. */
  function StateAt(s: State, ls: seq<Label>, n: nat): State
    requires n <= |ls|
  {
    if n == 0 then s
    else
      var before := StateAt(s, ls, n - 1);
      if Enabled(before, ls[n - 1]) then Next(before, ls[n - 1]) else before
  }
}
