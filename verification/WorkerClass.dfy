// internal/conversion/worker.go: the worker as an object. Every method takes the object along the protocol's own steps.

module WorkerObject {
  import opened Backoffs
  import opened Uuids
  import opened WorkerProtocol
  import opened WorkerConservation
  import opened WorkerExclusion

  /** The data the worker keeps in Redis: the job list, and the locks with their expiry instants. */
  class Redis {
    var queue: seq<Job>
    var locks: map<string, int>

    constructor ()
      ensures queue == [] && locks == map[]
    {
      queue := [];
      locks := map[];
    }

    method SetNX(key: string, now: int, ttl: int, up: bool) returns (ok: bool)
      modifies this`locks
      ensures ok == (up && (key !in old(locks) || old(locks)[key] <= now))
      ensures locks == if ok then old(locks)[key := now + ttl] else old(locks)
    {
      ok := up && (key !in locks || locks[key] <= now);
      if ok {
        locks := locks[key := now + ttl];
      }
    }

    method Del(key: string, up: bool)
      modifies this`locks
      ensures locks == if up then old(locks) - {key} else old(locks)
    {
      if up {
        locks := locks - {key};
      }
    }

    method LPush(job: Job, up: bool) returns (ok: bool)
      modifies this`queue
      ensures ok == up && queue == if ok then [job] + old(queue) else old(queue)
    {
      ok := up;
      if ok {
        queue := [job] + queue;
      }
    }
  }

  /** How handleJob's work on a job ends. */
  datatype Outcome = Converted | Unsupported | Failed

  function EndLabel(outcome: Outcome, i: nat): Label {
    match outcome
    case Converted => Succeed(i)
    case Unsupported => NoHandler(i)
    case Failed => Fail(i)
  }

  /** What the end of the i-th goroutine's job leaves: a success or an unsupported type finishes it, and a failure puts
      it into a backoff for its next attempt, or finishes it at the retry limit. */
  ghost predicate Ending(s: State, i: nat, outcome: Outcome, finished: seq<Done>, backoffs: seq<Waiting>)
    requires i < |s.procs| && s.procs[i].Running?
  {
    var job := s.procs[i].held.job;
    var next := job.(attempt := job.attempt + 1);
    match outcome
    case Converted => finished == s.finished + [Done(job, Completed)] && backoffs == s.backoffs
    case Unsupported => finished == s.finished + [Done(job, NoHandlerFound)] && backoffs == s.backoffs
    case Failed =>
      if job.attempt + 1 < s.maxRetries then
        var due := s.now + Backoff(job.attempt + 1) * 1_000_000_000;
        finished == s.finished && backoffs == s.backoffs + [Waiting(next, due, s.procs[i].detached)]
      else finished == s.finished + [Done(next, RetriesExhausted)] && backoffs == s.backoffs
  }

  /** One call of pollQueue, as protocol steps: pop, acquire, send. With a full channel and a live context it ends at
      the blocked send; `gaveUp` says which ready case of that select was taken. */
  function PollRound(s: State, decodes: bool, redisUp: bool, gaveUp: bool, deleted: bool): State
    requires s.poller.PollIdle?
  {
    if s.queue == [] then s
    else
      var popped := Next(s, Pop(decodes));
      if !popped.poller.Popped? then popped
      else
        var acquired := Next(popped, Acquire(redisUp));
        if acquired.poller.Holding? then HandOver(acquired, gaveUp, deleted) else acquired
  }

  function HandOver(s: State, gaveUp: bool, deleted: bool): State
    requires s.poller.Holding?
  {
    if s.cancelled && (gaveUp || |s.jobCh| >= CHANNEL_SIZE) then Next(s, Abandon(deleted))
    else if |s.jobCh| < CHANNEL_SIZE then Next(s, Send)
    else s
  }

  function SubmitLabel(job: Job, small: bool, redisUp: bool): Label {
    if small then SubmitSync(job, redisUp) else SubmitAsync(job, redisUp)
  }

  class Worker {
    const redis: Redis
    const maxRetries: int
    var now: int
    var jobCh: seq<Held>
    var enqueueCh: seq<Job>
    var stopped: bool
    var cancelled: bool
    /** Where the goroutines stand, and the history. */
    var poller: Poller
    var procs: seq<Proc>
    var backoffs: seq<Waiting>
    var enqueuer: Enqueuer
    var finished: seq<Done>
    var submitted: seq<Job>

    ghost function View(): State
      reads this, redis
    {
      State(now, maxRetries, redis.queue, redis.locks, poller, jobCh, procs, backoffs, enqueueCh, enqueuer, finished,
            submitted, stopped, cancelled)
    }

    constructor (redis: Redis, maxRetries: int, workerCount: int, now: int)
      requires Unstarted(redis.queue)
      ensures Initial(View()) && this.redis == redis && this.now == now
      ensures this.maxRetries == if maxRetries == 0 then MAX_RETRIES else maxRetries
      ensures |procs| == if workerCount <= 0 then 3 else workerCount
    {
      this.redis := redis;
      this.maxRetries := if maxRetries == 0 then MAX_RETRIES else maxRetries;
      this.now := now;
      jobCh, enqueueCh, stopped, cancelled := [], [], false, false;
      poller, enqueuer, backoffs, finished, submitted := PollIdle, EnqIdle, [], [], redis.queue;
      procs := seq(if workerCount <= 0 then 3 else workerCount, _ => Free);
    }

    method AcquireLock(job: Job, redisUp: bool) returns (ok: bool)
      modifies redis`locks
      ensures ok == (redisUp && LockFree(old(View()), KeyOf(job)))
      ensures View() == if ok then Lock(old(View()), job) else old(View())
      ensures redis.locks == if ok then old(redis.locks)[KeyOf(job) := now + 3_600_000_000_000] else old(redis.locks)
    {
      ok := redis.SetNX(KeyOf(job), now, JOB_TTL, redisUp);
    }

    method ReleaseLock(job: Job, deleted: bool)
      modifies redis`locks
      ensures View() == Unlock(old(View()), job, deleted)
      ensures redis.locks == if deleted then old(redis.locks) - {KeyOf(job)} else old(redis.locks)
    {
      redis.Del(KeyOf(job), deleted);
    }

    method PopJob(decodes: bool)
      requires poller.PollIdle? && redis.queue != []
      modifies this`poller, this`finished, redis`queue
      ensures View() == Next(old(View()), Pop(decodes))
    {
      var job := redis.queue[0];
      redis.queue := redis.queue[1..];
      if decodes {
        poller := Popped(job);
      } else {
        finished := finished + [Done(job, DecodeFailed)];
      }
    }

    method TakeLock(redisUp: bool)
      requires poller.Popped?
      modifies this`poller, this`finished, redis`locks
      ensures View() == Next(old(View()), Acquire(redisUp))
    {
      var job := poller.job;
      var ok := AcquireLock(job, redisUp);
      if ok {
        poller := Holding(Held(job, now));
      } else {
        finished := finished + [Done(job, LockBusy)];
        poller := PollIdle;
      }
    }

    method SendJob(gaveUp: bool, deleted: bool)
      requires poller.Holding?
      modifies this`poller, this`jobCh, this`finished, redis`locks
      ensures View() == HandOver(old(View()), gaveUp, deleted)
      ensures |old(jobCh)| < 100 && !(cancelled && gaveUp) ==>
        && jobCh == old(jobCh) + [old(poller).held] && poller == PollIdle
        && finished == old(finished) && redis.locks == old(redis.locks)
      ensures cancelled && (gaveUp || |old(jobCh)| >= 100) ==>
        && jobCh == old(jobCh) && poller == PollIdle
        && finished == old(finished) + [Done(old(poller).held.job, ShutDown)]
        && redis.locks == if deleted then old(redis.locks) - {KeyOf(old(poller).held.job)} else old(redis.locks)
      ensures !cancelled && |old(jobCh)| >= 100 ==> View() == old(View())
    {
      var held := poller.held;
      if cancelled && (gaveUp || |jobCh| >= CHANNEL_SIZE) {
        ReleaseLock(held.job, deleted);
        finished := finished + [Done(held.job, ShutDown)];
        poller := PollIdle;
      } else if |jobCh| < CHANNEL_SIZE {
        jobCh := jobCh + [held];
        poller := PollIdle;
      }
    }

    method PollQueue(decodes: bool, redisUp: bool, gaveUp: bool, deleted: bool)
      requires poller.PollIdle?
      modifies this`poller, this`jobCh, this`finished, redis
      ensures View() == PollRound(old(View()), decodes, redisUp, gaveUp, deleted)
      ensures old(redis.queue) == [] ==> View() == old(View())
      ensures old(redis.queue) != [] ==> redis.queue == old(redis.queue)[1..]
      ensures old(redis.queue) != [] && !decodes ==>
        && finished == old(finished) + [Done(old(redis.queue)[0], DecodeFailed)]
        && jobCh == old(jobCh) && redis.locks == old(redis.locks) && poller == PollIdle
      ensures old(redis.queue) != [] && decodes && !(redisUp && LockFree(old(View()), KeyOf(old(redis.queue)[0]))) ==>
        && finished == old(finished) + [Done(old(redis.queue)[0], LockBusy)]
        && jobCh == old(jobCh) && redis.locks == old(redis.locks) && poller == PollIdle
      ensures
        && old(redis.queue) != [] && decodes && redisUp && LockFree(old(View()), KeyOf(old(redis.queue)[0]))
        && |old(jobCh)| < 100 && !(cancelled && gaveUp)
        ==>
        && jobCh == old(jobCh) + [Held(old(redis.queue)[0], now)] && finished == old(finished) && poller == PollIdle
        && redis.locks == old(redis.locks)[KeyOf(old(redis.queue)[0]) := now + 3_600_000_000_000]
    {
      if redis.queue == [] {
        return;
      }
      PopJob(decodes);
      if !poller.Popped? {
        return;
      }
      TakeLock(redisUp);
      if !poller.Holding? {
        return;
      }
      SendJob(gaveUp, deleted);
    }

    /** Retries a failed job after a delay, or gives it up. */
    method HandleError(job: Job, detached: bool)
      modifies this`backoffs, this`finished
      ensures
        var retry := Retried(job);
        View() == if retry.attempt >= maxRetries then Finish(old(View()), retry, RetriesExhausted)
                  else old(View()).(backoffs := old(backoffs)
                                    + [Waiting(retry, now + Backoff(retry.attempt) * SECOND, detached)])
    {
      var retry := job.(attempt := job.attempt + 1);
      if retry.attempt >= maxRetries {
        finished := finished + [Done(retry, RetriesExhausted)];
        return;
      }
      var backoff := CalculateBackoff(retry.attempt);
      backoffs := backoffs + [Waiting(retry, now + backoff * SECOND, detached)];
    }

    method EndJob(i: nat, outcome: Outcome)
      requires i < |procs| && procs[i].Running?
      modifies this`procs, this`backoffs, this`finished
      ensures View() == Next(old(View()), EndLabel(outcome, i))
      ensures Ending(old(View()), i, outcome, finished, backoffs)
    {
      var held, detached := procs[i].held, procs[i].detached;
      procs := procs[i := Releasing(held, detached)];
      match outcome {
        case Converted => finished := finished + [Done(held.job, Completed)];
        case Unsupported => finished := finished + [Done(held.job, NoHandlerFound)];
        case Failed => HandleError(held.job, detached);
      }
    }

    /** The i-th goroutine works its job to an end, then releases the lock whatever the end was. */
    method HandleJob(i: nat, outcome: Outcome, deleted: bool)
      requires i < |procs| && procs[i].Running?
      modifies this`procs, this`backoffs, this`finished, redis`locks
      ensures View() == Next(Next(old(View()), EndLabel(outcome, i)), Release(i, deleted))
      ensures Ending(old(View()), i, outcome, finished, backoffs)
      ensures
        var held := old(procs)[i].held;
        redis.locks == if deleted then old(redis.locks) - {KeyOf(held.job)} else old(redis.locks)
      ensures procs == old(procs)[i := if old(procs)[i].detached then Gone else Free]
    {
      EndJob(i, outcome);
      ReleaseLock(procs[i].held.job, deleted);
      procs := procs[i := if procs[i].detached then Gone else Free];
    }

    method EnqueueToRedis(pushed: bool)
      requires enqueuer.Pushing?
      modifies this`enqueuer, this`finished, redis`queue
      ensures View() == Next(old(View()), Push(pushed))
      ensures enqueuer == EnqIdle
      ensures pushed ==> redis.queue == [old(enqueuer).job] + old(redis.queue) && finished == old(finished)
      ensures !pushed ==>
        redis.queue == old(redis.queue) && finished == old(finished) + [Done(old(enqueuer).job, PushFailed)]
    {
      var job := enqueuer.job;
      var ok := redis.LPush(job, pushed);
      if !ok {
        finished := finished + [Done(job, PushFailed)];
      }
      enqueuer := EnqIdle;
    }

    method EnqueueSync(job: Job, redisUp: bool)
      requires IsFresh(View(), job)
      modifies this`submitted, this`procs, this`finished, redis`locks
      ensures View() == Next(old(View()), SubmitSync(job, redisUp))
      ensures submitted == old(submitted) + [job]
      ensures
        var key := KeyOf(job);
        if redisUp && (key !in old(redis.locks) || old(redis.locks)[key] <= now) then
          && procs == old(procs) + [Running(Held(job.(runs := job.runs + 1), now), true)]
          && redis.locks == old(redis.locks)[key := now + 3_600_000_000_000] && finished == old(finished)
        else
          procs == old(procs) && redis.locks == old(redis.locks) && finished == old(finished) + [Done(job, LockBusy)]
    {
      submitted := submitted + [job];
      var ok := AcquireLock(job, redisUp);
      if !ok {
        finished := finished + [Done(job, LockBusy)];
        return;
      }
      procs := procs + [Running(Held(Started(job), now), true)];
    }

    method EnqueueAsync(job: Job, pushed: bool) returns (ok: bool)
      requires IsFresh(View(), job)
      modifies this`submitted, this`finished, redis`queue
      ensures ok == pushed && View() == Next(old(View()), SubmitAsync(job, pushed))
      ensures submitted == old(submitted) + [job]
      ensures ok ==> redis.queue == [job] + old(redis.queue) && finished == old(finished)
      ensures !ok ==> redis.queue == old(redis.queue) && finished == old(finished) + [Done(job, PushFailed)]
    {
      submitted := submitted + [job];
      ok := redis.LPush(job, pushed);
      if !ok {
        finished := finished + [Done(job, PushFailed)];
      }
    }

    method SubmitOne(job: Job, small: bool, redisUp: bool)
      requires IsFresh(View(), job)
      modifies this`submitted, this`procs, this`finished, redis
      ensures View() == Next(old(View()), SubmitLabel(job, small, redisUp))
    {
      if small {
        EnqueueSync(job, redisUp);
      } else {
        var _ := EnqueueAsync(job, redisUp);
      }
    }

    /** Submits the jobs of one supported media file, in order: detached goroutines for a small file, the queue for a
        large one. `fails` names the jobs whose Redis call fails. */
    method ProcessConversions(supported: bool, size: int, jobs: seq<Job>, fails: set<nat>)
      requires AllFresh(View(), jobs)
      modifies this`submitted, this`procs, this`finished, redis
      ensures View() ==
        if supported then SubmitAll(old(View()), jobs, size < 5_242_880, fails) else old(View())
    {
      if !supported {
        return;
      }
      var small := size < SMALL_FILE_THRESHOLD;
      var rest := jobs;
      while rest != []
        invariant AllFresh(View(), rest)
        invariant SubmitAll(View(), rest, small, fails) == SubmitAll(old(View()), jobs, small, fails)
        decreases |rest|
      {
        FreshAfter(View(), rest, small, rest[0].id !in fails);
        SubmitOne(rest[0], small, rest[0].id !in fails);
        rest := rest[1..];
      }
    }
  }

  const SMALL_FILE_THRESHOLD: int := 5 * 1024 * 1024

  /** Jobs as CreateConversionJobs makes them: new, and distinct submissions. */
  ghost predicate AllFresh(s: State, jobs: seq<Job>) {
    && (forall j :: 0 <= j < |jobs| ==> IsFresh(s, jobs[j]))
    && (forall j, k :: 0 <= j < k < |jobs| ==> jobs[j].id != jobs[k].id)
  }

  lemma FreshAfter(s: State, jobs: seq<Job>, small: bool, redisUp: bool)
    requires AllFresh(s, jobs) && jobs != []
    ensures AllFresh(Next(s, SubmitLabel(jobs[0], small, redisUp)), jobs[1..])
  {
    assert Next(s, SubmitLabel(jobs[0], small, redisUp)).submitted == s.submitted + [jobs[0]];
  }

  ghost function SubmitAll(s: State, jobs: seq<Job>, small: bool, fails: set<nat>): State
    requires AllFresh(s, jobs)
    decreases |jobs|
  {
    if jobs == [] then s
    else
      FreshAfter(s, jobs, small, jobs[0].id !in fails);
      SubmitAll(Next(s, SubmitLabel(jobs[0], small, jobs[0].id !in fails)), jobs[1..], small, fails)
  }

  /** Every job handed in becomes a submission, in order, whatever its path and whether or not its call failed. */
  lemma {:induction false} SubmitAllSubmits(s: State, jobs: seq<Job>, small: bool, fails: set<nat>)
    requires AllFresh(s, jobs)
    ensures SubmitAll(s, jobs, small, fails).submitted == s.submitted + jobs
    decreases |jobs|
  {
    hide Next, KeyOf;
    if jobs != [] {
      var step := SubmitLabel(jobs[0], small, jobs[0].id !in fails);
      FreshAfter(s, jobs, small, jobs[0].id !in fails);
      SubmitAllSubmits(Next(s, step), jobs[1..], small, fails);
      StepSubmits(s, step);
      assert s.submitted + jobs == s.submitted + [jobs[0]] + jobs[1..];
    }
  }

  const CONVERSIONS := ["thumbnail", "preview"]

  /** One job per default conversion, all at attempt 0; submissions are numbered from `id`. */
  function CreateConversionJobs(media: Uuid, id: nat): seq<Job> {
    seq(|CONVERSIONS|, k requires 0 <= k < |CONVERSIONS| => Job(media, CONVERSIONS[k], 0, id + k, 0, 0))
  }

  /** A media file gives a thumbnail and a preview job, in this order, both at attempt 0. */
  lemma DefaultJobs(media: Uuid, id: nat)
    ensures CreateConversionJobs(media, id) ==
      [Job(media, "thumbnail", 0, id, 0, 0), Job(media, "preview", 0, id + 1, 0, 0)]
  {
  }

  function Reversed(jobs: seq<Job>): seq<Job> {
    if jobs == [] then [] else Reversed(jobs[1..]) + [jobs[0]]
  }

  /** The jobs of a large file are pushed in order, so the last comes to be popped first; none of them runs yet. */
  lemma {:induction false} LargeFileIsQueued(s: State, jobs: seq<Job>)
    requires AllFresh(s, jobs)
    ensures
      var t := SubmitAll(s, jobs, false, {});
      t.queue == Reversed(jobs) + s.queue && t.procs == s.procs && t.locks == s.locks && t.finished == s.finished
    decreases |jobs|
  {
    if jobs != [] {
      FreshAfter(s, jobs, false, true);
      var t := Next(s, SubmitAsync(jobs[0], true));
      LargeFileIsQueued(t, jobs[1..]);
      assert Reversed(jobs) + s.queue == Reversed(jobs[1..]) + ([jobs[0]] + s.queue);
    }
  }

  lemma SyncRuns(s: State, job: Job)
    requires IsFresh(s, job) && LockFree(s, KeyOf(job))
    ensures
      var t := Next(s, SubmitSync(job, true));
      && t.procs == s.procs + [Running(Held(job.(runs := job.runs + 1), s.now), true)]
      && t.queue == s.queue && t.finished == s.finished && t.now == s.now
      && forall key :: key != KeyOf(job) ==> LockFree(t, key) == LockFree(s, key)
  {
    hide LockKey;
  }

  /** The jobs of a small file all run at once if their locks are free and they do not share one. */
  lemma {:induction false} SmallFileRuns(s: State, jobs: seq<Job>)
    requires AllFresh(s, jobs) && forall j :: 0 <= j < |jobs| ==> LockFree(s, KeyOf(jobs[j]))
    requires forall j, k :: 0 <= j < k < |jobs| ==> KeyOf(jobs[j]) != KeyOf(jobs[k])
    ensures
      var t := SubmitAll(s, jobs, true, {});
      && |t.procs| == |s.procs| + |jobs| && s.procs <= t.procs && t.queue == s.queue && t.finished == s.finished
      && forall j :: 0 <= j < |jobs| ==>
           t.procs[|s.procs| + j] == Running(Held(jobs[j].(runs := jobs[j].runs + 1), s.now), true)
    decreases |jobs|
  {
    hide KeyOf, Next, IsFresh;
    if jobs != [] {
      FreshAfter(s, jobs, true, true);
      var t := Next(s, SubmitSync(jobs[0], true));
      SyncRuns(s, jobs[0]);
      SmallFileRuns(t, jobs[1..]);
    }
  }

  /** The jobs of one media file are all submittable, and none of them waits for another's lock. */
  lemma DefaultJobsAreIndependent(s: State, media: Uuid, id: nat)
    requires forall i :: 0 <= i < |s.submitted| ==> s.submitted[i].id < id
    ensures AllFresh(s, CreateConversionJobs(media, id))
    ensures
      var jobs := CreateConversionJobs(media, id);
      forall j, k :: 0 <= j < k < |jobs| ==> KeyOf(jobs[j]) != KeyOf(jobs[k])
  {
    LockKeyIdentifies(media, "thumbnail", media, "preview");
    assert "thumbnail"[0] != "preview"[0];
  }
}
