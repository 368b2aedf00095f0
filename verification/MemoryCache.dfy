// internal/cache/memory.go: the in-memory cache driver.
// Instants and durations are integers in nanoseconds; time.Now() is a parameter.

module TimedMap {
  import opened Wrappers
  import opened Patterns

  const SECOND: int := 1_000_000_000

  datatype Entry = Entry(value: string, expiresAt: int)

  type Data = map<string, Entry>

  datatype Op =
    | Get(key: string)
    | Set(key: string, value: string, ttl: int)
    | SetNX(key: string, value: string, ttl: int)
    | Delete(key: string)
    | Exists(key: string)
    | Clear(pattern: string)
    | Close

  /** One driver call; the clock is first read at `checkAt` and last read at `storeAt`. */
  datatype Event = Event(op: Op, checkAt: int, storeAt: int)

  datatype Reply = Found(value: Option<string>) | Flag(yes: bool) | Done

  function Expiry(storeAt: int, ttl: int): int {
    storeAt + ttl * SECOND
  }

  /** Get and Exists: an entry still hits at its expiry instant. */
  predicate Live(data: Data, key: string, now: int) {
    key in data && now <= data[key].expiresAt
  }

  /** SetNX: an entry no longer blocks at its expiry instant. */
  predicate Blocks(data: Data, key: string, now: int) {
    key in data && now < data[key].expiresAt
  }

  function Cleared(data: Data, pattern: string): Data {
    map key | key in data && !MatchesPattern(key, pattern) :: data[key]
  }

  function Step(data: Data, ev: Event): (Data, Reply) {
    match ev.op
    case Get(key) => (data, Found(if Live(data, key, ev.checkAt) then Some(data[key].value) else None))
    case Set(key, value, ttl) => (data[key := Entry(value, Expiry(ev.storeAt, ttl))], Done)
    case SetNX(key, value, ttl) =>
      if Blocks(data, key, ev.checkAt) then (data, Flag(false))
      else (data[key := Entry(value, Expiry(ev.storeAt, ttl))], Flag(true))
    case Delete(key) => (data - {key}, Done)
    case Exists(key) => (data, Flag(Live(data, key, ev.checkAt)))
    case Clear(pattern) => (Cleared(data, pattern), Done)
    case Close => (map[], Done)
  }

  /** Calls take place one after the other on a clock that never runs backwards. */
  ghost predicate Ordered(evs: seq<Event>) {
    && (forall i :: 0 <= i < |evs| ==> evs[i].checkAt <= evs[i].storeAt)
    && (forall i, j :: 0 <= i < j < |evs| ==> evs[i].storeAt <= evs[j].checkAt)
  }

  function DataAt(data: Data, evs: seq<Event>, n: nat): Data
    requires n <= |evs|
  {
    if n == 0 then data else Step(DataAt(data, evs, n - 1), evs[n - 1]).0
  }

  function ReplyAt(data: Data, evs: seq<Event>, n: nat): Reply
    requires n < |evs|
  {
    Step(DataAt(data, evs, n), evs[n]).1
  }

  // ---- Keeping expired entries until they are overwritten is not observable ----

  function Purge(data: Data, now: int): Data {
    map key | key in data && now <= data[key].expiresAt :: data[key]
  }

  /** The simple map the driver stands for: entries vanish as soon as they expire. */
  function EagerAt(data: Data, evs: seq<Event>, n: nat): Data
    requires n <= |evs|
  {
    if n == 0 then data else Step(Purge(EagerAt(data, evs, n - 1), evs[n - 1].checkAt), evs[n - 1]).0
  }

  function EagerReplyAt(data: Data, evs: seq<Event>, n: nat): Reply
    requires n < |evs|
  {
    Step(Purge(EagerAt(data, evs, n), evs[n].checkAt), evs[n]).1
  }

  lemma PurgeLater(a: Data, b: Data, now: int, later: int)
    requires Purge(a, now) == Purge(b, now) && now <= later
    ensures Purge(a, later) == Purge(b, later)
  {
    forall key
      ensures key in Purge(a, later) <==> key in Purge(b, later)
      ensures key in Purge(a, later) ==> Purge(a, later)[key] == Purge(b, later)[key]
    {
      assert key in Purge(a, later) ==> key in Purge(a, now) && Purge(a, now)[key] == a[key];
      assert key in Purge(b, later) ==> key in Purge(b, now) && Purge(b, now)[key] == b[key];
    }
  }

  lemma StepOnPurged(data: Data, ev: Event, later: int)
    requires ev.checkAt <= ev.storeAt <= later
    ensures Step(data, ev).1 == Step(Purge(data, ev.checkAt), ev).1
    ensures Purge(Step(data, ev).0, later) == Purge(Step(Purge(data, ev.checkAt), ev).0, later)
  {
    var purged := Purge(data, ev.checkAt);
    assert Purge(purged, ev.checkAt) == purged;
    PurgeLater(data, purged, ev.checkAt, later);
    match ev.op
    case Clear(pattern) =>
      assert Purge(Cleared(data, pattern), later) == Cleared(Purge(data, later), pattern);
      assert Purge(Cleared(purged, pattern), later) == Cleared(Purge(purged, later), pattern);
    case Delete(key) =>
      assert Purge(data - {key}, later) == Purge(data, later) - {key};
      assert Purge(purged - {key}, later) == Purge(purged, later) - {key};
    case Set(key, value, ttl) => PurgeUpdate(data, purged, key, Entry(value, Expiry(ev.storeAt, ttl)), later);
    case SetNX(key, value, ttl) => PurgeUpdate(data, purged, key, Entry(value, Expiry(ev.storeAt, ttl)), later);
    case _ =>
  }

  lemma PurgeUpdate(a: Data, b: Data, key: string, entry: Entry, now: int)
    requires Purge(a, now) == Purge(b, now)
    ensures Purge(a[key := entry], now) == Purge(b[key := entry], now)
  {
    var x, y := Purge(a[key := entry], now), Purge(b[key := entry], now);
    assert x - {key} == Purge(a, now) - {key};
    assert y - {key} == Purge(b, now) - {key};
    forall k | k in x || k in y
      ensures k in x && k in y && x[k] == y[k]
    {
      if k != key {
        assert (k in x ==> k in x - {key}) && (k in y ==> k in y - {key});
        assert k in Purge(a, now) - {key};
        assert x[k] == (Purge(a, now) - {key})[k] && y[k] == (Purge(b, now) - {key})[k];
      }
    }
  }

  lemma {:induction false} EagerInvariant(data: Data, evs: seq<Event>, n: nat, now: int)
    requires Ordered(evs) && n <= |evs|
    requires n > 0 ==> evs[n - 1].storeAt <= now
    ensures Purge(DataAt(data, evs, n), now) == Purge(EagerAt(data, evs, n), now)
  {
    if n > 0 {
      var ev := evs[n - 1];
      EagerInvariant(data, evs, n - 1, ev.checkAt);
      StepOnPurged(DataAt(data, evs, n - 1), ev, now);
      var eager := EagerAt(data, evs, n - 1);
      assert Purge(Purge(eager, ev.checkAt), ev.checkAt) == Purge(eager, ev.checkAt);
    }
  }

  /** On every run, the driver answers every call as the eagerly expiring map does. */
  lemma LazyExpiryRefinesEager(data: Data, evs: seq<Event>, n: nat)
    requires Ordered(evs) && n < |evs|
    ensures ReplyAt(data, evs, n) == EagerReplyAt(data, evs, n)
  {
    EagerInvariant(data, evs, n, evs[n].checkAt);
    StepOnPurged(DataAt(data, evs, n), evs[n], evs[n].storeAt);
  }

  // ---- SetNX as a timed lock ----

  predicate Acquires(data: Data, evs: seq<Event>, n: nat, key: string)
    requires n < |evs|
  {
    evs[n].op.SetNX? && evs[n].op.key == key && ReplyAt(data, evs, n) == Flag(true)
  }

  /** Calls that overwrite or drop `key` whoever holds it. */
  predicate Disturbs(op: Op, key: string) {
    match op
    case Set(k, _, _) => k == key
    case Delete(k) => k == key
    case Clear(pattern) => MatchesPattern(key, pattern)
    case Close => true
    case _ => false
  }

  lemma {:induction false} HeldOrElapsed(data: Data, evs: seq<Event>, i: nat, n: nat, key: string)
    requires Ordered(evs) && i < n <= |evs|
    requires Acquires(data, evs, i, key)
    requires forall m :: i < m < n ==> !Disturbs(evs[m].op, key)
    ensures
      var until := Expiry(evs[i].storeAt, evs[i].op.ttl);
      || (key in DataAt(data, evs, n) && DataAt(data, evs, n)[key].expiresAt == until)
      || until <= evs[n - 1].checkAt
  {
    if n > i + 1 {
      HeldOrElapsed(data, evs, i, n - 1, key);
      assert evs[n - 2].storeAt <= evs[n - 1].checkAt;
      assert !Disturbs(evs[n - 1].op, key);
    }
  }

  /** Undisturbed, two acquisitions of one key are at least the first one's ttl apart. */
  lemma AcquisitionsAreATtlApart(data: Data, evs: seq<Event>, i: nat, j: nat, key: string)
    requires Ordered(evs) && i < j < |evs|
    requires Acquires(data, evs, i, key) && Acquires(data, evs, j, key)
    requires forall m :: i < m < j ==> !Disturbs(evs[m].op, key)
    ensures evs[j].checkAt - evs[i].storeAt >= evs[i].op.ttl * SECOND
  {
    HeldOrElapsed(data, evs, i, j, key);
    assert evs[j - 1].checkAt <= evs[j].checkAt;
  }

  /** Once the ttl is over and nobody else wrote the key, the next SetNX acquires it. */
  lemma ExpiredLockIsFree(data: Data, evs: seq<Event>, i: nat, n: nat, key: string)
    requires Ordered(evs) && i < n < |evs|
    requires Acquires(data, evs, i, key)
    requires forall m :: i < m < n ==> !Disturbs(evs[m].op, key) && !Acquires(data, evs, m, key)
    requires evs[n].op.SetNX? && evs[n].op.key == key
    ensures Acquires(data, evs, n, key) <==> Expiry(evs[i].storeAt, evs[i].op.ttl) <= evs[n].checkAt
  {
    UntouchedSince(data, evs, i, n, key);
  }

  lemma {:induction false} UntouchedSince(data: Data, evs: seq<Event>, i: nat, n: nat, key: string)
    requires Ordered(evs) && i < n <= |evs|
    requires Acquires(data, evs, i, key)
    requires forall m :: i < m < n ==> !Disturbs(evs[m].op, key) && !Acquires(data, evs, m, key)
    ensures key in DataAt(data, evs, n)
    ensures DataAt(data, evs, n)[key].expiresAt == Expiry(evs[i].storeAt, evs[i].op.ttl)
  {
    if n > i + 1 {
      UntouchedSince(data, evs, i, n - 1, key);
      assert !Disturbs(evs[n - 1].op, key) && !Acquires(data, evs, n - 1, key);
    }
  }

  // ---- What is set is read back ----

  /** The call stores this value under the key. */
  predicate Puts(data: Data, evs: seq<Event>, n: nat, key: string, value: string, ttl: int)
    requires n < |evs|
  {
    evs[n].op == Set(key, value, ttl) || (evs[n].op == SetNX(key, value, ttl) && ReplyAt(data, evs, n) == Flag(true))
  }

  lemma {:induction false} PutStays(data: Data, evs: seq<Event>, i: nat, n: nat, key: string, value: string, ttl: int)
    requires Ordered(evs) && i < n <= |evs| && Puts(data, evs, i, key, value, ttl)
    requires forall m :: i < m < n ==> !Disturbs(evs[m].op, key) && !Acquires(data, evs, m, key)
    ensures key in DataAt(data, evs, n)
    ensures DataAt(data, evs, n)[key] == Entry(value, evs[i].storeAt + ttl * 1_000_000_000)
  {
    if n > i + 1 {
      PutStays(data, evs, i, n - 1, key, value, ttl);
      assert !Disturbs(evs[n - 1].op, key) && !Acquires(data, evs, n - 1, key);
    }
  }

  /** In every run, a value stored and not touched since is read back up to its expiry instant, and nothing after it. */
  lemma ReadBack(data: Data, evs: seq<Event>, i: nat, n: nat, key: string, value: string, ttl: int)
    requires Ordered(evs) && i < n < |evs| && Puts(data, evs, i, key, value, ttl)
    requires forall m :: i < m < n ==> !Disturbs(evs[m].op, key) && !Acquires(data, evs, m, key)
    requires evs[n].op == Get(key) || evs[n].op == Exists(key)
    ensures
      var hit := evs[n].checkAt <= evs[i].storeAt + ttl * 1_000_000_000;
      ReplyAt(data, evs, n) ==
        if evs[n].op.Exists? then Flag(hit) else Found(if hit then Some(value) else None)
  {
    PutStays(data, evs, i, n, key, value, ttl);
  }

  /** The call takes the key out of the map. */
  predicate Drops(op: Op, key: string) {
    op == Delete(key) || op == Close || (op.Clear? && MatchesPattern(key, op.pattern))
  }

  predicate Stores(data: Data, evs: seq<Event>, n: nat, key: string)
    requires n < |evs|
  {
    (evs[n].op.Set? && evs[n].op.key == key) || Acquires(data, evs, n, key)
  }

  lemma {:induction false} StaysDropped(data: Data, evs: seq<Event>, i: nat, n: nat, key: string)
    requires i < n <= |evs| && Drops(evs[i].op, key)
    requires forall m :: i < m < n ==> !Stores(data, evs, m, key)
    ensures key !in DataAt(data, evs, n)
  {
    if n > i + 1 {
      StaysDropped(data, evs, i, n - 1, key);
      assert !Stores(data, evs, n - 1, key);
    }
  }

  /** In every run, a key that was deleted, cleared or closed over and not stored since is absent, and SetNX acquires
      it. */
  lemma DroppedIsGone(data: Data, evs: seq<Event>, i: nat, n: nat, key: string)
    requires i < n < |evs| && Drops(evs[i].op, key)
    requires forall m :: i < m < n ==> !Stores(data, evs, m, key)
    ensures evs[n].op == Get(key) ==> ReplyAt(data, evs, n) == Found(None)
    ensures evs[n].op == Exists(key) ==> ReplyAt(data, evs, n) == Flag(false)
    ensures evs[n].op.SetNX? && evs[n].op.key == key ==> ReplyAt(data, evs, n) == Flag(true)
  {
    StaysDropped(data, evs, i, n, key);
  }

  /** At the expiry instant itself a key still reads as present, yet SetNX acquires it. */
  lemma ExpiryInstant(data: Data, key: string, value: string, ttl: int, later: int)
    requires key in data
    ensures
      var now := data[key].expiresAt;
      && Step(data, Event(Get(key), now, now)).1 == Found(Some(data[key].value))
      && Step(data, Event(Exists(key), now, now)).1 == Flag(true)
      && Step(data, Event(SetNX(key, value, ttl), now, later)).1 == Flag(true)
    ensures forall now :: now != data[key].expiresAt ==>
      (Step(data, Event(Exists(key), now, now)).1 == Flag(true) <==>
       Step(data, Event(SetNX(key, value, ttl), now, later)).1 == Flag(false))
  {
  }
}

module MemoryDriver {
  import opened Wrappers
  import opened Patterns
  import opened TimedMap

  class MemoryCache {
    var data: Data

    constructor ()
      ensures data == map[]
    {
      data := map[];
    }

    method Get(key: string, now: int) returns (value: Option<string>)
      ensures (data, Found(value)) == Step(data, Event(TimedMap.Get(key), now, now))
      ensures value == if key in data && now <= data[key].expiresAt then Some(data[key].value) else None
    {
      if key !in data {
        return None;
      }
      if now > data[key].expiresAt {
        return None;
      }
      return Some(data[key].value);
    }

    method Set(key: string, value: string, ttl: int, now: int)
      modifies this
      ensures (data, Done) == Step(old(data), Event(TimedMap.Set(key, value, ttl), now, now))
      ensures data == old(data)[key := Entry(value, now + ttl * 1_000_000_000)]
    {
      var expiresAt := now + ttl * SECOND;
      data := data[key := Entry(value, expiresAt)];
    }

    method SetNX(key: string, value: string, ttl: int, now: int, later: int) returns (acquired: bool)
      modifies this
      ensures (data, Flag(acquired)) == Step(old(data), Event(TimedMap.SetNX(key, value, ttl), now, later))
      ensures acquired <==> key !in old(data) || old(data)[key].expiresAt <= now
      ensures data == if acquired then old(data)[key := Entry(value, later + ttl * 1_000_000_000)] else old(data)
    {
      if key in data && now < data[key].expiresAt {
        return false;
      }
      data := data[key := Entry(value, later + ttl * SECOND)];
      return true;
    }

    method Delete(key: string)
      modifies this
      ensures forall now :: (data, Done) == Step(old(data), Event(TimedMap.Delete(key), now, now))
      ensures data == old(data) - {key}
    {
      data := data - {key};
    }

    method Exists(key: string, now: int) returns (exists_: bool)
      ensures (data, Flag(exists_)) == Step(data, Event(TimedMap.Exists(key), now, now))
      ensures exists_ <==> key in data && now <= data[key].expiresAt
    {
      if key !in data {
        return false;
      }
      if now > data[key].expiresAt {
        return false;
      }
      return true;
    }

    method Close()
      modifies this
      ensures forall now :: (data, Done) == Step(old(data), Event(TimedMap.Close, now, now))
      ensures data == map[]
    {
      data := map[];
    }

    /** Visits the keys in any order, deleting while iterating, as a Go map range does. */
    method Clear(pattern: string)
      modifies this
      ensures forall now :: (data, Done) == Step(old(data), Event(TimedMap.Clear(pattern), now, now))
      ensures data == Cleared(old(data), pattern)
      ensures forall key ::
        && (key in data <==> key in old(data) && !MatchesPattern(key, pattern))
        && (key in data ==> data[key] == old(data)[key])
    {
      var unvisited := data.Keys;
      while unvisited != {}
        invariant unvisited <= data.Keys <= old(data).Keys
        invariant forall key :: key in data ==> data[key] == old(data)[key]
        invariant forall key :: key in old(data) && key !in data ==> MatchesPattern(key, pattern)
        invariant forall key :: key in data && key !in unvisited ==> !MatchesPattern(key, pattern)
        decreases unvisited
      {
        var key :| key in unvisited;
        unvisited := unvisited - {key};
        if MatchesPattern(key, pattern) {
          data := data - {key};
        }
      }
      assert data == Cleared(old(data), pattern);
    }
  }
}
