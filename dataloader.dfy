/** The request-coalescing loader: a registry from each key to the waiters
    blocked on it, a flag saying whether a dispatch is scheduled, and the
    fetch that answers a whole window of keys with one call to the fetcher.

    The mutex, the timer goroutine and the channels are not modelled as such:
    `Enqueue` and `Fetch` run atomically, a waiter is a number, and the value
    sitting in a waiter's one-slot channel is its entry in `inbox`. */
module Dataloader {
  import Options

  /** The errors a waiter can receive: the `NotFound` sentinel or whatever
      error the fetcher returned. */
  datatype Error = NotFound | FetcherError(message: string)

  /** What one waiter receives: a value, or an error. */
  datatype Result<V> = Found(value: V) | Failed(err: Error)

  /** What a call of the fetcher returns: a map of the keys it found, or an
      error for the whole batch. */
  datatype FetchResult<K, V> = Fetched(values: map<K, V>) | FetchFailed(err: Error)

  /** A value that may be absent; `fetch` reports the key it panics on as one. */
  datatype Maybe<T> = None | Some(value: T)

  /** A waiter is identified by the channel it waits on. */
  type Waiter = nat

  ghost predicate Distinct<T>(s: seq<T>)
  {
    forall i, j :: 0 <= i < j < |s| ==> s[i] != s[j]
  }

  /** The waiters listed under `k`; Go's lookup of a missing key gives a nil slice. */
  function Queue<K>(t: map<K, seq<Waiter>>, k: K): seq<Waiter>
  {
    if k in t then t[k] else []
  }

  /** Every waiter listed in the registry `t`. */
  ghost function WaitersOf<K>(t: map<K, seq<Waiter>>): set<Waiter>
  {
    set k, w | k in t && w in t[k] :: w
  }

  /** No waiter is listed twice, under one key or under two. */
  ghost predicate DisjointQueues<K>(t: map<K, seq<Waiter>>)
  {
    && (forall k :: k in t ==> Distinct(t[k]))
    && (forall k1, k2, w :: k1 in t && k2 in t && k1 != k2 && w in t[k1] ==> w !in t[k2])
  }

  /** The result a successful fetch gives the waiters of `k`: the value the
      fetcher returned for it, or `NotFound` when it returned none. */
  function Answer<K, V>(results: map<K, V>, k: K): (r: Result<V>)
    ensures r.Found? <==> k in results
    ensures r.Found? ==> r.value == results[k]
    ensures r.Failed? ==> r.err == NotFound
  {
    if k in results then Found(results[k]) else Failed(NotFound)
  }

  /** Going from `before` to `after`, every waiter listed in `t` under a key `k`
      received exactly one result, `answer(k)`: it had none before and has that
      one after. Nobody else received anything, and what others had is kept. */
  ghost predicate ServedOnce<K, V>(before: map<Waiter, Result<V>>, after: map<Waiter, Result<V>>,
                                   t: map<K, seq<Waiter>>, answer: K -> Result<V>)
  {
    && (forall k, w :: k in t && w in t[k] ==> w !in before && w in after && after[w] == answer(k))
    && (forall w :: w in before ==> w in after && after[w] == before[w])
    && (forall w :: w in after ==> w in before || w in WaitersOf(t))
  }

  /** The fan-out of a registry `t` in progress: the keys in `done` have had
      their waiters served with `answer`, the other keys' waiters have nothing
      yet, what was delivered before (`before`) is kept, and nobody outside `t`
      received anything. */
  ghost predicate Progress<K, V>(t: map<K, seq<Waiter>>, before: map<Waiter, Result<V>>,
                                 now: map<Waiter, Result<V>>, done: set<K>, answer: K -> Result<V>)
  {
    && (forall k, w :: k in done && k in t && w in t[k] ==> w in now && now[w] == answer(k))
    && (forall k, w :: k in t && k !in done && w in t[k] ==> w !in now)
    && (forall w :: w in before ==> w in now && now[w] == before[w])
    && (forall w :: w in now ==> w in before || w in WaitersOf(t))
  }

  lemma ProgressStart<K, V>(t: map<K, seq<Waiter>>, before: map<Waiter, Result<V>>, answer: K -> Result<V>)
    requires forall k, w :: k in t && w in t[k] ==> w !in before
    ensures Progress(t, before, before, {}, answer)
  {
  }

  /** Serving every waiter of one more key `k` extends the progress to `k`. */
  lemma ProgressStep<K, V>(t: map<K, seq<Waiter>>, before: map<Waiter, Result<V>>,
                           now: map<Waiter, Result<V>>, next: map<Waiter, Result<V>>,
                           done: set<K>, k: K, answer: K -> Result<V>)
    requires DisjointQueues(t) && k in t && k !in done
    requires Progress(t, before, now, done, answer)
    requires forall w :: w in now ==> w in next && next[w] == now[w]
    requires forall w :: w in t[k] ==> w in next && next[w] == answer(k)
    requires forall w :: w in next ==> w in now || w in t[k]
    ensures Progress(t, before, next, done + {k}, answer)
  {
    forall w | w in next
      ensures w in before || w in WaitersOf(t)
    {
      if w !in now {
        assert w in t[k];
      }
    }
  }

  /** A fan-out that has reached every key served each waiter exactly once. */
  lemma ProgressDone<K, V>(t: map<K, seq<Waiter>>, before: map<Waiter, Result<V>>,
                           now: map<Waiter, Result<V>>, done: set<K>, answer: K -> Result<V>)
    requires t.Keys <= done
    requires forall k, w :: k in t && w in t[k] ==> w !in before
    requires Progress(t, before, now, done, answer)
    ensures ServedOnce(before, now, t, answer)
  {
  }

  class Loader<K(==), V> {
    /** For each key, the waiters blocked on it, in arrival order. */
    var tasks: map<K, seq<Waiter>>
    /** Whether a timer has been armed for the current window. */
    var tick: bool
    const fetcher: seq<K> -> FetchResult<K, V>
    const config: Options.Config
    /** The result sitting in each waiter's channel. */
    var inbox: map<Waiter, Result<V>>
    /** The next fresh channel. */
    var nextWaiter: Waiter

    /** Timers armed so far, each with the delay it was armed with. */
    ghost var timers: seq<Options.Duration>
    /** Armed timers whose goroutine has not yet run `Fetch`. */
    ghost var pendingDispatches: nat
    /** The key lists the fetcher has been called with. */
    ghost var calls: seq<seq<K>>

    ghost predicate Valid()
      reads this
    {
      && DisjointQueues(tasks)
      && (forall k :: k in tasks ==> tasks[k] != [])
      && (forall k, w :: k in tasks && w in tasks[k] ==> w < nextWaiter)
      && (forall w :: w in inbox ==> w < nextWaiter)
      && pendingDispatches <= 1
      && (!tick ==> pendingDispatches == 0 && tasks == map[])
      && (pendingDispatches == 1 ==> tasks != map[] && forall k, w :: k in tasks && w in tasks[k] ==> w !in inbox)
    }

    /** `New`: an empty registry, no window open, and the options applied in order. */
    constructor (fetchFn: seq<K> -> FetchResult<K, V>, opts: seq<Options.Option>)
      ensures Valid()
      ensures fetcher == fetchFn && config == Options.ApplyAll(Options.Default, opts)
      ensures tasks == map[] && !tick && inbox == map[]
      ensures timers == [] && pendingDispatches == 0 && calls == []
    {
      var c := Options.NewConfig(opts);
      fetcher := fetchFn;
      config := c;
      tasks := map[];
      tick := false;
      inbox := map[];
      nextWaiter := 0;
      timers := [];
      pendingDispatches := 0;
      calls := [];
    }

    /** Adds waiter `w` at the end of the queue for `k` and, when no timer is
        armed, arms one with the configured delay. */
    method Enqueue(k: K, w: Waiter)
      requires Valid()
      requires w < nextWaiter && w !in inbox && forall k' :: k' in tasks ==> w !in tasks[k']
      modifies this`tasks, this`tick, this`timers, this`pendingDispatches
      ensures Valid()
      ensures tasks == old(tasks)[k := Queue(old(tasks), k) + [w]]
      ensures tick
      ensures old(tick) ==> timers == old(timers) && pendingDispatches == old(pendingDispatches)
      ensures !old(tick) ==> timers == old(timers) + [config.delay] && pendingDispatches == 1
    {
      var q := Queue(tasks, k) + [w];
      assert Distinct(q) by {
        assert w !in Queue(tasks, k);
      }
      tasks := tasks[k := q];
      if !tick {
        tick := true;
        timers := timers + [config.delay];
        pendingDispatches := pendingDispatches + 1;
      }
      forall k1, k2, v | k1 in tasks && k2 in tasks && k1 != k2 && v in tasks[k1]
        ensures v !in tasks[k2]
      {
        if k1 == k {
          assert v == w || v in old(tasks)[k1];
        } else if k2 == k {
          assert v in old(tasks)[k1];
          assert v != w;
        }
      }
    }

    /** The first half of `Load`: a fresh channel is made and enqueued under `k`. */
    method Load(k: K) returns (w: Waiter)
      requires Valid()
      modifies this`tasks, this`tick, this`timers, this`pendingDispatches, this`nextWaiter
      ensures Valid()
      ensures w == old(nextWaiter) && nextWaiter == w + 1
      ensures w !in inbox && forall k' :: k' in old(tasks) ==> w !in old(tasks)[k']
      ensures tasks == old(tasks)[k := Queue(old(tasks), k) + [w]]
      ensures tick
      ensures old(tick) ==> timers == old(timers) && pendingDispatches == old(pendingDispatches)
      ensures !old(tick) ==> timers == old(timers) + [config.delay] && pendingDispatches == 1
    {
      w := nextWaiter;
      nextWaiter := nextWaiter + 1;
      Enqueue(k, w);
    }

    /** The second half of `Load`: the receive on the waiter's channel, which
        returns whatever was delivered to it. */
    method Await(w: Waiter) returns (r: Result<V>)
      requires w in inbox
      ensures r == inbox[w]
    {
      r := inbox[w];
    }

    /** The distinct keys of the registry, in the map's iteration order. */
    method SnapshotKeys() returns (keys: seq<K>)
      ensures Distinct(keys)
      ensures forall k :: k in keys <==> k in tasks
      ensures |keys| == |tasks|
    {
      keys := [];
      var rest := tasks.Keys;
      while rest != {}
        invariant rest <= tasks.Keys
        invariant Distinct(keys)
        invariant forall k :: k in keys <==> k in tasks && k !in rest
        invariant |keys| + |rest| == |tasks.Keys|
      {
        var k :| k in rest;
        keys := keys + [k];
        rest := rest - {k};
      }
    }

    /** Sends `r` on every channel of `chans`; each channel's slot is empty. */
    method Broadcast(chans: seq<Waiter>, r: Result<V>)
      requires Distinct(chans)
      requires forall w :: w in chans ==> w !in inbox
      modifies this`inbox
      ensures forall w :: w in old(inbox) ==> w in inbox && inbox[w] == old(inbox)[w]
      ensures forall w :: w in chans ==> w in inbox && inbox[w] == r
      ensures forall w :: w in inbox ==> w in old(inbox) || w in chans
    {
      for i := 0 to |chans|
        invariant forall w :: w in old(inbox) ==> w in inbox && inbox[w] == old(inbox)[w]
        invariant forall j :: 0 <= j < i ==> chans[j] in inbox && inbox[chans[j]] == r
        invariant forall j :: i <= j < |chans| ==> chans[j] !in inbox
        invariant forall w :: w in inbox ==> w in old(inbox) || w in chans[..i]
      {
        inbox := inbox[chans[i] := r];
      }
    }

    /** `sendError`: every waiter of every key receives the fetcher's error.
        The registry itself is left as it is. */
    method SendError(e: Error)
      requires DisjointQueues(tasks)
      requires forall k, w :: k in tasks && w in tasks[k] ==> w !in inbox
      modifies this`inbox
      ensures ServedOnce(old(inbox), inbox, tasks, _ => Failed(e))
    {
      ghost var answer: K -> Result<V> := _ => Failed(e);
      ghost var I0, done := inbox, {};
      ProgressStart(tasks, I0, answer);
      var rest := tasks.Keys;
      while rest != {}
        invariant rest <= tasks.Keys && done == tasks.Keys - rest
        invariant Progress(tasks, I0, inbox, done, answer)
      {
        var k :| k in rest;
        ghost var prev := inbox;
        Broadcast(tasks[k], Failed(e));
        ProgressStep(tasks, I0, prev, inbox, done, k, answer);
        rest := rest - {k};
        done := done + {k};
      }
      ProgressDone(tasks, I0, inbox, done, answer);
    }

    /** Lines 86-98 of `fetch`: each value the fetcher returned goes to every
        waiter of its key, and the key leaves the registry. A returned key with
        no queue makes `fetch` panic ("task key missing"), reported here as
        `panicKey`; the keys are visited in the map's unspecified order. */
    method DeliverFound(results: map<K, V>, ghost answer: K -> Result<V>) returns (panicKey: Maybe<K>)
      requires DisjointQueues(tasks)
      requires Progress(tasks, inbox, inbox, {}, answer)
      requires forall k :: k in results ==> answer(k) == Found(results[k])
      modifies this`tasks, this`inbox
      ensures panicKey.Some? <==> !(results.Keys <= old(tasks).Keys)
      ensures panicKey.Some? ==> panicKey.value in results && panicKey.value !in old(tasks)
      ensures panicKey.None? ==>
        tasks == old(tasks) - results.Keys && Progress(old(tasks), old(inbox), inbox, results.Keys, answer)
    {
      ghost var T0, I0, done := tasks, inbox, {};
      panicKey := None;
      var rest := results.Keys;
      while rest != {}
        invariant rest <= results.Keys
        invariant results.Keys - T0.Keys <= rest
        invariant done == results.Keys - rest && done <= T0.Keys
        invariant tasks == T0 - done
        invariant Progress(T0, I0, inbox, done, answer)
      {
        var k :| k in rest;
        if k !in tasks {
          return Some(k);
        }
        var chans := tasks[k];
        ghost var prev := inbox;
        Broadcast(chans, Found(results[k]));
        ProgressStep(T0, I0, prev, inbox, done, k, answer);
        tasks := tasks - {k};
        rest := rest - {k};
        done := done + {k};
      }
    }

    /** Lines 100-111 of `fetch`: every key still in the registry gets
        `NotFound` sent to all its waiters and leaves the registry. */
    method DeliverNotFound(ghost t: map<K, seq<Waiter>>, ghost before: map<Waiter, Result<V>>,
                           ghost done: set<K>, ghost answer: K -> Result<V>)
      requires DisjointQueues(t) && done <= t.Keys && tasks == t - done
      requires Progress(t, before, inbox, done, answer)
      requires forall k :: k in tasks ==> answer(k) == Failed(NotFound)
      modifies this`tasks, this`inbox
      ensures tasks == map[]
      ensures Progress(t, before, inbox, t.Keys, answer)
    {
      ghost var finished := done;
      while tasks != map[]
        invariant finished <= t.Keys && tasks == t - finished
        invariant forall k :: k in tasks ==> answer(k) == Failed(NotFound)
        invariant Progress(t, before, inbox, finished, answer)
        decreases tasks.Keys
      {
        var k :| k in tasks;
        ghost var prev := inbox;
        Broadcast(tasks[k], Failed(NotFound));
        ProgressStep(t, before, prev, inbox, finished, k, answer);
        tasks := tasks - {k};
        finished := finished + {k};
      }
      assert t.Keys <= finished by {
        forall k | k in t ensures k in finished {
          assert k !in tasks.Keys;
        }
      }
      assert finished == t.Keys;
    }

    /** Lines 86-113 of `fetch`, after a successful fetcher call: the returned
        values and `NotFound` are delivered, and the window is closed. */
    method Resolve(results: map<K, V>) returns (panicKey: Maybe<K>)
      requires DisjointQueues(tasks)
      requires forall k, w :: k in tasks && w in tasks[k] ==> w !in inbox
      modifies this`tasks, this`inbox, this`tick
      ensures panicKey.Some? <==> !(results.Keys <= old(tasks).Keys)
      ensures panicKey.Some? ==> panicKey.value in results && panicKey.value !in old(tasks)
      ensures panicKey.None? ==> tasks == map[] && !tick
      ensures panicKey.None? ==> ServedOnce(old(inbox), inbox, old(tasks), k => Answer(results, k))
    {
      ghost var answer: K -> Result<V> := k => Answer(results, k);
      ghost var T0, I0 := tasks, inbox;
      ProgressStart(T0, I0, answer);
      panicKey := DeliverFound(results, answer);
      if panicKey.Some? {
        return;
      }
      DeliverNotFound(T0, I0, results.Keys, answer);
      ProgressDone(T0, I0, inbox, T0.Keys, answer);
      tick := false;
    }

    /** `fetch`, run by the timer goroutine of the window: the fetcher is called
        once with the distinct pending keys. On an error that error goes to every
        waiter and the registry and `tick` stay as they are; on success the
        window is resolved and closed (see `Resolve`). */
    method Fetch() returns (keys: seq<K>, panicKey: Maybe<K>)
      requires Valid() && pendingDispatches == 1
      modifies this`tasks, this`inbox, this`tick, this`pendingDispatches, this`calls
      ensures calls == old(calls) + [keys] && pendingDispatches == 0
      ensures Distinct(keys) && (forall k :: k in keys <==> k in old(tasks)) && |keys| == |old(tasks)|
      ensures fetcher(keys).FetchFailed? ==>
        && panicKey.None? && Valid()
        && tasks == old(tasks) && tick == old(tick)
        && ServedOnce(old(inbox), inbox, old(tasks), _ => Failed(fetcher(keys).err))
      ensures fetcher(keys).Fetched? ==>
        var results := fetcher(keys).values;
        && (panicKey.Some? <==> !(results.Keys <= old(tasks).Keys))
        && (panicKey.Some? ==> panicKey.value in results && panicKey.value !in old(tasks))
        && (panicKey.None? ==>
              && Valid() && tasks == map[] && !tick
              && ServedOnce(old(inbox), inbox, old(tasks), k => Answer(results, k)))
    {
      pendingDispatches := pendingDispatches - 1;
      keys := SnapshotKeys();
      calls := calls + [keys];
      var outcome := fetcher(keys);
      match outcome
      case FetchFailed(e) =>
        SendError(e);
        panicKey := None;
      case Fetched(results) =>
        panicKey := Resolve(results);
    }

    /** `fetch` with its error path corrected to close the window: on a
        fetcher error the waiters get the error as in `Fetch`, and then the
        registry is cleared and `tick` reset too, so the next `Enqueue` opens a
        new window. */
    method FetchCorrected() returns (keys: seq<K>, panicKey: Maybe<K>)
      requires Valid() && pendingDispatches == 1
      modifies this`tasks, this`inbox, this`tick, this`pendingDispatches, this`calls
      ensures calls == old(calls) + [keys] && pendingDispatches == 0
      ensures Distinct(keys) && (forall k :: k in keys <==> k in old(tasks)) && |keys| == |old(tasks)|
      ensures panicKey.None? ==> Valid() && tasks == map[] && !tick
      ensures fetcher(keys).FetchFailed? ==>
        && panicKey.None?
        && ServedOnce(old(inbox), inbox, old(tasks), _ => Failed(fetcher(keys).err))
      ensures fetcher(keys).Fetched? ==>
        var results := fetcher(keys).values;
        && (panicKey.Some? <==> !(results.Keys <= old(tasks).Keys))
        && (panicKey.Some? ==> panicKey.value in results && panicKey.value !in old(tasks))
        && (panicKey.None? ==> ServedOnce(old(inbox), inbox, old(tasks), k => Answer(results, k)))
    {
      pendingDispatches := pendingDispatches - 1;
      keys := SnapshotKeys();
      calls := calls + [keys];
      var outcome := fetcher(keys);
      match outcome
      case FetchFailed(e) =>
        SendError(e);
        tasks := map[];
        tick := false;
        panicKey := None;
      case Fetched(results) =>
        panicKey := Resolve(results);
    }
  }
}
