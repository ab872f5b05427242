/** Callers of the loader: one window of concurrent `Load` calls, the
    scenarios the loader's tests describe, and what happens after a fetcher
    error. */
module Scenarios {
  import opened Dataloader

  /** The keys of `s` as a set. */
  function Elements<T>(s: seq<T>): set<T>
  {
    set x | x in s
  }

  /** Appending to one queue keeps every waiter already listed where it was. */
  lemma AppendKeepsListed<K>(t: map<K, seq<Waiter>>, k: K, w: Waiter, keys: seq<K>, waiters: seq<Waiter>)
    requires |waiters| == |keys|
    requires forall j :: 0 <= j < |keys| ==> keys[j] in t && waiters[j] in t[keys[j]]
    ensures var t' := t[k := Queue(t, k) + [w]];
      forall j :: 0 <= j < |keys| ==> keys[j] in t' && waiters[j] in t'[keys[j]]
  {
    var t' := t[k := Queue(t, k) + [w]];
    forall j | 0 <= j < |keys| ensures keys[j] in t' && waiters[j] in t'[keys[j]] {
      if keys[j] == k {
        assert waiters[j] in Queue(t, k);
      }
    }
  }

  /** A fan-out that served registry `t` answered each caller whose waiter was
      listed under its key. */
  lemma ServedCallers<K, V>(t: map<K, seq<Waiter>>, before: map<Waiter, Result<V>>, after: map<Waiter, Result<V>>,
                            answer: K -> Result<V>, keys: seq<K>, waiters: seq<Waiter>)
    requires ServedOnce(before, after, t, answer)
    requires |waiters| == |keys|
    requires forall j :: 0 <= j < |keys| ==> keys[j] in t && waiters[j] in t[keys[j]]
    ensures forall j :: 0 <= j < |keys| ==> waiters[j] in after && after[waiters[j]] == answer(keys[j])
  {
    forall j | 0 <= j < |keys| ensures waiters[j] in after && after[waiters[j]] == answer(keys[j]) {
      assert keys[j] in t && waiters[j] in t[keys[j]];
    }
  }

  /** Several callers run `Load` before the window's timer fires: each key
      ends up in the registry with its caller's waiter, and one dispatch is
      pending. */
  method LoadAll<K(==), V>(l: Loader<K, V>, keys: seq<K>) returns (waiters: seq<Waiter>)
    requires l.Valid() && !l.tick && keys != []
    modifies l
    ensures l.Valid() && l.tick && l.pendingDispatches == 1
    ensures l.calls == old(l.calls) && l.inbox == old(l.inbox)
    ensures l.tasks.Keys == Elements(keys) && |waiters| == |keys|
    ensures forall j :: 0 <= j < |keys| ==> waiters[j] in l.tasks[keys[j]]
  {
    waiters := [];
    for i := 0 to |keys|
      invariant l.Valid() && l.calls == old(l.calls) && l.inbox == old(l.inbox)
      invariant i == 0 ==> !l.tick
      invariant i > 0 ==> l.tick && l.pendingDispatches == 1
      invariant |waiters| == i
      invariant l.tasks.Keys == Elements(keys[..i])
      invariant forall j :: 0 <= j < i ==> keys[..i][j] in l.tasks && waiters[j] in l.tasks[keys[..i][j]]
    {
      ghost var before := l.tasks;
      var w := l.Load(keys[i]);
      AppendKeepsListed(before, keys[i], w, keys[..i], waiters);
      waiters := waiters + [w];
      assert keys[..i + 1] == keys[..i] + [keys[i]];
    }
    assert keys[..|keys|] == keys;
  }

  /** Each caller receives on its own channel. */
  method AwaitAll<K(==), V>(l: Loader<K, V>, waiters: seq<Waiter>) returns (answers: seq<Result<V>>)
    requires forall j :: 0 <= j < |waiters| ==> waiters[j] in l.inbox
    ensures |answers| == |waiters|
    ensures forall j :: 0 <= j < |waiters| ==> answers[j] == l.inbox[waiters[j]]
  {
    answers := [];
    for i := 0 to |waiters|
      invariant |answers| == i
      invariant forall j :: 0 <= j < i ==> answers[j] == l.inbox[waiters[j]]
    {
      var r := l.Await(waiters[i]);
      answers := answers + [r];
    }
  }

  /** One batch window: `keys` are loaded concurrently into an idle loader,
      the window's timer fires and runs `fetch` as written, and every caller
      receives its result. The fetcher is called once, with each requested key
      once; each caller gets its key's value or `NotFound`, or the batch's
      error. After a successful fetch the loader is idle again; after a fetcher
      error the window is left open, its keys still registered, with no
      dispatch pending. */
  method LoadWindow<K(==), V>(l: Loader<K, V>, keys: seq<K>)
    returns (batch: seq<K>, answers: seq<Result<V>>, panicKey: Maybe<K>)
    requires l.Valid() && !l.tick && keys != []
    modifies l
    ensures l.calls == old(l.calls) + [batch] && l.pendingDispatches == 0
    ensures Distinct(batch) && Elements(batch) == Elements(keys) && |batch| == |Elements(keys)|
    ensures l.fetcher(batch).FetchFailed? ==>
      && panicKey.None? && |answers| == |keys|
      && (forall i :: 0 <= i < |keys| ==> answers[i] == Failed(l.fetcher(batch).err))
      && l.Valid() && l.tick && l.tasks.Keys == Elements(keys)
    ensures l.fetcher(batch).Fetched? ==>
      var results := l.fetcher(batch).values;
      && (panicKey.Some? <==> !(results.Keys <= Elements(keys)))
      && (panicKey.Some? ==> panicKey.value in results && panicKey.value !in Elements(keys))
      && (panicKey.None? ==>
            && |answers| == |keys|
            && (forall i :: 0 <= i < |keys| ==> answers[i] == Answer(results, keys[i]))
            && l.Valid() && !l.tick && l.tasks == map[])
  {
    var waiters := LoadAll(l, keys);
    ghost var t, before := l.tasks, l.inbox;
    batch, panicKey := l.Fetch();
    assert Elements(batch) == t.Keys;
    answers := [];
    if panicKey.Some? {
      return;
    }
    ghost var answer: K -> Result<V> := match l.fetcher(batch)
      case FetchFailed(e) => _ => Failed(e)
      case Fetched(results) => k => Answer(results, k);
    assert ServedOnce(before, l.inbox, t, answer);
    ServedCallers(t, before, l.inbox, answer, keys, waiters);
    answers := AwaitAll(l, waiters);
  }

  /** The first sample: "f", "ab", "ef" and "f" again are loaded together from
      a fetcher that answers each key with its length. */
  method LengthsScenario() returns (answers: seq<Result<int>>, batch: seq<string>, ghost calls: seq<seq<string>>)
    ensures calls == [batch] && Elements(batch) == {"f", "ab", "ef"} && |batch| == 3
    ensures answers == [Found(1), Found(2), Found(2), Found(1)]
  {
    var l := new Loader<string, int>(keys => Fetched(map k | k in keys :: |k|), []);
    var keys := ["f", "ab", "ef", "f"];
    var panicKey;
    batch, answers, panicKey := LoadWindow(l, keys);
    assert Elements(keys) == {"f", "ab", "ef"};
    calls := l.calls;
  }

  /** The second sample: four keys are loaded and the fetcher knows only two
      of them; the other two callers receive `NotFound`. */
  method PartialScenario() returns (answers: seq<Result<string>>, batch: seq<string>, ghost calls: seq<seq<string>>)
    ensures calls == [batch] && Elements(batch) == {"foo", "bar", "baz", "quux"} && |batch| == 4
    ensures answers == [Found("yes-foo"), Found("yes-bar"), Failed(NotFound), Failed(NotFound)]
  {
    var l := new Loader<string, string>(_ => Fetched(map["foo" := "yes-foo", "bar" := "yes-bar"]), []);
    var keys := ["foo", "bar", "baz", "quux"];
    var panicKey;
    batch, answers, panicKey := LoadWindow(l, keys);
    assert Elements(keys) == {"foo", "bar", "baz", "quux"};
    calls := l.calls;
  }

  datatype Key = Key(major: string, minor: string)

  /** Four callers load one composite key: the fetcher sees it once. */
  method ComplexKeyScenario() returns (answers: seq<Result<string>>, batch: seq<Key>, ghost calls: seq<seq<Key>>)
    ensures calls == [batch] && batch == [Key("resource", "nested")]
    ensures answers == seq(4, _ => Found("resource-nested"))
  {
    var l := new Loader<Key, string>((keys: seq<Key>) => Fetched(map k: Key | k in keys :: k.major + "-" + k.minor), []);
    var k := Key("resource", "nested");
    var keys := [k, k, k, k];
    var panicKey;
    batch, answers, panicKey := LoadWindow(l, keys);
    assert Elements(keys) == {k};
    assert batch == [k] by {
      assert |batch| == 1 && batch[0] in Elements(batch);
    }
    assert k.major + "-" + k.minor == "resource-nested";
    assert k in l.fetcher(batch).values;
    calls := l.calls;
  }

  /** A fetcher error reaches every caller of the window, unchanged, and the
      window stays open with its keys registered. */
  method ErrorScenario() returns (answers: seq<Result<int>>, tickSet: bool, pending: set<string>)
    ensures answers == seq(3, _ => Failed(FetcherError("boom")))
    ensures tickSet && pending == {"a", "b"}
  {
    var l := new Loader<string, int>(_ => FetchFailed(FetcherError("boom")), []);
    var keys := ["a", "b", "a"];
    var batch, panicKey;
    batch, answers, panicKey := LoadWindow(l, keys);
    assert Elements(keys) == {"a", "b"};
    tickSet := l.tick;
    pending := l.tasks.Keys;
  }

  /** A fetcher that returns a key nobody asked for makes the fetch panic. */
  method UnexpectedKeyScenario() returns (panicKey: Maybe<string>)
    ensures panicKey == Some("x")
  {
    var l := new Loader<string, int>(_ => Fetched(map["x" := 1]), []);
    var batch, answers;
    batch, answers, panicKey := LoadWindow(l, ["a"]);
    assert "x" in l.fetcher(batch).values && "x" !in Elements(["a"]);
  }

  /** After a fetcher error, `fetch` as written leaves `tick` set although its
      timer has fired: the next `Load` arms no timer, no dispatch is pending,
      and its waiter stays queued, behind the already-answered first one. */
  method StallAfterFetchError() returns (tickSet: bool, secondServed: bool, queue: seq<Waiter>, ghost dispatches: nat)
    ensures tickSet && !secondServed && |queue| == 2 && dispatches == 0
  {
    var l := new Loader<string, int>(_ => FetchFailed(FetcherError("boom")), []);
    var first := l.Load("a");
    var keys, panicKey := l.Fetch();
    var second := l.Load("a");
    tickSet := l.tick;
    secondServed := second in l.inbox;
    queue := l.tasks["a"];
    dispatches := l.pendingDispatches;
  }

  /** With the error path corrected, the `Load` after a fetcher error opens a
      new window whose fetch serves it. */
  method RecoverAfterFetchError() returns (secondServed: bool, ghost dispatchesAfterLoad: nat)
    ensures secondServed && dispatchesAfterLoad == 1
  {
    var l := new Loader<string, int>(_ => FetchFailed(FetcherError("boom")), []);
    var first := l.Load("a");
    var keys, panicKey := l.FetchCorrected();
    var second := l.Load("a");
    dispatchesAfterLoad := l.pendingDispatches;
    assert "a" in l.tasks && second in l.tasks["a"];
    keys, panicKey := l.FetchCorrected();
    secondServed := second in l.inbox;
  }
}
