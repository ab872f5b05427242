/** Loader configuration and the functional options that adjust it.

    Go's `Option` is a closure over `*config`; here each closure is a value of
    the datatype `Option`, and `Apply` is the assignment its body performs. */
module Options {

  /** A `time.Duration`: a count of nanoseconds. */
  type Duration = int

  const Millisecond: Duration := 1_000_000

  /** The loader's settings. `maxBatch` is written by `WithMaxBatch` and read
      by nothing in the loader. */
  datatype Config = Config(delay: Duration, maxBatch: int)

  /** The configuration `New` starts from before applying any option. */
  const Default: Config := Config(Millisecond, 0)

  datatype Option =
    | WithDelay(delay: Duration)
    | WithMaxBatch(batchSize: int)

  /** Runs one option's closure on a configuration. */
  function Apply(o: Option, c: Config): (r: Config)
    ensures o.WithDelay? ==> r.delay == o.delay && r.maxBatch == c.maxBatch
    ensures o.WithMaxBatch? ==> r.maxBatch == o.batchSize && r.delay == c.delay
  {
    match o
    case WithDelay(d) => c.(delay := d)
    case WithMaxBatch(n) => c.(maxBatch := n)
  }

  /** Applies the options left to right, starting from `c`. */
  function ApplyAll(c: Config, opts: seq<Option>): Config
  {
    if opts == [] then c else Apply(opts[|opts| - 1], ApplyAll(c, opts[..|opts| - 1]))
  }

  /** The configuration-building loop of `New`. */
  method NewConfig(opts: seq<Option>) returns (c: Config)
    ensures c == ApplyAll(Default, opts)
  {
    c := Default;
    for i := 0 to |opts|
      invariant c == ApplyAll(Default, opts[..i])
    {
      assert opts[..i + 1][..i] == opts[..i];
      c := Apply(opts[i], c);
    }
    assert opts[..|opts|] == opts;
  }

  /** Applying `xs` and then `ys` is applying `xs + ys`. */
  lemma {:induction false} ApplyAllAppend(c: Config, xs: seq<Option>, ys: seq<Option>)
    ensures ApplyAll(c, xs + ys) == ApplyAll(ApplyAll(c, xs), ys)
    decreases |ys|
  {
    if ys == [] {
      assert xs + ys == xs;
    } else {
      var n := |ys| - 1;
      assert (xs + ys)[..|xs + ys| - 1] == xs + ys[..n];
      ApplyAllAppend(c, xs, ys[..n]);
    }
  }

  /** Options that are not `WithDelay` leave the delay alone. */
  lemma {:induction false} DelayKept(c: Config, opts: seq<Option>)
    requires forall i :: 0 <= i < |opts| ==> !opts[i].WithDelay?
    ensures ApplyAll(c, opts).delay == c.delay
    decreases |opts|
  {
    if opts != [] {
      DelayKept(c, opts[..|opts| - 1]);
    }
  }

  /** Options that are not `WithMaxBatch` leave `maxBatch` alone. */
  lemma {:induction false} MaxBatchKept(c: Config, opts: seq<Option>)
    requires forall i :: 0 <= i < |opts| ==> !opts[i].WithMaxBatch?
    ensures ApplyAll(c, opts).maxBatch == c.maxBatch
    decreases |opts|
  {
    if opts != [] {
      MaxBatchKept(c, opts[..|opts| - 1]);
    }
  }

  /** Among several `WithDelay` options the last one decides the delay. */
  lemma {:induction false} LastDelayWins(c: Config, opts: seq<Option>, i: nat)
    requires i < |opts| && opts[i].WithDelay?
    requires forall j :: i < j < |opts| ==> !opts[j].WithDelay?
    ensures ApplyAll(c, opts).delay == opts[i].delay
  {
    var pre, post := opts[..i + 1], opts[i + 1..];
    assert opts == pre + post;
    ApplyAllAppend(c, pre, post);
    assert pre[..|pre| - 1] == opts[..i];
    DelayKept(ApplyAll(c, pre), post);
  }

  /** `New` given no `WithDelay` option, and in particular given no option at
      all, waits one millisecond. */
  lemma {:induction false} DefaultDelay(opts: seq<Option>)
    requires forall i :: 0 <= i < |opts| ==> !opts[i].WithDelay?
    ensures ApplyAll(Default, opts).delay == Millisecond
  {
    DelayKept(Default, opts);
  }

  /** `WithDelay` and `WithMaxBatch` write disjoint fields, so swapping two
      neighbouring options of different kinds gives the same configuration. */
  lemma SwapCommutes(c: Config, opts: seq<Option>, i: nat)
    requires i + 1 < |opts| && opts[i].WithDelay? != opts[i + 1].WithDelay?
    ensures ApplyAll(c, opts) == ApplyAll(c, opts[i := opts[i + 1]][i + 1 := opts[i]])
  {
    var swapped := opts[i := opts[i + 1]][i + 1 := opts[i]];
    var pre, post := opts[..i], opts[i + 2..];
    assert opts == pre + [opts[i], opts[i + 1]] + post;
    assert swapped == pre + [opts[i + 1], opts[i]] + post;
    ApplyAllAppend(c, pre + [opts[i], opts[i + 1]], post);
    ApplyAllAppend(c, pre + [opts[i + 1], opts[i]], post);
    ApplyAllAppend(c, pre, [opts[i], opts[i + 1]]);
    ApplyAllAppend(c, pre, [opts[i + 1], opts[i]]);
    var mid := ApplyAll(c, pre);
    assert [opts[i], opts[i + 1]][..1] == [opts[i]];
    assert [opts[i + 1], opts[i]][..1] == [opts[i + 1]];
    assert ApplyAll(mid, [opts[i], opts[i + 1]]) == Apply(opts[i + 1], Apply(opts[i], mid));
    assert ApplyAll(mid, [opts[i + 1], opts[i]]) == Apply(opts[i], Apply(opts[i + 1], mid));
  }
}
