/** The incremental trainer: after an optional initial training run, it trains one grid per window
    of the (date-ordered) data, a window of `w` items moved forward `s` items at a time, and hands
    each run the grid learned by the run before it. `train` itself is a parameter: only the
    arguments it is called with are modelled. */
module SlidingWindow {
  import opened Js

  /** The keyword arguments `train` receives; None for a key that is absent (and, for `pi`, for
      Python's None). */
  datatype Kwargs<D, P> = Kwargs(data: Option<seq<D>>, maxIter: Option<int>,
                                 outputDirectory: Option<string>, pi: Option<P>)

  /** How a call of the trainer ends. */
  datatype Outcome = Completed | AssertionError | ZeroDivisionError

  // ---------------------------------------------------------------------------------------------
  // Python semantics

  /** A slice bound as Python normalises it: a negative index counts from the end, and the result
      is clamped to 0 .. n. */
  function SliceIndex(i: int, n: nat): (r: nat)
    ensures r <= n
    ensures 0 <= i <= n ==> r == i
  {
    if i < 0 then (if i + n < 0 then 0 else i + n) else if i > n then n else i
  }

  /** `xs[a:b]`. */
  function PySlice<T>(xs: seq<T>, a: int, b: int): (r: seq<T>)
    ensures 0 <= a <= b <= |xs| ==> r == xs[a..b]
    ensures |r| <= |xs|
  {
    var lo, hi := SliceIndex(a, |xs|), SliceIndex(b, |xs|);
    if lo < hi then xs[lo..hi] else []
  }

  /** `int(np.ceil(a / b) + 1) - 1`, the quotient rounded up. */
  function CeilDiv(a: int, b: int): (q: int)
    requires b != 0
    ensures b > 0 ==> (q - 1) * b < a <= q * b
    ensures b < 0 ==> q * b <= a < (q - 1) * b
  {
    if b > 0 then CeilPositive(a, b)
    else
      var q := CeilPositive(-a, -b);
      assert (q - 1) * (-b) == -((q - 1) * b) && q * (-b) == -(q * b);
      q
  }

  function CeilPositive(a: int, b: int): (q: int)
    requires b > 0
    ensures (q - 1) * b < a <= q * b
  {
    var d, m := (-a) / b, (-a) % b;
    assert -a == b * d + m && 0 <= m < b;
    assert a == (-d) * b - m;
    assert (-d - 1) * b == (-d) * b - b;
    -d
  }

  predicate IsSeparator(c: char) {
    c == '.' || c == '/' || c == '\\'
  }

  /** Every '.', '/' and '\' removed, as the three `replace` calls do; every other character is
      kept as often as it occurs. */
  function RemoveSeparators(s: string): (r: string)
    ensures forall k :: 0 <= k < |r| ==> !IsSeparator(r[k])
    ensures forall c :: !IsSeparator(c) ==> multiset(r)[c] == multiset(s)[c]
  {
    if |s| == 0 then ""
    else
      var r := (if IsSeparator(s[0]) then "" else [s[0]]) + RemoveSeparators(s[1..]);
      assert s == [s[0]] + s[1..];
      r
  }

  // ---------------------------------------------------------------------------------------------
  // The windows

  /** A bound after `i` steps of `x := min(x + s, T)`. */
  function Advance(x0: int, s: int, T: int, i: nat): int {
    if i == 0 then x0
    else if Advance(x0, s, T, i - 1) + s < T then Advance(x0, s, T, i - 1) + s
    else T
  }

  /** From `x0 <= T`, a forward step reaches `min(x0 + i * s, T)` and a backward one `x0 + i * s`. */
  lemma {:induction false} AdvanceClosed(x0: int, s: int, T: int, i: nat)
    requires x0 <= T
    ensures s >= 0 ==> Advance(x0, s, T, i) == if x0 + i * s < T then x0 + i * s else T
    ensures s < 0 ==> Advance(x0, s, T, i) == x0 + i * s
  {
    if i > 0 {
      AdvanceClosed(x0, s, T, i - 1);
      assert i * s == (i - 1) * s + s;
      if s < 0 {
        assert (i - 1) * s <= 0;
      } else {
        assert (i - 1) * s <= i * s;
      }
    }
  }

  function First(s: int, T: int, i: nat): int { Advance(0, s, T, i) }

  function Last(w: int, s: int, T: int, i: nat): int { Advance(if w < T then w else T, s, T, i) }

  /** `int(np.ceil((T - w) / s) + 1)`, the number of windows. */
  function WindowCount(T: int, w: int, s: int): int
    requires s != 0
  {
    CeilDiv(T - w, s) + 1
  }

  /** The i-th output directory, `"./" + root + "/iter" + str(i)`. */
  function OutputDirectory(root: string, i: nat): string {
    "./" + root + "/iter" + NatToString(i)
  }

  /** The grid handed to the first window: the initial run's, or None without one. */
  function InitialPi<D, P>(train: Kwargs<D, P> -> P, kwargs: Kwargs<D, P>, runInitialTrain: bool): Option<P> {
    if runInitialTrain then Some(train(kwargs)) else None
  }

  predicate KeysPresent<D, P>(kwargs: Kwargs<D, P>) {
    kwargs.data.Some? && kwargs.maxIter.Some? && kwargs.outputDirectory.Some?
  }

  /** The checks before the loop pass. */
  predicate Ready<D, P>(w: int, s: int, iterations: seq<int>, kwargs: Kwargs<D, P>) {
    KeysPresent(kwargs) && w < |kwargs.data.value| && s != 0 &&
    |iterations| == WindowCount(|kwargs.data.value|, w, s)
  }

  /** The arguments of the k-th window run, handed the grid `pi`. */
  function WindowArgs<D, P>(data: seq<D>, root: string, w: int, s: int, iterations: seq<int>, k: nat,
                            pi: Option<P>): Kwargs<D, P>
    requires k < |iterations|
  {
    Kwargs(Some(PySlice(data, First(s, |data|, k), Last(w, s, |data|, k))), Some(iterations[k]),
           Some(OutputDirectory(root, k)), pi)
  }

  /** The grid handed to the k-th window run: `pi0` for the first, and for each later one what
      `train` returned for the run before it. */
  function PiBefore<D, P>(data: seq<D>, root: string, w: int, s: int, iterations: seq<int>,
                          train: Kwargs<D, P> -> P, pi0: Option<P>, k: nat): Option<P>
    requires k <= |iterations|
  {
    if k == 0 then pi0
    else Some(train(WindowArgs(data, root, w, s, iterations, k - 1, PiBefore(data, root, w, s, iterations, train, pi0, k - 1))))
  }

  /** `runs` are the first window runs, in order. */
  predicate Chained<D(==), P(==)>(runs: seq<Kwargs<D, P>>, data: seq<D>, root: string, w: int, s: int,
                                  iterations: seq<int>, train: Kwargs<D, P> -> P, pi0: Option<P>) {
    |runs| <= |iterations| &&
    forall k :: 0 <= k < |runs| ==>
      runs[k] == WindowArgs(data, root, w, s, iterations, k, PiBefore(data, root, w, s, iterations, train, pi0, k))
  }

  /** Within the runs, the first is handed `pi0` and each later one the result of `train` on the
      run before it. */
  lemma ChainedPassesPi<D, P>(runs: seq<Kwargs<D, P>>, data: seq<D>, root: string, w: int, s: int,
                              iterations: seq<int>, train: Kwargs<D, P> -> P, pi0: Option<P>)
    requires Chained(runs, data, root, w, s, iterations, train, pi0)
    ensures |runs| > 0 ==> runs[0].pi == pi0
    ensures forall k :: 0 < k < |runs| ==> runs[k].pi == Some(train(runs[k - 1]))
  {
    forall k | 0 < k < |runs|
      ensures runs[k].pi == Some(train(runs[k - 1]))
    {
      assert runs[k - 1] == WindowArgs(data, root, w, s, iterations, k - 1, PiBefore(data, root, w, s, iterations, train, pi0, k - 1));
    }
  }

  lemma ChainedExtend<D, P>(runs: seq<Kwargs<D, P>>, data: seq<D>, root: string, w: int, s: int,
                            iterations: seq<int>, train: Kwargs<D, P> -> P, pi0: Option<P>, next: Kwargs<D, P>)
    requires Chained(runs, data, root, w, s, iterations, train, pi0) && |runs| < |iterations|
    requires next == WindowArgs(data, root, w, s, iterations, |runs|, PiBefore(data, root, w, s, iterations, train, pi0, |runs|))
    ensures Chained(runs + [next], data, root, w, s, iterations, train, pi0)
  {
    var r := runs + [next];
    forall k | 0 <= k < |r|
      ensures r[k] == WindowArgs(data, root, w, s, iterations, k, PiBefore(data, root, w, s, iterations, train, pi0, k))
    {
      if k < |runs| {
        assert r[k] == runs[k];
      } else {
        assert r[k] == next;
      }
    }
  }

  /** The loop of the trainer: one run per entry of `iterations`; the bounds it ends with. */
  method RunWindows<D(==), P(==)>(data: seq<D>, root: string, w: int, s: int, iterations: seq<int>,
                          train: Kwargs<D, P> -> P, pi0: Option<P>)
    returns (runs: seq<Kwargs<D, P>>, first: int, last: int)
    ensures |runs| == |iterations| && Chained(runs, data, root, w, s, iterations, train, pi0)
    ensures first == First(s, |data|, |runs|) && last == Last(w, s, |data|, |runs|)
  {
    var T := |data|;
    var pi := pi0;
    runs := [];
    first, last := 0, if w < T then w else T;
    for i := 0 to |iterations|
      invariant |runs| == i && Chained(runs, data, root, w, s, iterations, train, pi0)
      invariant first == First(s, T, i) && last == Last(w, s, T, i)
      invariant pi == PiBefore(data, root, w, s, iterations, train, pi0, i)
    {
      var args := Kwargs(Some(PySlice(data, first, last)), Some(iterations[i]),
                         Some(OutputDirectory(root, i)), pi);
      assert args == WindowArgs(data, root, w, s, iterations, i, pi);
      ChainedExtend(runs, data, root, w, s, iterations, train, pi0, args);
      pi := Some(train(args));
      runs := runs + [args];
      last := if last + s < T then last + s else T;
      first := if first + s < T then first + s else T;
    }
  }

  /** `SlidingTrainer`: returns the arguments of the window runs, in order, and how the call ends.
      A failed check before the loop ends the call with no window run; after the loop, the final
      check fails exactly when the last window stopped short of the data's end. */
  method SlidingTrainer<D(==), P(==)>(w: int, s: int, iterations: seq<int>, train: Kwargs<D, P> -> P,
                              kwargs: Kwargs<D, P>, runInitialTrain: bool)
    returns (runs: seq<Kwargs<D, P>>, outcome: Outcome)
    ensures !KeysPresent(kwargs) ==> outcome == AssertionError && runs == []
    ensures KeysPresent(kwargs) && w >= |kwargs.data.value| ==> outcome == AssertionError && runs == []
    ensures KeysPresent(kwargs) && w < |kwargs.data.value| && s == 0 ==> outcome == ZeroDivisionError && runs == []
    ensures KeysPresent(kwargs) && w < |kwargs.data.value| && s != 0 && !Ready(w, s, iterations, kwargs) ==>
              outcome == AssertionError && runs == []
    ensures Ready(w, s, iterations, kwargs) ==>
              |runs| == |iterations| &&
              Chained(runs, kwargs.data.value, RemoveSeparators(kwargs.outputDirectory.value), w, s, iterations,
                      train, InitialPi(train, kwargs, runInitialTrain)) &&
              (outcome == Completed <==> Last(w, s, |kwargs.data.value|, |runs|) >= |kwargs.data.value|) &&
              (outcome != Completed ==> outcome == AssertionError)
  {
    var pi := InitialPi(train, kwargs, runInitialTrain);
    runs := [];
    if !KeysPresent(kwargs) {
      return runs, AssertionError;
    }
    var data := kwargs.data.value;
    var root := RemoveSeparators(kwargs.outputDirectory.value);
    var T := |data|;
    if !(w < T) {
      return runs, AssertionError;
    }
    if s == 0 {
      return runs, ZeroDivisionError;
    }
    var count := WindowCount(T, w, s);
    if |iterations| != count {
      return runs, AssertionError;
    }
    var first, last;
    runs, first, last := RunWindows(data, root, w, s, iterations, train, pi);
    outcome := if last >= T then Completed else AssertionError;
  }

  // ---------------------------------------------------------------------------------------------
  // Properties

  /** With `0 <= w < T` and a forward step, every window lies inside the data, starts no later than
      it ends and holds at most `w` items; the first is `data[0:w]`. */
  lemma WindowBounds(w: int, s: int, T: int, i: nat)
    requires 0 <= w < T && s > 0
    ensures 0 <= First(s, T, i) <= Last(w, s, T, i) <= T
    ensures Last(w, s, T, i) - First(s, T, i) <= w
    ensures First(s, T, 0) == 0 && Last(w, s, T, 0) == w
  {
    AdvanceClosed(0, s, T, i);
    AdvanceClosed(w, s, T, i);
    assert i * s >= 0;
  }

  /** After the checks pass, the final `assert last_index >= T` holds exactly when the step is
      forward: `WindowCount` windows of a positive step reach the end of the data, and a backward
      step never does. */
  lemma FinalCheckHoldsIffForward(w: int, s: int, T: int)
    requires w < T && s != 0 && WindowCount(T, w, s) >= 0
    ensures Last(w, s, T, WindowCount(T, w, s) as nat) >= T <==> s > 0
  {
    var n := WindowCount(T, w, s);
    var q := n - 1;
    AdvanceClosed(w, s, T, n as nat);
    if s > 0 {
      assert (q - 1) * s < T - w <= q * s;
      assert n * s == q * s + s;
      assert w + n * s >= T;
    } else {
      assert (q - 1) * s > 0;
      assert n <= 1;
      assert n * s <= 0;
    }
  }

  /** Distinct windows write to distinct directories. */
  lemma OutputDirectoriesDistinct(root: string, i: nat, j: nat)
    requires i != j
    ensures OutputDirectory(root, i) != OutputDirectory(root, j)
  {
    var prefix := "./" + root + "/iter";
    assert OutputDirectory(root, i)[|prefix|..] == NatToString(i);
    assert OutputDirectory(root, j)[|prefix|..] == NatToString(j);
  }
}
