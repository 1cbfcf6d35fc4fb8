/**
 * The consumer side of the sampling pipeline (exe3/main.c): a 5-sample box filter kept in a
 * fixed array that is shifted down by one slot once it is full, with a running sum and a
 * C-style truncating average, fed in order with the samples of the waveform table.
 */
module MovingAverage {
  import opened Wrappers

  /** Number of slots of the window (`vetor[5]`), and the divisor of the average. */
  const WindowSize: nat := 5

  /** C's integer division for a positive divisor (Dafny's own `/` is Euclidean). */
  function TruncDiv(a: int, b: int): int
    requires b > 0
  {
    if a >= 0 then a / b else -((-a) / b)
  }

  /** Dafny's division of a non-negative dividend rounds down. */
  lemma FloorDivBounds(n: int, b: int)
    requires n >= 0 && b > 0
    ensures 0 <= (n / b) * b <= n < (n / b) * b + b
  {
    assert n == (n / b) * b + n % b && 0 <= n % b < b;
  }

  /** The quotient is the dividend with its fractional part discarded: rounded toward zero,
   *  never past it, and less than one divisor away from the dividend. */
  lemma TruncDivTruncates(a: int, b: int)
    requires b > 0
    ensures a >= 0 ==> 0 <= TruncDiv(a, b) * b <= a < TruncDiv(a, b) * b + b
    ensures a < 0 ==> TruncDiv(a, b) * b - b < a <= TruncDiv(a, b) * b <= 0
  {
    if a >= 0 {
      FloorDivBounds(a, b);
    } else {
      FloorDivBounds(-a, b);
      assert TruncDiv(a, b) * b == -(((-a) / b) * b);
    }
  }

  /** Negating the dividend negates the quotient: truncation is symmetric about zero. */
  lemma TruncDivOdd(a: int, b: int)
    requires b > 0
    ensures TruncDiv(-a, b) == -TruncDiv(a, b)
  {
  }

  function Sum(s: seq<int>): int
  {
    if s == [] then 0 else s[0] + Sum(s[1..])
  }

  /** Adding a sample at the end adds its value to the sum. */
  lemma {:induction false} SumSnoc(s: seq<int>, x: int)
    ensures Sum(s + [x]) == Sum(s) + x
  {
    if s != [] {
      assert (s + [x])[1..] == s[1..] + [x];
      SumSnoc(s[1..], x);
    }
  }

  /** Evicting the oldest sample and appending a new one moves the sum by their difference:
   *  the incremental update of `sum` agrees with summing the new window. */
  lemma SumEvict(s: seq<int>, x: int)
    requires s != []
    ensures Sum(s[1..] + [x]) == Sum(s) - s[0] + x
  {
    SumSnoc(s[1..], x);
  }

  /** The sum of two stretches of samples is the sum of their sums. */
  lemma {:induction false} SumConcat(a: seq<int>, b: seq<int>)
    ensures Sum(a + b) == Sum(a) + Sum(b)
  {
    if a == [] {
      assert a + b == b;
    } else {
      assert (a + b)[1..] == a[1..] + b;
      SumConcat(a[1..], b);
    }
  }

  lemma {:induction false} SumZeros(s: seq<int>)
    requires forall i :: 0 <= i < |s| ==> s[i] == 0
    ensures Sum(s) == 0
  {
    if s != [] {
      SumZeros(s[1..]);
    }
  }

  /** The printed value for a full window. */
  function Average(w: seq<int>): int
  {
    TruncDiv(Sum(w), WindowSize)
  }

  /** The samples the window holds once `xs` has been received: all of them while fewer
   *  than five have arrived, the last five afterwards. */
  function Recent(xs: seq<int>): (w: seq<int>)
    ensures |w| == if |xs| < WindowSize then |xs| else WindowSize
    ensures w == xs[|xs| - |w|..]
  {
    if |xs| <= WindowSize then xs else xs[|xs| - WindowSize..]
  }

  /** What is printed on receiving the last sample of `xs`: nothing until the window is
   *  full, then the truncated average of the last five samples. */
  function Emit(xs: seq<int>): Option<int>
  {
    if |xs| < WindowSize then None else Some(Average(xs[|xs| - WindowSize..]))
  }

  /** Everything printed while the samples `xs` are received in order. */
  function Emissions(xs: seq<int>): seq<int>
  {
    if |xs| < WindowSize then []
    else Emissions(xs[..|xs| - 1]) + [Average(xs[|xs| - WindowSize..])]
  }

  /** The bookkeeping of one turn of the loop that collects printed values: what receiving
   *  `x` prints is appended to what was printed before. */
  lemma FeedTurn(start: seq<int>, seen: seq<int>, printed: seq<int>, x: int, out: Option<int>)
    requires Emissions(seen) == Emissions(start) + printed
    requires out == Emit(seen + [x])
    ensures Emissions(seen + [x]) == Emissions(start) + (printed + if out.Some? then [out.value] else [])
  {
    EmissionsSnoc(seen, x);
  }

  /** Receiving one more sample prints the average of the last five, once five have arrived. */
  lemma {:induction false} EmissionsSnoc(xs: seq<int>, x: int)
    ensures Emissions(xs + [x]) ==
              if |xs| + 1 < WindowSize then Emissions(xs)
              else Emissions(xs) + [Average((xs + [x])[|xs| + 1 - WindowSize..])]
  {
    assert (xs + [x])[..|xs|] == xs;
  }

  /** Nothing is printed for the first four samples, then exactly one value per sample. */
  lemma {:induction false} EmissionsLength(xs: seq<int>)
    ensures |Emissions(xs)| == if |xs| < WindowSize then 0 else |xs| - (WindowSize - 1)
  {
    if xs != [] {
      var init := xs[..|xs| - 1];
      assert xs == init + [xs[|xs| - 1]];
      EmissionsSnoc(init, xs[|xs| - 1]);
      EmissionsLength(init);
    }
  }

  /** The k-th printed value is the truncated average of samples k .. k+4: the window slides
   *  over the input one sample at a time, in arrival order, skipping and repeating none. */
  lemma {:induction false} EmissionsAt(xs: seq<int>, k: nat)
    requires k < |Emissions(xs)|
    ensures k + WindowSize <= |xs|
    ensures Emissions(xs)[k] == Average(xs[k..k + WindowSize])
  {
    EmissionsLength(xs);
    var init := xs[..|xs| - 1];
    EmissionsLength(init);
    assert Emissions(xs) == Emissions(init) + [Average(xs[|xs| - WindowSize..])];
    if k < |xs| - WindowSize {
      EmissionsAt(init, k);
      assert init[k..k + WindowSize] == xs[k..k + WindowSize];
    } else {
      assert k + WindowSize == |xs|;
      assert xs[k..k + WindowSize] == xs[|xs| - WindowSize..];
    }
  }

  /** `out` holds, in input order, the average of every run of five consecutive samples
   *  of `xs`, and nothing else. */
  ghost predicate SlidingAverages(xs: seq<int>, out: seq<int>)
  {
    |out| == (if |xs| < WindowSize then 0 else |xs| - (WindowSize - 1)) &&
    forall k :: 0 <= k < |out| ==> k + WindowSize <= |xs| && out[k] == Average(xs[k..k + WindowSize])
  }

  /** The printed sequence in closed form: one average per full window of consecutive
   *  samples, in input order. */
  lemma EmissionsClosedForm(xs: seq<int>)
    ensures SlidingAverages(xs, Emissions(xs))
  {
    EmissionsLength(xs);
    forall k | 0 <= k < |Emissions(xs)|
      ensures k + WindowSize <= |xs| && Emissions(xs)[k] == Average(xs[k..k + WindowSize])
    {
      EmissionsAt(xs, k);
    }
  }

  /** Scenario: [10, 20, 30, 40, 50, 60] prints 30 after the fifth sample and 40 after the sixth. */
  lemma ScenarioRising()
    ensures Emissions([10, 20, 30, 40, 50, 60]) == [30, 40]
  {
    EmissionsLength([10, 20, 30, 40]);
    EmissionsSnoc([10, 20, 30, 40], 50);
    assert [10, 20, 30, 40] + [50] == [10, 20, 30, 40, 50];
    EmissionsSnoc([10, 20, 30, 40, 50], 60);
    assert [10, 20, 30, 40, 50] + [60] == [10, 20, 30, 40, 50, 60];
    assert Sum([10, 20, 30, 40, 50]) == 150 by {
      assert [10, 20, 30, 40, 50][1..] == [20, 30, 40, 50];
      assert [20, 30, 40, 50][1..] == [30, 40, 50];
      assert [30, 40, 50][1..] == [40, 50];
    }
    assert Sum([20, 30, 40, 50, 60]) == 200 by {
      assert [20, 30, 40, 50, 60][1..] == [30, 40, 50, 60];
      assert [30, 40, 50, 60][1..] == [40, 50, 60];
      assert [40, 50, 60][1..] == [50, 60];
    }
    assert [10, 20, 30, 40, 50, 60][1..] == [20, 30, 40, 50, 60];
  }

  /** Scenario: the mixed-sign window [1, 1, 1, 1, -6] prints 0 (truncation), where floor
   *  division of its sum would give -1. */
  lemma ScenarioMixedSign()
    ensures Emissions([1, 1, 1, 1, -6]) == [0]
    ensures Sum([1, 1, 1, 1, -6]) / (WindowSize as int) == -1
  {
    EmissionsLength([1, 1, 1, 1]);
    EmissionsSnoc([1, 1, 1, 1], -6);
    assert [1, 1, 1, 1] + [-6] == [1, 1, 1, 1, -6];
    assert Sum([1, 1, 1, 1, -6]) == -2 by {
      assert [1, 1, 1, 1, -6][1..] == [1, 1, 1, -6];
      assert [1, 1, 1, -6][1..] == [1, 1, -6];
      assert [1, 1, -6][1..] == [1, -6];
    }
  }

  /** Scenario: an all-zero signal prints only zeros. */
  lemma AllZerosPrintZeros(xs: seq<int>)
    requires forall i :: 0 <= i < |xs| ==> xs[i] == 0
    ensures forall k :: 0 <= k < |Emissions(xs)| ==> Emissions(xs)[k] == 0
  {
    forall k | 0 <= k < |Emissions(xs)|
      ensures Emissions(xs)[k] == 0
    {
      EmissionsAt(xs, k);
      var w := xs[k..k + WindowSize];
      assert forall i :: 0 <= i < |w| ==> w[i] == xs[k + i];
      SumZeros(w);
    }
  }

  /** The eviction step on a full window: every slot takes the value of the next one, in a
   *  loop from the front, and the new sample goes into the last slot. */
  method ShiftIn(a: array<int>, x: int)
    requires a.Length > 0
    modifies a
    ensures a[..] == old(a[1..]) + [x]
  {
    for i := 0 to a.Length - 1
      invariant forall j :: 0 <= j < i ==> a[j] == old(a[j + 1])
      invariant forall j :: i <= j < a.Length ==> a[j] == old(a[j])
    {
      a[i] := a[i + 1];
    }
    a[a.Length - 1] := x;
  }

  /** Taking one more element of `s` after a prefix `p` appends that element. */
  lemma TakeSnoc(p: seq<int>, s: seq<int>, i: nat)
    requires i < |s|
    ensures p + s[..i + 1] == (p + s[..i]) + [s[i]]
  {
    assert s[..i + 1] == s[..i] + [s[i]];
  }

  lemma TakeAll(p: seq<int>, s: seq<int>)
    ensures p + s[..|s|] == p + s
  {
    assert s[..|s|] == s;
  }

  /** The whole array after `xs` has been received: the recent samples, then the initial
   *  zeros of the slots not yet used. */
  function Slots(xs: seq<int>): seq<int>
  {
    Recent(xs) + Zeros(WindowSize - |Recent(xs)|)
  }

  /** There are always five slots, and they begin with the recent samples in arrival order. */
  lemma SlotsShape(xs: seq<int>)
    ensures |Slots(xs)| == WindowSize
    ensures Slots(xs)[..|Recent(xs)|] == Recent(xs)
  {
    assert Slots(xs)[..|Recent(xs)|] == Recent(xs);
  }

  /** The initial contents of unused slots (`int vetor[5] = {0, 0, 0, 0, 0}`). */
  function Zeros(n: nat): (z: seq<int>)
    ensures |z| == n && forall i :: 0 <= i < n ==> z[i] == 0
  {
    if n == 0 then [] else [0] + Zeros(n - 1)
  }

  /** Before any sample arrives, the slots are the five initial zeros, the counter and the
   *  sum are 0. */
  lemma InvInitial()
    ensures Slots([]) == [0, 0, 0, 0, 0]
    ensures WindowInv([0, 0, 0, 0, 0], 0, 0, [])
  {
    assert Recent([]) == [];
    assert Zeros(WindowSize) == [0, 0, 0, 0, 0];
  }

  /** While the window is filling, a new sample lands in the first unused slot. */
  lemma SlotsFill(xs: seq<int>, x: int)
    requires |xs| < WindowSize
    ensures Recent(xs + [x]) == xs + [x]
    ensures Slots(xs + [x]) == Slots(xs)[|xs| := x]
  {
    assert Slots(xs + [x]) == Slots(xs)[|xs| := x];
  }

  /** Once the window is full, a new sample evicts the oldest and lands in the last slot. */
  lemma SlotsShift(xs: seq<int>, x: int)
    requires |xs| >= WindowSize
    ensures Recent(xs + [x]) == Recent(xs)[1..] + [x]
    ensures Slots(xs + [x]) == Slots(xs)[1..] + [x]
  {
    assert (xs + [x])[|xs| + 1 - WindowSize..] == xs[|xs| - WindowSize..][1..] + [x];
  }

  /** The total of the five slots, written out as the array holds them. */
  function SlotTotal(slots: seq<int>): int
    requires |slots| == WindowSize
  {
    slots[0] + slots[1] + slots[2] + slots[3] + slots[4]
  }

  /** The slot total is the sum of the slots. */
  lemma SlotTotalSum(slots: seq<int>)
    requires |slots| == WindowSize
    ensures SlotTotal(slots) == Sum(slots)
  {
    assert Sum(slots[4..]) == slots[4] by { assert slots[4..][1..] == []; }
    assert Sum(slots[3..]) == slots[3] + Sum(slots[4..]) by { assert slots[3..][1..] == slots[4..]; }
    assert Sum(slots[2..]) == slots[2] + Sum(slots[3..]) by { assert slots[2..][1..] == slots[3..]; }
    assert Sum(slots[1..]) == slots[1] + Sum(slots[2..]) by { assert slots[1..][1..] == slots[2..]; }
  }

  /** The filter's state, apart from where it is stored, after the samples `received`:
   *  the slot contents, the fill counter, and the running sum as the total of the slots
   *  (the unused ones hold zero). */
  ghost predicate WindowInv(slots: seq<int>, filled: nat, sum: int, received: seq<int>)
  {
    |slots| == WindowSize && slots == Slots(received) && filled == |Recent(received)| &&
    sum == SlotTotal(slots)
  }

  /** What the state says: the counter never passes five, the used slots hold the last
   *  `filled` samples in arrival order, the unused slots still hold zero, and the running
   *  sum is the sum of the used slots. */
  lemma InvMeaning(slots: seq<int>, filled: nat, sum: int, received: seq<int>)
    requires WindowInv(slots, filled, sum, received)
    ensures |slots| == WindowSize && filled <= WindowSize
    ensures filled == WindowSize <==> |received| >= WindowSize
    ensures slots[..filled] == received[|received| - filled..]
    ensures forall i :: filled <= i < WindowSize ==> slots[i] == 0
    ensures sum == Sum(slots[..filled]) == Sum(Recent(received))
  {
    SlotsShape(received);
    assert slots[..filled] == Recent(received);
    assert slots == slots[..filled] + Zeros(WindowSize - filled);
    SlotTotalSum(slots);
    SumConcat(slots[..filled], Zeros(WindowSize - filled));
    SumZeros(Zeros(WindowSize - filled));
  }

  /** A sample received while the window fills is stored in slot `filled`, the counter goes
   *  up by one and the sample is added to the sum. */
  lemma InvFill(slots: seq<int>, filled: nat, sum: int, received: seq<int>, x: int)
    requires WindowInv(slots, filled, sum, received) && filled < WindowSize
    ensures WindowInv(slots[filled := x], filled + 1, sum + x, received + [x])
  {
    SlotsShape(received);
    SlotsFill(received, x);
    assert slots[filled] == Zeros(WindowSize - filled)[0];
  }

  /** A sample received into a full window: the oldest sample's value leaves the sum, the
   *  slots move down by one, the sample goes in the last slot and its value joins the sum. */
  lemma InvShift(slots: seq<int>, filled: nat, sum: int, received: seq<int>, x: int)
    requires WindowInv(slots, filled, sum, received) && filled == WindowSize
    ensures WindowInv(slots[1..] + [x], filled, sum - slots[0] + x, received + [x])
  {
    SlotsShift(received, x);
  }

  /** What a step prints follows from the state alone: nothing while the window fills,
   *  then the truncated average of the running sum. */
  lemma EmitFromState(slots: seq<int>, filled: nat, sum: int, received: seq<int>)
    requires WindowInv(slots, filled, sum, received)
    ensures Emit(received) == if filled < WindowSize then None else Some(TruncDiv(sum, WindowSize))
  {
    InvMeaning(slots, filled, sum, received);
    EmitRecent(received);
  }

  /** The three variables of `process_task`, as values: the slots of `vetor`, the fill
   *  counter `preenchidos` and the running `sum`. */
  datatype Window = Window(slots: seq<int>, filled: nat, sum: int)

  /** One sample received, on values: while the window fills the sample goes in slot
   *  `filled` and the counter goes up; once it is full the slots move down by one and the
   *  sample goes in the last slot. Either way its value is added to the sum, and in the
   *  second case the evicted value leaves it. */
  function Receive(w: Window, x: int): (r: Window)
    requires |w.slots| == WindowSize && w.filled <= WindowSize
    ensures |r.slots| == WindowSize && r.filled <= WindowSize
    ensures r.filled == if w.filled < WindowSize then w.filled + 1 else WindowSize
  {
    if w.filled < WindowSize then Window(w.slots[w.filled := x], w.filled + 1, w.sum + x)
    else Window(w.slots[1..] + [x], w.filled, w.sum - w.slots[0] + x)
  }

  /** The state after receiving `xs` in order, starting from five zero slots. */
  function Replay(xs: seq<int>): (w: Window)
    ensures |w.slots| == WindowSize && w.filled <= WindowSize
  {
    if xs == [] then Window([0, 0, 0, 0, 0], 0, 0)
    else Receive(Replay(xs[..|xs| - 1]), xs[|xs| - 1])
  }

  /** Receiving one more sample takes the state one step. */
  lemma ReplaySnoc(xs: seq<int>, x: int)
    ensures Replay(xs + [x]) == Receive(Replay(xs), x)
  {
    assert (xs + [x])[..|xs|] == xs;
  }

  /** Whatever samples have arrived, the state keeps the window invariant: the slots hold
   *  the recent samples in arrival order followed by zeros, the counter counts them and the
   *  running sum is the total of the slots. */
  lemma {:induction false} ReplayInv(xs: seq<int>)
    ensures WindowInv(Replay(xs).slots, Replay(xs).filled, Replay(xs).sum, xs)
  {
    if xs == [] {
      InvInitial();
    } else {
      var init, x := xs[..|xs| - 1], xs[|xs| - 1];
      assert xs == init + [x];
      var w := Replay(init);
      ReplayInv(init);
      if w.filled < WindowSize {
        InvFill(w.slots, w.filled, w.sum, init, x);
      } else {
        InvShift(w.slots, w.filled, w.sum, init, x);
      }
    }
  }

  /** What receiving the last sample of `xs` prints, read off the state: nothing while the
   *  window fills, then the truncated average of the running sum. */
  lemma ReplayEmit(xs: seq<int>)
    ensures Emit(xs) == if Replay(xs).filled < WindowSize then None
                        else Some(TruncDiv(Replay(xs).sum, WindowSize))
  {
    ReplayInv(xs);
    EmitFromState(Replay(xs).slots, Replay(xs).filled, Replay(xs).sum, xs);
  }

  /** Once five samples have arrived, what is printed is the average of the window. */
  lemma EmitRecent(xs: seq<int>)
    ensures Emit(xs) == if |xs| < WindowSize then None else Some(Average(Recent(xs)))
  {
  }

  /** The state of `process_task`: the window array `vetor`, its fill counter `preenchidos`
   *  and the running `sum`. `received` records every sample taken from the queue so far. */
  class AverageFilter {
    var window: array<int>
    var filled: nat
    var sum: int
    ghost var received: seq<int>

    ghost predicate Valid()
      reads this, window
    {
      window.Length == WindowSize && Replay(received) == Window(window[..], filled, sum)
    }

    constructor ()
      ensures Valid() && fresh(window)
      ensures received == [] && filled == 0 && sum == 0
      ensures window[..] == [0, 0, 0, 0, 0]
    {
      var slots := new int[WindowSize](_ => 0);
      assert slots[..] == [0, 0, 0, 0, 0];
      window := slots;
      filled := 0;
      sum := 0;
      received := [];
    }

    /** One received sample: while the window is filling, store it in the next free slot;
     *  once it is full, drop the oldest sample by shifting the array down one slot and store
     *  the new one in the last slot. Either way the sum follows incrementally, and an
     *  average is printed from the fifth sample on. */
    method Step(x: int) returns (out: Option<int>)
      requires Valid()
      modifies this, window
      ensures Valid() && window == old(window)
      ensures received == old(received) + [x]
      ensures old(filled) < WindowSize ==> filled == old(filled) + 1 && window[..] == old(window[..])[old(filled) := x]
      ensures old(filled) == WindowSize ==> filled == WindowSize && window[..] == old(window[1..]) + [x]
      ensures out == Emit(received)
    {
      ghost var seen, next := received, Receive(Window(window[..], filled, sum), x);
      ghost var before := window[..];
      if filled < WindowSize {
        window[filled] := x;
        sum := sum + x;
        filled := filled + 1;
        assert window[..] == before[filled - 1 := x];
        if filled == WindowSize {
          out := Some(TruncDiv(sum, WindowSize));
        } else {
          out := None;
        }
      } else {
        sum := sum - window[0];
        ShiftIn(window, x);
        sum := sum + x;
        out := Some(TruncDiv(sum, WindowSize));
      }
      received := seen + [x];
      assert Window(window[..], filled, sum) == next;
      ReplaySnoc(seen, x);
      ReplayEmit(received);
    }

    /** Receives `samples` in order, one `Step` each, collecting what is printed: nothing is
     *  skipped, repeated or reordered. */
    method Feed(samples: seq<int>) returns (printed: seq<int>)
      requires Valid()
      modifies this, window
      ensures Valid() && window == old(window)
      ensures received == old(received) + samples
      ensures Emissions(received) == Emissions(old(received)) + printed
    {
      ghost var start := received;
      printed := [];
      var i := 0;
      while i < |samples|
        invariant 0 <= i <= |samples|
        invariant Valid() && window == old(window)
        invariant received == start + samples[..i]
        invariant Emissions(received) == Emissions(start) + printed
      {
        ghost var seen := received;
        var out := Step(samples[i]);
        FeedTurn(start, seen, printed, samples[i], out);
        TakeSnoc(start, samples, i);
        printed := printed + if out.Some? then [out.value] else [];
        i := i + 1;
      }
      TakeAll(start, samples);
    }
  }

  /** The producer hands the waveform table to the consumer sample by sample in table order
   *  (the queue is FIFO); the consumer runs every sample through a fresh filter, and the
   *  result is the sequence of printed averages. */
  method Run(samples: seq<int>) returns (printed: seq<int>)
    ensures printed == Emissions(samples)
    ensures SlidingAverages(samples, printed)
  {
    var filter := new AverageFilter();
    printed := filter.Feed(samples);
    assert filter.received == samples;
    assert Emissions([]) == [];
    EmissionsClosedForm(samples);
  }
}
