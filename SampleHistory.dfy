/**
 * The fixed-capacity FPS / frame-time sample history of the debug UI
 * (`ModuleImGui::CycleFPSAndMsData`, ModuleImGui.cpp:459-487).
 *
 * A history is a `seq` standing for the `std::vector<float>` the source
 * grows with `push_back` and shifts in place once it holds
 * `MAX_FPS_MS_COUNT` samples. The samples are only copied, never computed
 * on, so the element type is generic.
 *
 * Two step functions are given:
 *  - `CycleAsWritten`, the step exactly as the source's loop performs it:
 *    the shift stops at index `Capacity - 2`, so slot `Capacity - 2` keeps
 *    its old value instead of receiving the one from slot `Capacity - 1`;
 *  - `CycleFifo`, the first-in-first-out step the histogram is meant to
 *    show.
 * The lemmas say what a whole stream of samples leaves in each history and
 * exactly when the two steps differ.
 */
module SampleHistory {

  /** `MAX_FPS_MS_COUNT` */
  const Capacity: nat := 81

  function Min(a: int, b: int): int { if a <= b then a else b }

  /** One `CycleFPSAndMsData` step on one history, as written in the source. */
  function CycleAsWritten<T>(h: seq<T>, x: T): (r: seq<T>)
    requires |h| <= Capacity
    ensures |r| == Min(|h| + 1, Capacity)
    ensures r[|r| - 1] == x
    ensures |h| < Capacity ==> r[..|h|] == h
    ensures |h| == Capacity ==>
      (forall i :: 0 <= i < Capacity - 2 ==> r[i] == h[i + 1]) && r[Capacity - 2] == h[Capacity - 2]
  {
    if |h| < Capacity then h + [x]
    else h[1..Capacity - 1] + [h[Capacity - 2], x]
  }

  /** One step of the intended first-in-first-out history. */
  function CycleFifo<T>(h: seq<T>, x: T): (r: seq<T>)
    requires |h| <= Capacity
    ensures |r| == Min(|h| + 1, Capacity)
    ensures r[|r| - 1] == x
    ensures |h| < Capacity ==> r[..|h|] == h
    ensures |h| == Capacity ==> forall i :: 0 <= i < Capacity - 1 ==> r[i] == h[i + 1]
  {
    if |h| < Capacity then h + [x] else h[1..] + [x]
  }

  /**
   * The loop of ModuleImGui.cpp:462-473 on one history, as written: below
   * capacity the sample is appended; at capacity only slots
   * `0 .. Capacity - 3` are shifted down by one before the last slot is
   * overwritten.
   */
  method CycleSamplesAsWritten<T>(h: seq<T>, x: T) returns (r: seq<T>)
    requires |h| <= Capacity
    ensures r == CycleAsWritten(h, x)
  {
    if |h| >= Capacity {
      r := h;
      var i := 0;
      while i < Capacity - 2
        invariant 0 <= i <= Capacity - 2
        invariant |r| == Capacity
        invariant forall k :: 0 <= k < i ==> r[k] == h[k + 1]
        invariant forall k :: i <= k < Capacity ==> r[k] == h[k]
      {
        r := r[i := r[i + 1]];
        i := i + 1;
      }
      r := r[Capacity - 1 := x];
      ghost var spec := CycleAsWritten(h, x);
      assert forall k :: 0 <= k < Capacity ==> r[k] == spec[k];
    } else {
      r := h + [x];
    }
  }

  /**
   * The same loop with the shift running over every slot but the last, as
   * the histogram needs: at capacity the oldest sample is dropped and the
   * new one written at the end.
   */
  method CycleSamples<T>(h: seq<T>, x: T) returns (r: seq<T>)
    requires |h| <= Capacity
    ensures r == CycleFifo(h, x)
  {
    if |h| >= Capacity {
      r := h;
      var i := 0;
      while i < Capacity - 1
        invariant 0 <= i <= Capacity - 1
        invariant |r| == Capacity
        invariant forall k :: 0 <= k < i ==> r[k] == h[k + 1]
        invariant forall k :: i <= k < Capacity ==> r[k] == h[k]
      {
        r := r[i := r[i + 1]];
        i := i + 1;
      }
      r := r[Capacity - 1 := x];
      ghost var spec := CycleFifo(h, x);
      assert forall k :: 0 <= k < Capacity ==> r[k] == spec[k];
    } else {
      r := h + [x];
    }
  }

  /** What the as-written history holds after the given stream of samples. */
  function HistoryAsWritten<T>(samples: seq<T>): (r: seq<T>)
    ensures |r| == Min(|samples|, Capacity)
  {
    if samples == [] then []
    else CycleAsWritten(HistoryAsWritten(samples[..|samples| - 1]), samples[|samples| - 1])
  }

  /** What the intended FIFO history holds after the given stream of samples. */
  function FifoHistory<T>(samples: seq<T>): (r: seq<T>)
    ensures |r| == Min(|samples|, Capacity)
  {
    if samples == [] then []
    else CycleFifo(FifoHistory(samples[..|samples| - 1]), samples[|samples| - 1])
  }

  /** Until the history is full, both forms keep every sample in arrival order. */
  lemma {:induction false} HistoryBelowCapacity<T>(samples: seq<T>)
    requires |samples| <= Capacity
    ensures HistoryAsWritten(samples) == samples
    ensures FifoHistory(samples) == samples
  {
    if samples != [] {
      var prefix := samples[..|samples| - 1];
      HistoryBelowCapacity(prefix);
      assert prefix + [samples[|samples| - 1]] == samples;
    }
  }

  /** The FIFO history always holds the latest `Capacity` samples, oldest first. */
  lemma {:induction false} FifoHistoryKeepsLatest<T>(samples: seq<T>)
    ensures FifoHistory(samples) == samples[|samples| - Min(|samples|, Capacity)..]
  {
    if samples != [] {
      var n := |samples|;
      var prefix := samples[..n - 1];
      FifoHistoryKeepsLatest(prefix);
      if n - 1 < Capacity {
        assert prefix + [samples[n - 1]] == samples;
      } else {
        var h := FifoHistory(prefix);
        assert h == prefix[n - 1 - Capacity..];
        assert FifoHistory(samples) == h[1..] + [samples[n - 1]];
        assert h[1..] == samples[n - Capacity..n - 1];
        assert samples[n - Capacity..] == samples[n - Capacity..n - 1] + [samples[n - 1]];
      }
    }
  }

  /**
   * Once full, slot `i < Capacity - 1` of the as-written history holds
   * sample `Min(i + k, Capacity - 2)`, where `k` is the number of samples
   * taken after the history filled; only the last slot follows new samples.
   */
  lemma {:induction false} HistoryAsWrittenAt<T>(samples: seq<T>, i: nat)
    requires Capacity <= |samples| && i < Capacity
    ensures i < Capacity - 1 ==>
      HistoryAsWritten(samples)[i] == samples[Min(i + |samples| - Capacity, Capacity - 2)]
    ensures i == Capacity - 1 ==> HistoryAsWritten(samples)[i] == samples[|samples| - 1]
  {
    var n := |samples|;
    if n == Capacity {
      HistoryBelowCapacity(samples);
    } else {
      var prefix := samples[..n - 1];
      assert HistoryAsWritten(samples) == CycleAsWritten(HistoryAsWritten(prefix), samples[n - 1]);
      if i < Capacity - 2 {
        HistoryAsWrittenAt(prefix, i + 1);
      } else if i == Capacity - 2 {
        HistoryAsWrittenAt(prefix, i);
      }
    }
  }

  /**
   * After `2 * Capacity - 2` samples every slot but the last of the
   * as-written history shows the same sample, whatever the stream was.
   */
  lemma HistoryAsWrittenFreezes<T>(samples: seq<T>)
    requires |samples| >= 2 * Capacity - 2
    ensures forall i :: 0 <= i < Capacity - 1 ==> HistoryAsWritten(samples)[i] == samples[Capacity - 2]
  {
    forall i | 0 <= i < Capacity - 1
      ensures HistoryAsWritten(samples)[i] == samples[Capacity - 2]
    {
      HistoryAsWrittenAt(samples, i);
    }
  }

  /**
   * On a full history the as-written step gives the FIFO step's result
   * exactly when the two newest samples already held are equal.
   */
  lemma CycleDiffersFromFifo<T>(h: seq<T>, x: T)
    requires |h| == Capacity
    ensures CycleAsWritten(h, x) == CycleFifo(h, x) <==> h[Capacity - 2] == h[Capacity - 1]
  {
    var a, f := CycleAsWritten(h, x), CycleFifo(h, x);
    if h[Capacity - 2] == h[Capacity - 1] {
      assert forall k :: 0 <= k < Capacity ==> a[k] == f[k];
    } else {
      assert a[Capacity - 2] != f[Capacity - 2];
    }
  }

  /** A concrete full history 0, 1, ..., 80 followed by sample 81. */
  lemma CycleAsWrittenCounterexample()
    ensures var h := seq(Capacity, k => k);
      CycleAsWritten(h, 81)[Capacity - 2] == 79 && CycleFifo(h, 81)[Capacity - 2] == 80
  {
    var h := seq(Capacity, k => k);
    assert h[Capacity - 2] == 79 && h[Capacity - 1] == 80;
  }
}
