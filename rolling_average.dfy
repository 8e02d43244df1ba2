/** The rolling-average accumulator: a 16-slot circular buffer of elapsed
    times (in seconds, exact reals in place of doubles), a write index that
    wraps modulo 16, and a count of stored samples that saturates at 16.
    The report is the sum of the first `total` slots divided by `total`. */
module RollingAverage {

  /** Number of slots of the window (the element count of average_buffer). */
  const Capacity: nat := 0x10

  function Min(a: nat, b: nat): nat { if a <= b then a else b }

  /** Left-to-right sum, in the order the accumulator loop adds the slots. */
  function Sum(s: seq<real>): real
  {
    if s == [] then 0.0 else Sum(s[..|s| - 1]) + s[|s| - 1]
  }

  function Mean(s: seq<real>): real
    requires |s| > 0
  {
    Sum(s) / (|s| as real)
  }

  /** The samples a sliding window of Capacity holds after `history` was
      pushed: all of them while there are at most Capacity, afterwards the
      Capacity most recent ones. */
  function Recent(history: seq<real>): (r: seq<real>)
    ensures |r| == Min(|history|, Capacity)
    ensures r == history[|history| - |r|..]
  {
    if |history| <= Capacity then history else history[|history| - Capacity..]
  }

  lemma {:induction false} SumAppend(a: seq<real>, b: seq<real>)
    ensures Sum(a + b) == Sum(a) + Sum(b)
    decreases |b|
  {
    if b == [] {
      assert a + b == a;
    } else {
      var b' := b[..|b| - 1];
      assert (a + b)[..|a + b| - 1] == a + b';
      SumAppend(a, b');
    }
  }

  /** Summing a window that starts at any slot gives the same total as
      summing the slots from 0: the order of the samples does not matter. */
  lemma SumRotate(s: seq<real>, k: nat)
    requires k <= |s|
    ensures Sum(s[k..] + s[..k]) == Sum(s)
  {
    SumAppend(s[k..], s[..k]);
    SumAppend(s[..k], s[k..]);
    assert s[..k] + s[k..] == s;
  }

  /** One more sample extends a window that is not yet full, and evicts the
      oldest sample of a full one. */
  lemma RecentPush(history: seq<real>, sample: real)
    ensures |history| < Capacity ==> Recent(history + [sample]) == history + [sample]
    ensures Capacity <= |history| ==> Recent(history + [sample]) == Recent(history)[1..] + [sample]
  {
    var h := history + [sample];
    if Capacity <= |history| {
      assert Recent(h) == h[|h| - Capacity..];
      assert Recent(history)[1..] == history[|history| - Capacity + 1..];
      assert h[|h| - Capacity..] == history[|history| - Capacity + 1..] + [sample];
    }
  }

  lemma ModSucc(n: nat)
    ensures (n % Capacity + 1) % Capacity == (n + 1) % Capacity
  {
  }

  /** Two positions pushed fewer than Capacity apart use different slots. */
  lemma ModDistinct(p: nat, n: nat)
    requires p < n < p + Capacity
    ensures p % Capacity != n % Capacity
  {
  }

  class SampleWindow {
    const slots: array<real>
    var index: nat
    var total: nat
    /** Every sample pushed so far, oldest first. */
    ghost var History: seq<real>

    /** Each of the `total` most recent samples sits in the slot its position
        in the history selects modulo Capacity. */
    ghost predicate Valid()
      reads this, slots
    {
      slots.Length == Capacity &&
      total == Min(|History|, Capacity) &&
      index == |History| % Capacity &&
      forall p :: |History| - total <= p < |History| ==> slots[p % Capacity] == History[p]
    }

    /** The samples the window currently holds, oldest first. */
    ghost function Window(): seq<real>
      reads this
    {
      Recent(History)
    }

    /** The state at benchmark.c:228-232: no sample stored, writing at slot 0. */
    constructor ()
      ensures Valid() && fresh(slots)
      ensures History == [] && index == 0 && total == 0
    {
      slots := new real[Capacity];
      index := 0;
      total := 0;
      History := [];
    }

    /** Stores one elapsed time (benchmark.c:274-276). */
    method Push(sample: real)
      requires Valid()
      modifies this, slots
      ensures Valid()
      ensures History == old(History) + [sample]
      ensures index == (old(index) + 1) % Capacity
      ensures total == Min(Capacity, old(total) + 1)
      ensures slots[old(index)] == sample
      ensures forall j :: 0 <= j < Capacity && j != old(index) ==> slots[j] == old(slots[j])
    {
      ModSucc(|History|);
      slots[index] := sample;
      index := (index + 1) % Capacity;
      total := Min(Capacity, total + 1);
      History := History + [sample];
      forall p | |History| - total <= p < |History| - 1
        ensures slots[p % Capacity] == History[p]
      {
        ModDistinct(p, |History| - 1);
      }
    }

    /** Reports the mean of the stored samples (benchmark.c:278-283); the
        count is positive after any push, so the division is defined. */
    method Average() returns (avg: real)
      requires Valid() && total > 0
      ensures avg == Sum(slots[..total]) / (total as real)
      ensures avg == Mean(Window())
    {
      var sum := 0.0;
      var i := 0;
      while i < total
        invariant i <= total
        invariant sum == Sum(slots[..i])
      {
        assert slots[..i + 1][..i] == slots[..i];
        sum := sum + slots[i];
        i := i + 1;
      }
      SlotsSumToWindow(this);
      avg := sum / (total as real);
    }

    /** One pass of the reporting loop body: push, then average
        (benchmark.c:274-283). */
    method Record(sample: real) returns (avg: real)
      requires Valid()
      modifies this, slots
      ensures Valid() && History == old(History) + [sample]
      ensures 1 <= total <= Capacity
      ensures avg == Mean(Window())
    {
      Push(sample);
      avg := Average();
    }
  }

  /** The index and count stay in range, and while the window is filling
      the write index equals the count. */
  lemma IndexTracksTotal(w: SampleWindow)
    requires w.Valid()
    ensures w.index < Capacity && w.total <= Capacity
    ensures w.total < Capacity ==> w.index == w.total
  {
  }

  /** While at most Capacity samples were pushed, slots 0..k-1 hold them in
      order; once full, the slots read from the write index onwards and then
      around hold the Capacity most recent samples, oldest first. */
  lemma SlotsHoldWindow(w: SampleWindow)
    requires w.Valid()
    ensures |w.History| <= Capacity ==> w.slots[..|w.History|] == w.History
    ensures Capacity <= |w.History| ==> w.slots[w.index..] + w.slots[..w.index] == w.Window()
    ensures Capacity <= |w.History| ==> multiset(w.slots[..]) == multiset(w.Window())
  {
    var h, n := w.History, |w.History|;
    if n <= Capacity {
      forall p | 0 <= p < n ensures w.slots[..n][p] == h[p] {
        assert p % Capacity == p;
      }
    } else {
      var rot := w.slots[w.index..] + w.slots[..w.index];
      forall k | 0 <= k < Capacity ensures rot[k] == w.Window()[k] {
        var p := n - Capacity + k;
        assert w.Window()[k] == h[p];
        RotatedSlot(n, k);
        if k < Capacity - w.index {
          assert rot[k] == w.slots[w.index + k];
        } else {
          assert rot[k] == w.slots[w.index + k - Capacity];
        }
      }
      assert w.slots[..] == w.slots[..w.index] + w.slots[w.index..];
    }
  }

  lemma RotatedSlot(n: nat, k: nat)
    requires Capacity <= n && k < Capacity
    ensures (n - Capacity + k) % Capacity ==
            if k < Capacity - n % Capacity then n % Capacity + k else n % Capacity + k - Capacity
  {
  }

  /** The slots the accumulator loop adds (0..total-1) sum to the window. */
  lemma SlotsSumToWindow(w: SampleWindow)
    requires w.Valid()
    ensures Sum(w.slots[..w.total]) == Sum(w.Window())
  {
    SlotsHoldWindow(w);
    if Capacity <= |w.History| {
      assert w.slots[..w.total] == w.slots[..];
      SumRotate(w.slots[..], w.index);
    }
  }

  /** The first report of a run is exactly the first batch's elapsed time. */
  method FirstReport(elapsed: real) returns (avg: real)
    ensures avg == elapsed
  {
    var w := new SampleWindow();
    avg := w.Record(elapsed);
    assert w.Window() == [elapsed];
    assert [elapsed][..0] == [];
    assert Sum([elapsed]) == elapsed;
  }
}
