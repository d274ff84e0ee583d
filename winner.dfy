/**
 * The winner-detection effect of components/GameCanvas.tsx: a peak blob count
 * kept across renders, reset while no round is active, and a winner callback
 * fired when a round that had a battle is down to one blob.
 */
module Winner {
  import opened Wrappers
  import opened Physics

  /** The peak after one run of the effect. */
  function NextPeak(peak: nat, active: bool, count: nat): (p: nat)
    ensures !active ==> p == 0
    ensures active ==> p >= peak && p >= count && (p == peak || p == count)
  {
    if !active then 0 else if count > peak then count else peak
  }

  /**
   * Whether one run of the effect declares a winner (before the callback check):
   * exactly when a round is active, one blob is left and more than one was seen before.
   */
  function Declares(peak: nat, active: bool, count: nat): (r: bool)
    ensures r <==> active && count == 1 && peak > 1
  {
    active && NextPeak(peak, active, count) > 1 && count == 1
  }

  /** One render the effect sees: the round flag and the number of blobs. */
  datatype Render = Render(active: bool, count: nat)

  /** The peak after a sequence of renders. */
  function PeakAfter(peak: nat, trace: seq<Render>): nat
    decreases |trace|
  {
    if trace == [] then peak else PeakAfter(NextPeak(peak, trace[0].active, trace[0].count), trace[1..])
  }

  /** Whether render `k` of the trace declares a winner. */
  predicate DeclaresAt(peak: nat, trace: seq<Render>, k: nat)
    requires k < |trace|
  {
    Declares(PeakAfter(peak, trace[..k]), trace[k].active, trace[k].count)
  }

  lemma {:induction false} PeakAfterSnoc(peak: nat, trace: seq<Render>, r: Render)
    ensures PeakAfter(peak, trace + [r]) == NextPeak(PeakAfter(peak, trace), r.active, r.count)
    decreases |trace|
  {
    if trace != [] {
      assert (trace + [r])[1..] == trace[1..] + [r];
      PeakAfterSnoc(NextPeak(peak, trace[0].active, trace[0].count), trace[1..], r);
    }
  }

  /** While every render counts at most one blob, the peak stays at most one. */
  lemma {:induction false} PeakStaysLow(peak: nat, trace: seq<Render>)
    requires peak <= 1
    requires forall k :: 0 <= k < |trace| ==> trace[k].count <= 1
    ensures PeakAfter(peak, trace) <= 1
    decreases |trace|
  {
    if trace != [] {
      PeakStaysLow(NextPeak(peak, trace[0].active, trace[0].count), trace[1..]);
    }
  }

  /** A round in which at most one blob was ever present never declares a winner. */
  lemma NoWinnerWithoutBattle(peak: nat, trace: seq<Render>)
    requires peak <= 1
    requires forall k :: 0 <= k < |trace| ==> trace[k].count <= 1
    ensures forall k :: 0 <= k < |trace| ==> !DeclaresAt(peak, trace, k)
  {
    forall k | 0 <= k < |trace|
      ensures !DeclaresAt(peak, trace, k)
    {
      PeakStaysLow(peak, trace[..k]);
    }
  }

  /** While the round stays active the peak never decreases and covers every count seen. */
  lemma {:induction false} PeakMonotoneWhileActive(peak: nat, trace: seq<Render>)
    requires forall k :: 0 <= k < |trace| ==> trace[k].active
    ensures PeakAfter(peak, trace) >= peak
    ensures forall k :: 0 <= k < |trace| ==> PeakAfter(peak, trace) >= trace[k].count
    decreases |trace|
  {
    if trace != [] {
      var next := NextPeak(peak, trace[0].active, trace[0].count);
      PeakMonotoneWhileActive(next, trace[1..]);
      forall k | 0 <= k < |trace|
        ensures PeakAfter(peak, trace) >= trace[k].count
      {
        if k > 0 {
          assert trace[k] == trace[1..][k - 1];
        }
      }
    }
  }

  /** An inactive render forgets the previous round entirely. */
  lemma InactiveResets(peak: nat, trace: seq<Render>, count: nat)
    ensures PeakAfter(peak, trace + [Render(false, count)]) == 0
  {
    PeakAfterSnoc(peak, trace, Render(false, count));
  }

  /** The detector does not latch: once it declares, every further active render with one blob declares again. */
  lemma DeclaresRepeatedly(peak: nat)
    requires Declares(peak, true, 1)
    ensures Declares(NextPeak(peak, true, 1), true, 1)
  {
  }

  /** The effect's state: `maxBlobsRef.current`. */
  class WinnerDetector {
    var peak: nat

    constructor ()
      ensures peak == 0
    {
      peak := 0;
    }

    /**
     * One run of the effect. `hasCallback` is whether `onWinner` is set; the
     * blob it would receive is returned.
     */
    method OnRender(active: bool, blobs: seq<Blob>, hasCallback: bool) returns (winner: Option<Blob>)
      modifies this
      ensures peak == NextPeak(old(peak), active, |blobs|)
      ensures !active ==> peak == 0 && winner.None?
      ensures active ==> peak >= old(peak) && peak >= |blobs|
      ensures winner.Some? <==> hasCallback && active && peak > 1 && |blobs| == 1
      ensures winner.Some? <==> hasCallback && Declares(old(peak), active, |blobs|)
      ensures winner.Some? ==> winner == Some(blobs[0])
    {
      winner := None;
      if !active {
        peak := 0;
      } else {
        if |blobs| > peak {
          peak := |blobs|;
        }
        if peak > 1 && |blobs| == 1 {
          if hasCallback {
            winner := Some(blobs[0]);
          }
        }
      }
    }
  }
}
