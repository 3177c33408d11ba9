/** The landmark noise filter: an exponential moving average held across
    frames. Each call blends 60% of the current coordinates with 40% of the
    previous output and remembers the result. */
module Smoothing {
  import Face

  const CurrentWeight: real := 0.6
  const HistoryWeight: real := 0.4

  /** One filter step on values: the new coordinates for current, given the
      history. Entries of history beyond |current| are not used. */
  function Smooth(current: seq<real>, history: seq<real>): (filtered: seq<real>)
    requires |current| <= |history|
    ensures |filtered| == |current|
    ensures forall i :: 0 <= i < |current| ==>
      filtered[i] - current[i] == HistoryWeight * (history[i] - current[i])
  {
    seq(|current|, i requires 0 <= i < |current| => CurrentWeight * current[i] + HistoryWeight * history[i])
  }

  /** The history after a step: the filtered values, then the untouched tail. */
  function NextHistory(current: seq<real>, history: seq<real>): (next: seq<real>)
    requires |current| <= |history|
    ensures |next| == |history|
    ensures next[..|current|] == Smooth(current, history)
    ensures next[|current|..] == history[|current|..]
  {
    Smooth(current, history) + history[|current|..]
  }

  /** The first call after start-up, with an all-zero history, scales every
      coordinate by exactly 0.6. */
  lemma FirstCallScales(current: seq<real>, history: seq<real>)
    requires |current| <= |history|
    requires forall i :: 0 <= i < |history| ==> history[i] == 0.0
    ensures forall i :: 0 <= i < |current| ==> Smooth(current, history)[i] == 0.6 * current[i]
  {
  }

  /** Input equal to the stored history is a fixed point: output equals input
      and the history does not change. */
  lemma FixedPoint(current: seq<real>, history: seq<real>)
    requires |current| <= |history| && history[..|current|] == current
    ensures Smooth(current, history) == current
    ensures NextHistory(current, history) == history
  {
    assert forall i :: 0 <= i < |current| ==> history[i] == current[i];
    assert Smooth(current, history) == history[..|current|];
    assert history[..|current|] + history[|current|..] == history;
  }

  function Pow(b: real, n: nat): real
  {
    if n == 0 then 1.0 else b * Pow(b, n - 1)
  }

  lemma {:induction false} PowPositive(b: real, n: nat)
    requires b > 0.0
    ensures Pow(b, n) > 0.0
  {
    if n > 0 {
      PowPositive(b, n - 1);
    }
  }

  /** The history after filtering the same input n times. */
  function HistoryAfter(current: seq<real>, history: seq<real>, n: nat): (h: seq<real>)
    requires |current| <= |history|
    ensures |h| == |history|
  {
    if n == 0 then history else NextHistory(current, HistoryAfter(current, history, n - 1))
  }

  /** Filtering a constant input n times shrinks the distance between the
      output and the input by a factor 0.4 per call. */
  lemma {:induction false} GeometricDecay(current: seq<real>, history: seq<real>, n: nat, i: int)
    requires |current| <= |history| && 0 <= i < |current|
    ensures HistoryAfter(current, history, n)[i] - current[i] == Pow(HistoryWeight, n) * (history[i] - current[i])
  {
    if n > 0 {
      var previous := HistoryAfter(current, history, n - 1);
      GeometricDecay(current, history, n - 1, i);
      assert HistoryAfter(current, history, n) == NextHistory(current, previous);
      assert NextHistory(current, previous)[i] == Smooth(current, previous)[i];
      assert Smooth(current, previous)[i] - current[i] == HistoryWeight * (previous[i] - current[i]);
    }
  }

  /** A constant input is reached after finitely many calls only when the
      history already held it. */
  lemma NeverReachesInput(current: seq<real>, history: seq<real>, n: nat, i: int)
    requires |current| <= |history| && 0 <= i < |current|
    ensures HistoryAfter(current, history, n)[i] == current[i] <==> history[i] == current[i]
  {
    GeometricDecay(current, history, n, i);
    PowPositive(HistoryWeight, n);
    if HistoryAfter(current, history, n)[i] == current[i] {
      assert Pow(HistoryWeight, n) * (history[i] - current[i]) == 0.0;
    }
  }

  /** The filter's state: the last output, one entry per landmark coordinate. */
  class EAFilter {
    const lastValue: array<real>

    constructor ()
      ensures lastValue.Length == Face.LandmarkCoordsLength
      ensures fresh(lastValue)
      ensures forall i :: 0 <= i < lastValue.Length ==> lastValue[i] == 0.0
    {
      lastValue := new real[Face.LandmarkCoordsLength](_ => 0.0);
    }

    /** Filters landmarks in place. A longer array than the history would
        index past the history's end. */
    method Filter(landmarks: array<real>)
      requires landmarks.Length <= lastValue.Length
      requires landmarks != lastValue
      modifies landmarks, lastValue
      ensures landmarks[..] == Smooth(old(landmarks[..]), old(lastValue[..]))
      ensures lastValue[..] == NextHistory(old(landmarks[..]), old(lastValue[..]))
    {
      for i := 0 to landmarks.Length
        invariant forall k :: 0 <= k < i ==>
          landmarks[k] == CurrentWeight * old(landmarks[k]) + HistoryWeight * old(lastValue[k]) &&
          lastValue[k] == landmarks[k]
        invariant forall k :: i <= k < landmarks.Length ==> landmarks[k] == old(landmarks[k])
        invariant forall k :: i <= k < lastValue.Length ==> lastValue[k] == old(lastValue[k])
      {
        landmarks[i] := CurrentWeight * landmarks[i] + HistoryWeight * lastValue[i];
        lastValue[i] := landmarks[i];
      }
      assert lastValue[..] == lastValue[..landmarks.Length] + lastValue[landmarks.Length..];
    }
  }
}
