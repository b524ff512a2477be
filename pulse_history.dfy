/**
 * frontend/src/App.tsx, the pulse-history state updater: append the new pulse
 * reading, then drop the oldest once the history holds more than ten.
 */
module PulseHistory {

  const Capacity: nat := 10

  /** The history the updater returns for `prev` and the reading `pulse`. */
  function Updated(prev: seq<real>, pulse: real): seq<real>
  {
    var grown := prev + [pulse];
    if |grown| > Capacity then grown[1..] else grown
  }

  /** The new reading always ends the history. */
  lemma UpdatedEndsWithReading(prev: seq<real>, pulse: real)
    ensures |Updated(prev, pulse)| > 0
    ensures Updated(prev, pulse)[|Updated(prev, pulse)| - 1] == pulse
  {
  }

  /** Below capacity nothing is evicted. */
  lemma UpdatedBelowCapacity(prev: seq<real>, pulse: real)
    requires |prev| < Capacity
    ensures Updated(prev, pulse) == prev + [pulse]
  {
  }

  /** At capacity exactly the oldest reading is dropped; the others keep their order. */
  lemma UpdatedAtCapacity(prev: seq<real>, pulse: real)
    requires |prev| == Capacity
    ensures Updated(prev, pulse) == prev[1..] + [pulse]
    ensures |Updated(prev, pulse)| == Capacity
  {
  }

  /** The history after pushing `pulses` one by one onto `start`. */
  function Replay(start: seq<real>, pulses: seq<real>): seq<real>
  {
    if pulses == [] then start
    else Updated(Replay(start, pulses[..|pulses| - 1]), pulses[|pulses| - 1])
  }

  /** Dropping a prefix of all but the last element commutes with appending that element. */
  lemma SuffixOfInit(s: seq<real>, j: nat)
    requires s != [] && j <= |s| - 1
    ensures s[..|s| - 1][j..] + [s[|s| - 1]] == s[j..]
  {
  }

  /** From an empty history the window is always the last (at most ten) readings pushed, oldest first. */
  lemma {:induction false} ReplayIsWindow(pulses: seq<real>)
    ensures |Replay([], pulses)| == if |pulses| < Capacity then |pulses| else Capacity
    ensures Replay([], pulses) == pulses[|pulses| - |Replay([], pulses)|..]
  {
    if pulses != [] {
      var n := |pulses|;
      var init := pulses[..n - 1];
      ReplayIsWindow(init);
      var prev := Replay([], init);
      var last := pulses[n - 1];
      assert Replay([], pulses) == Updated(prev, last);
      if |prev| < Capacity {
        SuffixOfInit(pulses, 0);
        assert Updated(prev, last) == prev + [last] == pulses[0..];
      } else {
        var grown := prev + [last];
        SuffixOfInit(pulses, n - Capacity - 1);
        assert grown == pulses[n - Capacity - 1..];
        assert grown[1..] == pulses[n - Capacity..];
      }
    }
  }

  /** Eleven pushes onto an empty history leave ten readings: the first one pushed is gone. */
  lemma EleventhPushEvictsFirst(pulses: seq<real>)
    requires |pulses| == Capacity + 1
    ensures Replay([], pulses) == pulses[1..]
    ensures |Replay([], pulses)| == Capacity
  {
    ReplayIsWindow(pulses);
  }

  /** The `pulseHistory` state cell, changed only through its updater. */
  class History {
    var readings: seq<real>

    ghost predicate Valid()
      reads this
    {
      |readings| <= Capacity
    }

    /** `useState<number[]>([])`. */
    constructor ()
      ensures Valid() && readings == []
    {
      readings := [];
    }

    /** `setPulseHistory(prev => ...)`: copy, append, and shift once past capacity. */
    method Push(pulse: real)
      modifies this
      ensures readings == Updated(old(readings), pulse)
      ensures old(Valid()) ==> Valid()
    {
      var newHistory := readings + [pulse];
      if |newHistory| > Capacity {
        newHistory := newHistory[1..];
      }
      readings := newHistory;
    }
  }
}
