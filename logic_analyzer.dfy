/** The logic analyzer's list logic (src/main/kotlin/logicanalyzer/LogicAnalyzer.kt):
    a row of named channels, and a bounded history that takes a snapshot of
    the row once per cycle and forgets the oldest snapshot beyond 16. */
module LogicAnalyzers {

  /** One channel: a signal name, its width in bits and its current value. */
  datatype Channel = Channel(name: string, width: int, value: int)

  /** The drawing size `runCycle` reports. */
  datatype Dimension = Dimension(width: int, height: int)

  const MaxHistory: nat := 16
  const ChannelHeight: int := 50
  const CycleWidth: int := 50

  function Min(a: int, b: int): int
  {
    if a < b then a else b
  }

  /** The last `n` elements of `s`. */
  function Last<T>(s: seq<T>, n: nat): seq<T>
    requires n <= |s|
  {
    s[|s| - n..]
  }

  /** The history after one more snapshot: `entry` is appended, and the
      oldest snapshot is dropped when that makes more than 16. A history of
      at most 16 snapshots becomes the latest up to 16 of the old ones and
      `entry`. */
  function Record(history: seq<seq<Channel>>, entry: seq<Channel>): (r: seq<seq<Channel>>)
    ensures |r| >= 1 && r[|r| - 1] == entry
    ensures |history| <= MaxHistory ==>
      |r| == Min(|history| + 1, MaxHistory) && r == Last(history + [entry], |r|)
  {
    var h := history + [entry];
    if |h| > MaxHistory then h[1..] else h
  }

  /** The history after a run of snapshots, one `Record` each. */
  function RecordAll(history: seq<seq<Channel>>, entries: seq<seq<Channel>>): seq<seq<Channel>>
    decreases |entries|
  {
    if |entries| == 0 then history
    else RecordAll(Record(history, entries[0]), entries[1..])
  }

  /** However many cycles run, the history is a sliding window: the latest
      up to 16 snapshots, oldest first. */
  lemma {:induction false} RecordAllWindow(history: seq<seq<Channel>>, entries: seq<seq<Channel>>)
    requires |history| <= MaxHistory
    ensures var r := RecordAll(history, entries);
      |r| == Min(|history| + |entries|, MaxHistory) &&
      r == Last(history + entries, |r|)
    decreases |entries|
  {
    if |entries| > 0 {
      var e, rest := entries[0], entries[1..];
      var h1 := Record(history, e);
      RecordAllWindow(h1, rest);
      WindowStep(history, e, rest, h1, RecordAll(h1, rest));
      assert entries == [e] + rest;
    }
  }

  /** One step of the sliding window: a window of `history + [e]` followed
      by the window of what comes after it is a window of the whole. */
  lemma WindowStep<T>(history: seq<T>, e: T, rest: seq<T>, h1: seq<T>, r: seq<T>)
    requires |history| <= MaxHistory
    requires |h1| == Min(|history| + 1, MaxHistory) && h1 == Last(history + [e], |h1|)
    requires |r| == Min(|h1| + |rest|, MaxHistory) && r == Last(h1 + rest, |r|)
    ensures |r| == Min(|history| + 1 + |rest|, MaxHistory)
    ensures r == Last(history + ([e] + rest), |r|)
  {
    LastAppend(history + [e], rest, |h1|, |r|);
    assert history + [e] + rest == history + ([e] + rest);
  }

  /** Keeping the last `m` elements and appending `t`, then keeping the last
      `n`, is keeping the last `n` of the whole when `n` does not reach
      past what was kept. */
  lemma LastAppend<T>(s: seq<T>, t: seq<T>, m: nat, n: nat)
    requires m <= |s| && n <= m + |t|
    ensures Last(Last(s, m) + t, n) == Last(s + t, n)
  {
    var a, b := Last(Last(s, m) + t, n), Last(s + t, n);
    forall i | 0 <= i < n
      ensures a[i] == b[i]
    {
      var j := |Last(s, m) + t| - n + i;
      if j < m {
        assert a[i] == s[|s| - m + j];
      } else {
        assert a[i] == t[j - m];
      }
    }
  }

  class LogicAnalyzer {
    var channels: seq<Channel>
    var history: seq<seq<Channel>>
    /** The cycle count, a 32-bit `Int`. */
    var cycle: int

    /** The history never holds more than 16 snapshots, and the cycle
        count is a 32-bit value. */
    predicate Valid()
      reads this
    {
      |history| <= MaxHistory && -0x8000_0000 <= cycle < 0x8000_0000
    }

    constructor()
      ensures Valid() && channels == [] && history == [] && cycle == 0
    {
      channels, history, cycle := [], [], 0;
    }

    /** `setChannel`: slot `pos` is replaced, or a new channel is added at
        the end when `pos` is the row's length (the list's `add(pos, …)`
        refuses a larger index, and `set` a negative one). Earlier
        snapshots are values and stay as they were. */
    method SetChannel(pos: int, name: string, width: int, value: int)
      requires 0 <= pos <= |channels|
      modifies this
      ensures pos < old(|channels|) ==> channels == old(channels)[pos := Channel(name, width, value)]
      ensures pos == old(|channels|) ==> channels == old(channels) + [Channel(name, width, value)]
      ensures history == old(history) && cycle == old(cycle)
    {
      if pos >= |channels| {
        channels := channels + [Channel(name, width, value)];
      } else {
        channels := channels[pos := Channel(name, width, value)];
      }
    }

    /** `runCycle`: a copy of the row joins the history, the oldest
        snapshot goes when there are more than 16, the cycle count goes up
        by one (wrapping at 2^31 like a Kotlin `Int`), and the drawing size
        is 50 per snapshot by 50 per channel. */
    method RunCycle() returns (res: Dimension)
      requires Valid()
      modifies this
      ensures Valid()
      ensures history == Record(old(history), old(channels)) && channels == old(channels)
      ensures cycle == if old(cycle) == 0x7FFF_FFFF then -0x8000_0000 else old(cycle) + 1
      ensures res == Dimension(|history| * CycleWidth, |channels| * ChannelHeight)
    {
      var entry := channels;
      history := history + [entry];
      if |history| > MaxHistory {
        history := history[1..];
      }
      cycle := if cycle == 0x7FFF_FFFF then -0x8000_0000 else cycle + 1;
      res := Dimension(|history| * CycleWidth, |channels| * ChannelHeight);
    }
  }
}
