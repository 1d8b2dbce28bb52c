/** The level buffer of `WaveformLineView`: the live recording view keeps a sliding window
    of the most recent clamped levels, as many as fit across its width. */
module Waveform {

  /** `max(0.1, min(1.0, level))`. */
  function Clamp(x: real): (r: real)
    ensures 0.1 <= r <= 1.0
    ensures 0.1 <= x <= 1.0 ==> r == x
    ensures x < 0.1 ==> r == 0.1
    ensures x > 1.0 ==> r == 1.0
  {
    if x > 1.0 then 1.0 else if x < 0.1 then 0.1 else x
  }

  predicate AllClamped(s: seq<real>) {
    forall i :: 0 <= i < |s| ==> 0.1 <= s[i] <= 1.0
  }

  /** `Int(bounds.width / totalBarWidth)`: how many bars fit across the view. */
  function MaxBars(width: nat, totalBarWidth: real): (n: nat)
    requires totalBarWidth > 0.0
    ensures n as real <= width as real / totalBarWidth < n as real + 1.0
  {
    (width as real / totalBarWidth).Floor
  }

  /** The last `k` elements of `s` (all of `s` if it is shorter): what
      `removeFirst(count - k)` leaves when `count > k`. */
  function KeepLast(s: seq<real>, k: nat): (r: seq<real>)
    ensures |r| == if |s| > k then k else |s|
    ensures r == s[|s| - |r|..]
  {
    if |s| > k then s[|s| - k..] else s
  }

  /** The buffer after `addLevel(level)` in a view `width` points wide. */
  function AfterAdd(levels: seq<real>, level: real, width: nat, totalBarWidth: real): (r: seq<real>)
    requires totalBarWidth > 0.0
    ensures var s := levels + [Clamp(level)];
      |r| <= |s| && r == s[|s| - |r|..]
    ensures width == 0 ==> |r| == |levels| + 1
    ensures width > 0 ==> |r| == if |levels| + 1 > MaxBars(width, totalBarWidth)
                                  then MaxBars(width, totalBarWidth) else |levels| + 1
    ensures r != [] ==> r[|r| - 1] == Clamp(level)
  {
    var s := levels + [Clamp(level)];
    if width > 0 then KeepLast(s, MaxBars(width, totalBarWidth)) else s
  }

  class WaveformLineView {
    var barWidth: real
    var barGap: real
    var levels: seq<real>

    /** The bar pitch must be positive for `bounds.width / totalBarWidth` to be a count. */
    ghost predicate Valid()
      reads this
    {
      barWidth + barGap > 0.0
    }

    constructor ()
      ensures Valid()
      ensures barWidth == 4.0 && barGap == 5.0 && levels == []
    {
      barWidth := 4.0;
      barGap := 5.0;
      levels := [];
    }

    /** `reset()`: the buffer is emptied. */
    method Reset()
      modifies this`levels
      ensures levels == []
    {
      levels := [];
    }

    /** `setLevels(_:)`: the buffer is replaced verbatim, with no clamping or trimming. */
    method SetLevels(newLevels: seq<real>)
      modifies this`levels
      ensures levels == newLevels
    {
      levels := newLevels;
    }

    /** `addLevel(_:)` in a view whose bounds are `width` points wide. */
    method AddLevel(level: real, width: nat)
      requires Valid()
      modifies this`levels
      ensures levels == AfterAdd(old(levels), level, width, barWidth + barGap)
    {
      var value := Clamp(level);
      levels := levels + [value];
      var totalBarWidth := barWidth + barGap;
      if width > 0 {
        var maxBars := (width as real / totalBarWidth).Floor;
        if |levels| > maxBars {
          levels := levels[|levels| - maxBars..];
        }
      }
    }
  }

  /** Every level `addLevel` stores lies in [0.1, 1.0], so a clamped buffer stays clamped. */
  lemma AddKeepsClamped(levels: seq<real>, level: real, width: nat, totalBarWidth: real)
    requires totalBarWidth > 0.0 && AllClamped(levels)
    ensures AllClamped(AfterAdd(levels, level, width, totalBarWidth))
  {
    var s := levels + [Clamp(level)];
    assert AllClamped(s) by {
      forall i | 0 <= i < |s| ensures 0.1 <= s[i] <= 1.0 {
        if i < |levels| { assert s[i] == levels[i]; }
      }
    }
    var r := AfterAdd(levels, level, width, totalBarWidth);
    SuffixClamped(s, |s| - |r|);
  }

  lemma SuffixClamped(s: seq<real>, j: nat)
    requires AllClamped(s) && j <= |s|
    ensures AllClamped(s[j..])
  {
    forall i | 0 <= i < |s| - j ensures 0.1 <= s[j..][i] <= 1.0 {
      assert s[j..][i] == s[j + i];
    }
  }

  /** With the default 4-point bars and 5-point gaps, `width / 9` bars fit. */
  lemma {:induction false} DefaultPitchFits(width: nat)
    ensures MaxBars(width, 4.0 + 5.0) == width / 9
  {
    var q, m := width / 9, width % 9;
    assert width as real == 9.0 * q as real + m as real;
    assert width as real / 9.0 == q as real + m as real / 9.0;
    assert 0.0 <= m as real / 9.0 < 1.0;
  }

  /** A view narrower than one bar pitch keeps no bars at all. */
  lemma NarrowViewKeepsNothing(levels: seq<real>, level: real, width: nat, totalBarWidth: real)
    requires totalBarWidth > 0.0 && 0 < width && (width as real) < totalBarWidth
    ensures AfterAdd(levels, level, width, totalBarWidth) == []
  {
    assert width as real / totalBarWidth < 1.0;
  }

  /** The buffer after feeding `inputs` to `addLevel` one by one. */
  function AddAll(levels: seq<real>, inputs: seq<real>, width: nat, totalBarWidth: real): seq<real>
    requires totalBarWidth > 0.0
    decreases |inputs|
  {
    if inputs == [] then levels
    else AddAll(AfterAdd(levels, inputs[0], width, totalBarWidth), inputs[1..], width, totalBarWidth)
  }

  function ClampAll(inputs: seq<real>): (r: seq<real>)
    ensures |r| == |inputs| && forall i :: 0 <= i < |r| ==> r[i] == Clamp(inputs[i])
  {
    if inputs == [] then [] else [Clamp(inputs[0])] + ClampAll(inputs[1..])
  }

  /** Feeding `inputs` one by one to a buffer that keeps its last `k` elements. */
  function Feed(levels: seq<real>, inputs: seq<real>, k: nat): seq<real>
    decreases |inputs|
  {
    if inputs == [] then levels
    else Feed(KeepLast(levels + [Clamp(inputs[0])], k), inputs[1..], k)
  }

  /** In a view of positive width, each `addLevel` keeps the last `maxBars` elements. */
  lemma {:induction false} AddAllIsFeed(levels: seq<real>, inputs: seq<real>, width: nat, totalBarWidth: real)
    requires totalBarWidth > 0.0 && width > 0
    decreases |inputs|
    ensures AddAll(levels, inputs, width, totalBarWidth) == Feed(levels, inputs, MaxBars(width, totalBarWidth))
  {
    if inputs != [] {
      var k := MaxBars(width, totalBarWidth);
      var next := AfterAdd(levels, inputs[0], width, totalBarWidth);
      assert next == KeepLast(levels + [Clamp(inputs[0])], k);
      AddAllIsFeed(next, inputs[1..], width, totalBarWidth);
    }
  }

  /** A buffer fed one sample at a time holds the last `k` samples of the whole stream. */
  lemma {:induction false} FeedKeepsLast(levels: seq<real>, inputs: seq<real>, k: nat)
    requires |levels| <= k
    decreases |inputs|
    ensures Feed(levels, inputs, k) == KeepLast(levels + ClampAll(inputs), k)
  {
    if inputs == [] {
      assert levels + ClampAll(inputs) == levels;
    } else {
      var c := Clamp(inputs[0]);
      var rest := ClampAll(inputs[1..]);
      calc {
        Feed(levels, inputs, k);
        Feed(KeepLast(levels + [c], k), inputs[1..], k);
        { FeedKeepsLast(KeepLast(levels + [c], k), inputs[1..], k); }
        KeepLast(KeepLast(levels + [c], k) + rest, k);
        { KeepLastOfPrefix(levels + [c], rest, k); }
        KeepLast((levels + [c]) + rest, k);
        { assert ClampAll(inputs) == [c] + rest; assert (levels + [c]) + rest == levels + ClampAll(inputs); }
        KeepLast(levels + ClampAll(inputs), k);
      }
    }
  }

  /** The sliding window: in a view of positive width, feeding any levels to a buffer
      keeps exactly the most recent `maxBars` of the clamped stream, oldest first. */
  lemma SlidingWindow(levels: seq<real>, inputs: seq<real>, width: nat, totalBarWidth: real)
    requires totalBarWidth > 0.0 && width > 0
    requires |levels| <= MaxBars(width, totalBarWidth)
    ensures AddAll(levels, inputs, width, totalBarWidth)
         == KeepLast(levels + ClampAll(inputs), MaxBars(width, totalBarWidth))
  {
    AddAllIsFeed(levels, inputs, width, totalBarWidth);
    FeedKeepsLast(levels, inputs, MaxBars(width, totalBarWidth));
  }

  /** Trimming a prefix to its last `k` elements first does not change the last `k`
      elements of the whole. */
  lemma KeepLastOfPrefix(s: seq<real>, t: seq<real>, k: nat)
    ensures KeepLast(KeepLast(s, k) + t, k) == KeepLast(s + t, k)
  {
    if |s| > k {
      var j := |s| - k;
      var b := s + t;
      assert KeepLast(s, k) == s[j..];
      assert s[j..] + t == b[j..];
      KeepLastOfSuffix(b, j, k);
    } else {
      assert KeepLast(s, k) == s;
    }
  }

  lemma KeepLastOfSuffix(b: seq<real>, j: nat, k: nat)
    requires j + k <= |b|
    ensures KeepLast(b[j..], k) == KeepLast(b, k)
  {
    if |b| - j > k {
      assert b[j..][|b| - j - k..] == b[|b| - k..];
    }
  }
}
