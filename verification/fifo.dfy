/**
 * Bounded first-in-first-out windows, as kept by `push` followed by a single
 * `shift` when the array grows past its capacity.
 */
module Fifo {
  import opened Numeric

  /** Appends `x`; if that makes the window longer than `cap`, drops the oldest entry. */
  function Push<T>(buf: seq<T>, x: T, cap: nat): (r: seq<T>)
    ensures |buf| <= |r| <= |buf| + 1
    ensures r == (buf + [x])[|buf| + 1 - |r|..]
    ensures |buf| <= cap ==> |r| == Min(|buf| + 1, cap)
    ensures 0 < cap ==> r != [] && r[|r| - 1] == x
  {
    var grown := buf + [x];
    if |grown| > cap then grown[1..] else grown
  }

  /** The last min(|h|, n) entries of `h`; `h.slice(-n)` in JavaScript. */
  function Recent<T>(h: seq<T>, n: nat): (r: seq<T>)
    ensures |r| == Min(|h|, n)
    ensures r == h[|h| - |r|..]
  {
    if |h| <= n then h else h[|h| - n..]
  }

  /**
   * Pushing onto the window of the last `cap` entries of a history gives the
   * window of the last `cap` entries of the extended history: the window is
   * always exactly the newest min(|history|, cap) entries, in arrival order.
   */
  lemma PushKeepsRecent<T>(h: seq<T>, x: T, cap: nat)
    requires 0 < cap
    ensures Push(Recent(h, cap), x, cap) == Recent(h + [x], cap)
  {
    var w := Recent(h, cap);
    var h' := h + [x];
    if |h| < cap {
      assert w == h;
    } else {
      assert w + [x] == h'[|h'| - cap - 1..];
      assert (w + [x])[1..] == h'[|h'| - cap..];
    }
  }
}
