/** The bounded FIFO window: `collections.deque(maxlen = n)` as used for the steps and
    the losses of the divergence checker. */
module SampleWindow {

  /** The last `n` elements of `s`, in their original order: what a deque with
      `maxlen = n` holds after `s` has been appended to it one element at a time. */
  function LastN<T>(s: seq<T>, n: nat): (r: seq<T>)
    ensures |r| == if |s| <= n then |s| else n
  {
    if |s| <= n then s else s[|s| - n..]
  }

  /** The window of a history is its suffix: element `i` of `LastN(s, n)` is the element
      of `s` that many places from the end. */
  lemma LastNIsSuffix<T>(s: seq<T>, n: nat)
    ensures forall i | 0 <= i < |LastN(s, n)| :: LastN(s, n)[i] == s[|s| - |LastN(s, n)| + i]
  {
  }

  /** `deque.append(x)` on a deque with `maxlen = n`: append, and when the deque
      already holds `n` elements drop the oldest one first. */
  function BoundedAppend<T>(s: seq<T>, x: T, n: nat): (r: seq<T>)
    requires |s| <= n
    ensures |r| == if |s| < n then |s| + 1 else n
  {
    if n == 0 then s
    else if |s| == n then s[1..] + [x]
    else s + [x]
  }

  /** After an append to a deque with `maxlen > 0`, the new element is last and the
      elements before it are the newest ones of the old window, in their old order: only
      the oldest one is evicted, and only when the window was full. */
  lemma BoundedAppendKeepsNewest<T>(s: seq<T>, x: T, n: nat)
    requires |s| <= n
    ensures var r := BoundedAppend(s, x, n);
      n > 0 ==> r[..|r| - 1] == s[|s| + 1 - |r|..] && r[|r| - 1] == x
  {
  }

  /** Appending to the window of a history gives the window of the longer history:
      the window always holds exactly the last `n` pushed elements. */
  lemma {:induction false} LastNAppend<T>(h: seq<T>, x: T, n: nat)
    ensures BoundedAppend(LastN(h, n), x, n) == LastN(h + [x], n)
  {
    if n == 0 {
    } else if |h| < n {
      assert LastN(h, n) == h;
    } else {
      var w := h[|h| - n..];
      assert LastN(h, n) == w;
      assert w[1..] == h[|h| - n + 1..];
      assert LastN(h + [x], n) == (h + [x])[|h| + 1 - n..];
      assert (h + [x])[|h| + 1 - n..] == h[|h| - n + 1..] + [x];
    }
  }
}
