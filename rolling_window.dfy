/** The per-metric rolling history: a `collections.deque(maxlen=window_size)`.
    Appending to a full deque drops its oldest (leftmost) element; with
    `maxlen == 0` the deque stays empty. */
module RollingWindow {

  /** The last `n` elements of `s` (all of `s` when it is shorter). */
  function LastN(s: seq<int>, n: nat): (r: seq<int>)
    ensures |r| <= n
  {
    if |s| <= n then s else s[|s| - n..]
  }

  /** `LastN` keeps a suffix of `s`: exactly `n` elements, or all of `s` when it has fewer. */
  lemma LastNIsSuffix(s: seq<int>, n: nat)
    ensures |LastN(s, n)| == if |s| <= n then |s| else n
    ensures LastN(s, n) == s[|s| - |LastN(s, n)|..]
  {
  }

  /** `deque.append(x)` on a deque bounded by `maxlen`. */
  function Append(d: seq<int>, maxlen: nat, x: int): (r: seq<int>)
    requires |d| <= maxlen
    ensures |r| <= maxlen
  {
    if |d| < maxlen then d + [x] else (d + [x])[1..]
  }

  /** Appending keeps exactly the newest `maxlen` values: FIFO with eviction. */
  lemma AppendKeepsNewest(d: seq<int>, maxlen: nat, x: int)
    requires |d| <= maxlen
    ensures Append(d, maxlen, x) == LastN(d + [x], maxlen)
  {
  }

  /** Successive appends of `xs`, oldest first. */
  function AppendAll(d: seq<int>, maxlen: nat, xs: seq<int>): (r: seq<int>)
    requires |d| <= maxlen
    ensures |r| <= maxlen
    decreases |xs|
  {
    if xs == [] then d else AppendAll(Append(d, maxlen, xs[0]), maxlen, xs[1..])
  }

  /** After any run of appends the deque holds the newest `maxlen` values ever
      appended, in arrival order, and never more than `maxlen` of them. */
  lemma {:induction false} AppendAllKeepsNewest(d: seq<int>, maxlen: nat, xs: seq<int>)
    requires |d| <= maxlen
    ensures AppendAll(d, maxlen, xs) == LastN(d + xs, maxlen)
    decreases |xs|
  {
    if xs != [] {
      var d' := Append(d, maxlen, xs[0]);
      AppendKeepsNewest(d, maxlen, xs[0]);
      AppendAllKeepsNewest(d', maxlen, xs[1..]);
      LastNOfLastN(d + [xs[0]], xs[1..], maxlen);
      assert d + [xs[0]] + xs[1..] == d + xs;
    }
  }

  /** Trimming before appending more does not change the newest `n`. */
  lemma LastNOfLastN(s: seq<int>, t: seq<int>, n: nat)
    ensures LastN(LastN(s, n) + t, n) == LastN(s + t, n)
  {
    var u := LastN(s, n);
    var k := |s| - |u|;
    assert s == s[..k] + u;
    assert s + t == s[..k] + (u + t);
  }
}
