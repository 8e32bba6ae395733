/** The bounded event log: at most MAX_EVENTS entries, oldest evicted first. */
module EventLog {

  const MAX_EVENTS: nat := 500

  function Min(a: nat, b: nat): nat {
    if a < b then a else b
  }

  /**
   * What survives `splice(0, length - cap)` when the log is longer than `cap`:
   * the `cap` most recent entries, in their original order.
   */
  function Bounded<T>(s: seq<T>, cap: nat): (r: seq<T>)
    ensures |r| == Min(|s|, cap)
    ensures forall k :: 0 <= k < |r| ==> r[k] == s[|s| - |r| + k]
  {
    if |s| > cap then s[|s| - cap..] else s
  }

  /** A log that already fits is left alone. */
  lemma BoundedWhenRoom<T>(s: seq<T>, cap: nat)
    requires |s| <= cap
    ensures Bounded(s, cap) == s
  {
  }

  /**
   * Evicting after one batch and again after the next gives the same sequence as
   * appending both batches and evicting once: `Bounded(Bounded(a) ++ b) == Bounded(a ++ b)`.
   */
  lemma BoundedAppend<T>(a: seq<T>, b: seq<T>, cap: nat)
    ensures Bounded(Bounded(a, cap) + b, cap) == Bounded(a + b, cap)
  {
    if |a| > cap {
      var d, c := |a| - cap, a + b;
      assert Bounded(a, cap) + b == c[d..];
      var x := c[d..];
      assert x[|x| - cap..] == c[|c| - cap..];
    }
  }
}
