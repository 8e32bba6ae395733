/**
 * Full-log annotation for the mutation explorer. `show mutation` recomputes the
 * annotation of every logged event; `clear mutation` resets every one to `false`.
 */
module MutationExplorer {
  import opened Events

  /** The events of `s` after `calculateMutationExplorer(event, path)` ran on each of them. */
  function Shown(s: seq<Event>, path: Path, explore: Explorer): (r: seq<Event>)
    ensures |r| == |s|
    ensures forall i :: 0 <= i < |s| ==> r[i] == s[i].(mutationExplorer := explore(s[i], path))
  {
    if s == [] then []
    else [s[0].(mutationExplorer := explore(s[0], path))] + Shown(s[1..], path, explore)
  }

  /** The events of `s` after `event.mutationExplorer = false` on each of them. */
  function Cleared(s: seq<Event>): (r: seq<Event>)
    ensures |r| == |s|
    ensures forall i :: 0 <= i < |s| ==> r[i] == s[i].(mutationExplorer := Off)
  {
    if s == [] then [] else [s[0].(mutationExplorer := Off)] + Cleared(s[1..])
  }

  /** The explorer helper reads everything about an event except its current annotation. */
  ghost predicate IgnoresAnnotation(explore: Explorer) {
    forall e: Event, a: Annotation, p: Path :: explore(e.(mutationExplorer := a), p) == explore(e, p)
  }

  /** Clearing twice is clearing once. */
  lemma ClearIdempotent(s: seq<Event>)
    ensures Cleared(Cleared(s)) == Cleared(s)
  {
  }

  /** Clearing after showing leaves no trace of the path that was shown. */
  lemma ClearAfterShow(s: seq<Event>, path: Path, explore: Explorer)
    ensures Cleared(Shown(s, path, explore)) == Cleared(s)
  {
  }

  /**
   * When the helper does not read the old annotation, showing a path over a log
   * depends only on the events, not on what was shown before: reopening with a
   * different path replaces stale annotations, and showing the same path twice
   * is showing it once.
   */
  lemma ShownIgnoresPriorAnnotation(s1: seq<Event>, s2: seq<Event>, path: Path, explore: Explorer)
    requires IgnoresAnnotation(explore)
    requires Cleared(s1) == Cleared(s2)
    ensures Shown(s1, path, explore) == Shown(s2, path, explore)
  {
    forall i | 0 <= i < |s1|
      ensures Shown(s1, path, explore)[i] == Shown(s2, path, explore)[i]
    {
      assert Cleared(s1)[i] == Cleared(s2)[i];
      assert explore(s1[i], path) == explore(s1[i].(mutationExplorer := Off), path);
      assert explore(s2[i], path) == explore(s2[i].(mutationExplorer := Off), path);
    }
  }

  lemma ReshowReplaces(s: seq<Event>, p: Path, q: Path, explore: Explorer)
    requires IgnoresAnnotation(explore)
    ensures Shown(Shown(s, p, explore), q, explore) == Shown(s, q, explore)
  {
    ClearAfterShow(s, p, explore);
    ShownIgnoresPriorAnnotation(Shown(s, p, explore), s, q, explore);
  }
}
