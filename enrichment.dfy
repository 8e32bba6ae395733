/**
 * Batch enrichment: each accepted record is enhanced against the last state its
 * emitter reported, left to right, and the table is updated as the batch goes.
 */
module Enrichment {
  import opened Wrappers
  import opened Seqs
  import opened Events

  /** The records of a batch that are accepted, in batch order. */
  function ValidEvents(b: seq<RawEvent>): seq<RawEvent> {
    Filter(b, IsValid)
  }

  /** Record `e` writes `lastKnownState[emitter]`. */
  predicate Writes(e: RawEvent, emitter: string) {
    IsValid(e) && e.state.Some? && e.emitter == emitter
  }

  /** The table after one record: only an accepted record with a state writes it. */
  function Record(t: Table, e: RawEvent): Table {
    if IsValid(e) && e.state.Some? then t[e.emitter := e.state.value] else t
  }

  /** The table after processing the whole batch `b` left to right; no entry is ever removed. */
  function TableAfter(b: seq<RawEvent>, t: Table): (r: Table)
    ensures t.Keys <= r.Keys
    decreases |b|
  {
    if b == [] then t else Record(TableAfter(b[..|b| - 1], t), b[|b| - 1])
  }

  /**
   * The enhanced events of batch `b`: each accepted record is enhanced with the
   * table as left by the records before it. There is one enhanced event per
   * accepted record.
   */
  function Enriched(b: seq<RawEvent>, t: Table, path: Option<Path>, enhance: Enhancer): (r: seq<Event>)
    ensures |r| == |ValidEvents(b)|
    decreases |b|
  {
    if b == [] then []
    else
      var prefix, e := b[..|b| - 1], b[|b| - 1];
      assert b == prefix + [e];
      ValidEventsSnoc(prefix, e);
      Enriched(prefix, t, path, enhance)
        + (if IsValid(e) then [enhance(e, Get(TableAfter(prefix, t), e.emitter), path)] else [])
  }

  lemma ValidEventsSnoc(b: seq<RawEvent>, e: RawEvent)
    ensures ValidEvents(b + [e]) == ValidEvents(b) + (if IsValid(e) then [e] else [])
  {
    FilterConcat(b, [e], IsValid);
    assert Filter([e], IsValid) == (if IsValid(e) then [e] else []) + Filter([], IsValid);
  }

  /** Processing record `i` after the first `i` records of a batch. */
  lemma EnrichStep(b: seq<RawEvent>, i: nat, t: Table, path: Option<Path>, enhance: Enhancer)
    requires i < |b|
    ensures TableAfter(b[..i + 1], t) == Record(TableAfter(b[..i], t), b[i])
    ensures Enriched(b[..i + 1], t, path, enhance)
      == Enriched(b[..i], t, path, enhance)
         + (if IsValid(b[i]) then [enhance(b[i], Get(TableAfter(b[..i], t), b[i].emitter), path)] else [])
  {
    assert b[..i + 1][..i] == b[..i];
  }

  lemma TableAfterSnoc(p: seq<RawEvent>, e: RawEvent, t: Table)
    ensures TableAfter(p + [e], t) == Record(TableAfter(p, t), e)
  {
    assert (p + [e])[..|p|] == p;
  }

  /** Rejected records leave the table exactly as the accepted ones alone would. */
  lemma {:induction false} TableIgnoresInvalid(b: seq<RawEvent>, t: Table)
    ensures TableAfter(b, t) == TableAfter(ValidEvents(b), t)
  {
    if b != [] {
      var p, e := b[..|b| - 1], b[|b| - 1];
      assert b == p + [e];
      TableIgnoresInvalid(p, t);
      ValidEventsSnoc(p, e);
      TableAfterSnoc(p, e, t);
      if IsValid(e) {
        assert ValidEvents(b) == ValidEvents(p) + [e];
        TableAfterSnoc(ValidEvents(p), e, t);
      } else {
        assert ValidEvents(b) == ValidEvents(p);
      }
    }
  }

  /**
   * One enhanced event per accepted record, in batch order, and the k-th one is
   * enhanced against the table left by the accepted records before it: a later
   * record sees the state written by an earlier one in the same batch.
   */
  lemma {:induction false} EnrichedAt(b: seq<RawEvent>, t: Table, path: Option<Path>, enhance: Enhancer)
    ensures |Enriched(b, t, path, enhance)| == |ValidEvents(b)|
    ensures forall k :: 0 <= k < |ValidEvents(b)| ==>
      Enriched(b, t, path, enhance)[k]
        == enhance(ValidEvents(b)[k], Get(TableAfter(ValidEvents(b)[..k], t), ValidEvents(b)[k].emitter), path)
  {
    if b != [] {
      var p, e := b[..|b| - 1], b[|b| - 1];
      assert b == p + [e];
      EnrichedAt(p, t, path, enhance);
      ValidEventsSnoc(p, e);
      var v, vp := ValidEvents(b), ValidEvents(p);
      var r, rp := Enriched(b, t, path, enhance), Enriched(p, t, path, enhance);
      assert r == rp + (if IsValid(e) then [enhance(e, Get(TableAfter(p, t), e.emitter), path)] else []);
      forall k | 0 <= k < |v|
        ensures r[k] == enhance(v[k], Get(TableAfter(v[..k], t), v[k].emitter), path)
      {
        if k < |vp| {
          assert v[..k] == vp[..k] && v[k] == vp[k] && r[k] == rp[k];
        } else {
          assert v[..k] == vp && v[k] == e;
          TableIgnoresInvalid(p, t);
        }
      }
    }
  }

  /** A new entry belongs to an emitter that some accepted record of the batch reported a state for. */
  lemma {:induction false} NewEntryWritten(b: seq<RawEvent>, t: Table, emitter: string)
    requires emitter in TableAfter(b, t) && emitter !in t
    ensures exists i :: 0 <= i < |b| && Writes(b[i], emitter)
  {
    assert b != [];
    var p, e := b[..|b| - 1], b[|b| - 1];
    if emitter in TableAfter(p, t) {
      NewEntryWritten(p, t, emitter);
      var i :| 0 <= i < |p| && Writes(p[i], emitter);
      assert b[i] == p[i];
    } else {
      assert Writes(b[|b| - 1], emitter);
    }
  }

  /** The last accepted record of the batch that carries a state for `emitter` decides its entry. */
  lemma {:induction false} LastWriteWins(b: seq<RawEvent>, t: Table, emitter: string, j: nat)
    requires j < |b| && Writes(b[j], emitter)
    requires forall i :: j < i < |b| ==> !Writes(b[i], emitter)
    ensures emitter in TableAfter(b, t) && TableAfter(b, t)[emitter] == b[j].state.value
  {
    var p, e := b[..|b| - 1], b[|b| - 1];
    if j < |b| - 1 {
      LastWriteWins(p, t, emitter, j);
    }
  }

  /** An emitter no accepted record of the batch reports a state for keeps its entry (or its absence). */
  lemma {:induction false} UnwrittenUnchanged(b: seq<RawEvent>, t: Table, emitter: string)
    requires forall i :: 0 <= i < |b| ==> !Writes(b[i], emitter)
    ensures Get(TableAfter(b, t), emitter) == Get(t, emitter)
  {
    if b != [] {
      UnwrittenUnchanged(b[..|b| - 1], t, emitter);
    }
  }

  /** A batch with no accepted record yields nothing and leaves the table alone. */
  lemma NothingValid(b: seq<RawEvent>, t: Table, path: Option<Path>, enhance: Enhancer)
    requires ValidEvents(b) == []
    ensures Enriched(b, t, path, enhance) == []
    ensures TableAfter(b, t) == t
  {
    EnrichedAt(b, t, path, enhance);
    TableIgnoresInvalid(b, t);
  }
}
