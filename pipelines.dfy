/** Selecting pipelines by the kind of their end (service/pipeline/pipelines.go). */
module Pipelines {
  import opened Wrappers
  import opened Entities
  import opened PipeEnds

  /** The pipelines that end at a handler, in their original order. */
  function HandlerEnds(ps: seq<Pipeline>): (r: seq<Pipeline>)
    ensures |r| <= |ps|
    ensures forall p {:trigger p in r} :: p in r <==> p in ps && IsHandler(p.End)
  {
    if ps == [] then []
    else HandlerEnds(ps[..|ps| - 1]) + (if IsHandler(ps[|ps| - 1].End) then [ps[|ps| - 1]] else [])
  }

  /** Selecting from one more pipeline extends the selection by it exactly when it ends at a handler. */
  lemma HandlerEndsStep(ps: seq<Pipeline>, i: nat)
    requires i < |ps|
    ensures HandlerEnds(ps[..i + 1]) == HandlerEnds(ps[..i]) + (if IsHandler(ps[i].End) then [ps[i]] else [])
  {
    assert ps[..i + 1][..i] == ps[..i];
  }

  /**
   * Collects the handler-ended pipelines into a buffer as long as the input, counting
   * the writes, and returns the written prefix.
   */
  method FindHandlerEnds(all: seq<Pipeline>) returns (r: seq<Pipeline>)
    ensures r == HandlerEnds(all)
  {
    var buffer := new Pipeline[|all|];
    var count := 0;
    var i := 0;
    while i < |all|
      invariant 0 <= i <= |all|
      invariant count <= i
      invariant buffer[..count] == HandlerEnds(all[..i])
    {
      ghost var before := buffer[..count];
      HandlerEndsStep(all, i);
      if IsHandler(all[i].End) {
        buffer[count] := all[i];
        assert buffer[..count + 1] == before + [all[i]];
        count := count + 1;
      }
      i := i + 1;
    }
    assert all[..|all|] == all;
    r := buffer[..count];
  }

  /**
   * FindHandlerEnds as written: the buffer is made with length 0, so the first write
   * into it panics, and without any write the empty slice is returned.
   */
  function FindHandlerEndsAsWritten(all: seq<Pipeline>): (r: Result<seq<Pipeline>, Panic>)
    ensures r.Ok? <==> HandlerEnds(all) == []
    ensures r.Ok? ==> r.value == []
  {
    WriteIntoEmptySlice(|HandlerEnds(all)|)
  }

  /** One handler-ended pipeline is enough to make the code as written panic. */
  lemma FindHandlerEndsAsWrittenPanics(p: Pipeline)
    requires IsHandler(p.End)
    ensures FindHandlerEndsAsWritten([p]).Err?
    ensures HandlerEnds([p]) == [p]
  {
    assert [p][..0] == [];
  }

  /** Position of the first pipeline that does not end at a handler, or |ps|. */
  function ServiceEndIndex(ps: seq<Pipeline>): (k: nat)
    ensures k <= |ps|
    ensures forall j :: 0 <= j < k ==> IsHandler(ps[j].End)
    ensures k < |ps| ==> !IsHandler(ps[k].End)
  {
    if ps == [] then 0
    else if !IsHandler(ps[0].End) then 0
    else 1 + ServiceEndIndex(ps[1..])
  }

  /** The first pipeline that ends at the service rather than at a handler, if any. */
  function FindServiceEnd(ps: seq<Pipeline>): (r: Option<Pipeline>)
    ensures r.None? <==> forall i :: 0 <= i < |ps| ==> IsHandler(ps[i].End)
    ensures r.Some? ==> r.value in ps && !IsHandler(r.value.End)
    ensures forall j :: 0 <= j < |ps| && !IsHandler(ps[j].End) && (forall i :: 0 <= i < j ==> IsHandler(ps[i].End)) ==>
      r == Some(ps[j])
  {
    var k := ServiceEndIndex(ps);
    if k < |ps| then Some(ps[k]) else None
  }

  /** Dropping nothing is the same as every pipeline ending at a handler. */
  lemma {:induction false} HandlerEndsKeepsAll(ps: seq<Pipeline>)
    ensures |HandlerEnds(ps)| == |ps| <==> forall i :: 0 <= i < |ps| ==> IsHandler(ps[i].End)
  {
    if ps != [] {
      var front := ps[..|ps| - 1];
      HandlerEndsKeepsAll(front);
      assert forall i :: 0 <= i < |front| ==> front[i] == ps[i];
      if !IsHandler(ps[|ps| - 1].End) {
        assert |HandlerEnds(ps)| < |ps|;
      }
    }
  }

  /** The two selections partition the pipelines: a service end exists iff some pipeline is not a handler end. */
  lemma ServiceEndIffHandlerEndsDrop(ps: seq<Pipeline>)
    ensures FindServiceEnd(ps).Some? <==> |HandlerEnds(ps)| < |ps|
  {
    HandlerEndsKeepsAll(ps);
  }
}
