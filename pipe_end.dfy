/**
 * The end of a pipeline and the pipeline itself. A pipeline is the chain of proxies
 * (their URLs, the head) that requests pass through before they reach either a
 * handler of this service or the service as a whole.
 *
 * The pipeline's own head queries (HasLength, Beginning, HeadLast, HeadFront,
 * IsMultiHead, HasBeginning) live outside the modelled files; they are taken here
 * to be the plain sequence operations, with "" and [] for an empty head.
 */
module PipeEnds {
  /** Where a pipeline ends: a handler category of this service (Id non-empty) or the whole service. */
  datatype PipeEnd = PipeEnd(Id: string, Url: string)

  /** A pipeline: its end and the proxy URLs in front of it, first proxy first. */
  datatype Pipeline = Pipeline(End: PipeEnd, Head: seq<string>)

  /** A pipe end is a handler end exactly when it names a handler. */
  predicate IsHandler(e: PipeEnd) {
    |e.Id| > 0
  }

  /** An end at the handler category `end` of this service. */
  function NewHandlerEnd(end: string): (e: PipeEnd)
    ensures e.Id == end && e.Url == ""
    ensures IsHandler(e) <==> end != ""
  {
    PipeEnd(end, "")
  }

  /** An end at the service as a whole: a handler end with no handler named. */
  function NewThisServicePipeEnd(): (e: PipeEnd)
    ensures !IsHandler(e)
    ensures e == NewHandlerEnd("")
  {
    NewHandlerEnd("")
  }

  /** The pipeline that passes through `head` and ends at `end`. */
  function MakePipeline(end: PipeEnd, head: seq<string>): (p: Pipeline)
    ensures p.End == end && p.Head == head
    ensures IsHandler(p.End) <==> end.Id != ""
  {
    Pipeline(end, head)
  }

  predicate HasLength(p: Pipeline) {
    |p.Head| > 0
  }

  predicate HasBeginning(p: Pipeline) {
    |p.Head| > 0
  }

  predicate IsMultiHead(p: Pipeline) {
    |p.Head| > 1
  }

  /** The first proxy a request meets. */
  function Beginning(p: Pipeline): string {
    if |p.Head| > 0 then p.Head[0] else ""
  }

  /** The proxy next to the end. */
  function HeadLast(p: Pipeline): string {
    if |p.Head| > 0 then p.Head[|p.Head| - 1] else ""
  }

  /** Every proxy but the one next to the end. */
  function HeadFront(p: Pipeline): seq<string> {
    if |p.Head| > 0 then p.Head[..|p.Head| - 1] else []
  }

  /** A non-empty head is its front followed by its last proxy. */
  lemma HeadSplits(p: Pipeline)
    requires HasLength(p)
    ensures HeadFront(p) + [HeadLast(p)] == p.Head
    ensures |HeadFront(p)| == |p.Head| - 1
    ensures Beginning(p) == p.Head[0]
  {
  }
}
