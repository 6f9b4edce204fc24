/** The result buffer: an append-only list of result envelopes that the
    poll entry point drains. */
module Results {
  import opened Values

  /** `ResultTypes` in the source: the three kinds of envelope. */
  datatype ResultType = Error | Final | Partial

  /** `{exId, type, params}` as pushed by `setResult`. */
  datatype Envelope = Envelope(exId: Value, kind: ResultType, params: Value)

  /** The envelope `setResult(exId, kind, params)` pushes: missing or falsy
      params become `{}`. */
  function MakeEnvelope(exId: Value, kind: ResultType, params: Value): (e: Envelope)
    ensures e.exId == exId && e.kind == kind
    ensures Truthy(e.params)
    ensures Truthy(params) ==> e.params == params
    ensures !Truthy(params) ==> e.params == EmptyObject
  {
    Envelope(exId, kind, OrEmpty(params))
  }

  class ResultManager {
    /** `_results`: every envelope set since the last drain, oldest first. */
    var results: seq<Envelope>

    constructor ()
      ensures results == []
    {
      results := [];
    }

    method SetResult(exId: Value, kind: ResultType, params: Value)
      modifies this
      ensures results == old(results) + [MakeEnvelope(exId, kind, params)]
    {
      results := results + [Envelope(exId, kind, OrEmpty(params))];
    }

    method SetFinalResult(exId: Value, params: Value)
      modifies this
      ensures results == old(results) + [MakeEnvelope(exId, Final, params)]
    {
      SetResult(exId, Final, params);
    }

    method SetPartialResult(exId: Value, params: Value)
      modifies this
      ensures results == old(results) + [MakeEnvelope(exId, Partial, params)]
    {
      SetResult(exId, Partial, params);
    }

    method SetErrorResult(exId: Value, params: Value)
      modifies this
      ensures results == old(results) + [MakeEnvelope(exId, Error, params)]
    {
      SetResult(exId, Error, params);
    }

    /** Hands back everything buffered, in the order it was set, and leaves
        the buffer empty. */
    method GetResults() returns (drained: seq<Envelope>)
      modifies this
      ensures drained == old(results)
      ensures results == []
    {
      drained := results;
      results := [];
    }
  }

  /** One call of `setResult`: its three arguments. */
  datatype SetCall = SetCall(exId: Value, kind: ResultType, params: Value)

  /** A buffer that received `calls` in turn, drained twice in a row: the
      first drain returns one envelope per call, in call order, the second
      returns nothing. */
  method DrainTwice(calls: seq<SetCall>) returns (first: seq<Envelope>, second: seq<Envelope>)
    ensures |first| == |calls|
    ensures forall i :: 0 <= i < |calls| ==>
              first[i] == MakeEnvelope(calls[i].exId, calls[i].kind, calls[i].params)
    ensures second == []
  {
    var buffer := new ResultManager();
    for i := 0 to |calls|
      invariant |buffer.results| == i
      invariant forall j :: 0 <= j < i ==>
                  buffer.results[j] == MakeEnvelope(calls[j].exId, calls[j].kind, calls[j].params)
    {
      buffer.SetResult(calls[i].exId, calls[i].kind, calls[i].params);
    }
    first := buffer.GetResults();
    second := buffer.GetResults();
  }
}
