/** The fallback-chain combinator: try each query variant in order and return
    the first defined result, or a fixed fallback value once all are used up. */
module Fallback {
  import opened Endpoint

  /** What a variant's transform gives: a value, `undefined`, or an exception
      (the transform runs inside the same `try` as the request). */
  datatype Step<+R> = Raised | Undefined | Value(value: R)

  /** One candidate query together with the extractor of its result. */
  datatype Variant<R> = Variant(request: Request, transform: RootData -> Step<R>)

  /** What one variant yields against the endpoint. */
  function Attempt<R>(v: Variant<R>, server: Server): Step<R> {
    match server(v.request)
    case Threw => Raised
    case Data(d) => v.transform(d)
  }

  /** The variant would end the chain: its request resolved and its transform
      returned something other than `undefined` without throwing. */
  predicate Succeeds<R>(v: Variant<R>, server: Server) {
    Attempt(v, server).Value?
  }

  /** The requests of a list of variants, in order. */
  function Requests<R>(variants: seq<Variant<R>>): seq<Request> {
    seq(|variants|, i requires 0 <= i < |variants| => variants[i].request)
  }

  /** The requests issued by the chain and the value it returns. */
  datatype Run<R> = Run(result: R, requests: seq<Request>)

  /** The fallback chain, as a recursive definition. */
  function Chain<R>(variants: seq<Variant<R>>, fallback: R, server: Server): (run: Run<R>)
    ensures |run.requests| <= |variants|
    ensures forall i :: 0 <= i < |run.requests| ==> run.requests[i] == variants[i].request
  {
    if variants == [] then Run(fallback, [])
    else
      var attempt := Attempt(variants[0], server);
      if attempt.Value? then Run(attempt.value, [variants[0].request])
      else
        var rest := Chain(variants[1..], fallback, server);
        Run(rest.result, [variants[0].request] + rest.requests)
  }

  /** Requests go out in list order, every request but the last failed, and the
      chain returns the last one's result if it succeeded and otherwise the
      fallback after every variant was tried. */
  lemma {:induction false} ChainShape<R>(variants: seq<Variant<R>>, fallback: R, server: Server)
    ensures var run := Chain(variants, fallback, server);
      (|variants| > 0 ==> |run.requests| > 0) &&
      (forall i :: 0 <= i < |run.requests| - 1 ==> !Succeeds(variants[i], server)) &&
      (if |run.requests| > 0 && Succeeds(variants[|run.requests| - 1], server)
       then run.result == Attempt(variants[|run.requests| - 1], server).value
       else |run.requests| == |variants| && run.result == fallback)
  {
    if variants != [] && !Succeeds(variants[0], server) {
      ChainShape(variants[1..], fallback, server);
      var run := Chain(variants, fallback, server);
      var rest := Chain(variants[1..], fallback, server);
      assert run.requests == [variants[0].request] + rest.requests;
      forall i | 0 <= i < |run.requests| - 1 ensures !Succeeds(variants[i], server) {
        if i > 0 { assert variants[i] == variants[1..][i - 1]; }
      }
      if |rest.requests| > 0 {
        assert variants[|run.requests| - 1] == variants[1..][|rest.requests| - 1];
      }
    }
  }

  /** First success wins: when variant k is the first to succeed, the chain
      returns its result and no variant after it is requested. */
  lemma {:induction false} ChainFirstSuccess<R>(variants: seq<Variant<R>>, fallback: R, server: Server, k: nat)
    requires k < |variants| && Succeeds(variants[k], server)
    requires forall j :: 0 <= j < k ==> !Succeeds(variants[j], server)
    ensures Chain(variants, fallback, server).result == Attempt(variants[k], server).value
    ensures |Chain(variants, fallback, server).requests| == k + 1
  {
    ChainShape(variants, fallback, server);
  }

  /** When no variant succeeds, every one is requested and the fallback is returned. */
  lemma {:induction false} ChainExhausted<R>(variants: seq<Variant<R>>, fallback: R, server: Server)
    requires forall j :: 0 <= j < |variants| ==> !Succeeds(variants[j], server)
    ensures Chain(variants, fallback, server).result == fallback
    ensures |Chain(variants, fallback, server).requests| == |variants|
  {
    ChainShape(variants, fallback, server);
  }

  /** `requestWithFallbacks`: requests each variant in turn, catching any
      failure of the request or the transform; returns the first defined
      result, else `fallback`. It never throws: its result is always a value. */
  method RequestWithFallbacks<R>(variants: seq<Variant<R>>, fallback: R, server: Server)
    returns (result: R, ghost log: seq<Request>)
    ensures result == Chain(variants, fallback, server).result
    ensures log == Chain(variants, fallback, server).requests
  {
    log := [];
    for i := 0 to |variants|
      invariant Chain(variants, fallback, server).result == Chain(variants[i..], fallback, server).result
      invariant Chain(variants, fallback, server).requests == log + Chain(variants[i..], fallback, server).requests
    {
      var variant := variants[i];
      log := log + [variant.request];
      var reply := server(variant.request);
      if reply.Data? {
        var step := variant.transform(reply.data);
        if step.Value? {
          result := step.value;
          return;
        }
      }
      // the request or the transform failed, or the result was undefined
      assert variants[i..][1..] == variants[i + 1..];
    }
    result := fallback;
  }
}
