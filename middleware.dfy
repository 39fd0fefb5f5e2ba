/**
 The error-signalling convention shared by both controllers. Every middleware
 step either continues (`next()`) or stops the request: by forwarding a
 status and message to the error handler (`next({ status, message })`), by
 answering directly (`res.status(..).json(..)`), or by throwing a TypeError
 that Express hands to the error handler. An exported route is a list of such
 steps followed by a handler, run fail-fast.
 */
module Middleware {
  import opened Js

  datatype Failure =
    | Forwarded(status: int, message: string)
    | Direct(status: int, error: string)
    | Thrown

  datatype Step = Continue | Stop(failure: Failure)

  /** What an existence guard decides: the store position of the record it
      puts in `res.locals`, or the failure it forwards. */
  datatype Lookup = Found(index: nat) | NotFound(failure: Failure)

  /** What a route answers: `Ok` is `res.status(status).json({ data })`,
      `NoContent` is the 204 of a delete. */
  datatype Response<R> = Ok(status: int, data: R) | NoContent | Err(failure: Failure)

  /** Two steps run one after the other: the second runs only when the first continues. */
  function AndThen(first: Step, rest: Step): Step
  {
    if first != Continue then first else rest
  }

  /** Running steps one after the other, stopping at the first that does not continue. */
  function Chain(steps: seq<Step>): (r: Step)
    ensures r == Continue <==> forall i :: 0 <= i < |steps| ==> steps[i] == Continue
    ensures r != Continue ==>
      exists i :: 0 <= i < |steps| && steps[i] == r && forall j :: 0 <= j < i ==> steps[j] == Continue
  {
    if steps == [] then Continue
    else if steps[0] != Continue then steps[0]
    else
      var r := Chain(steps[1..]);
      assert forall i :: 0 < i < |steps| ==> steps[i] == steps[1..][i - 1];
      r
  }

  /** The first step that stops is the answer of the whole chain. */
  lemma {:induction false} ChainStopsAtFirst(steps: seq<Step>, k: nat)
    requires k < |steps| && steps[k] != Continue
    requires forall j :: 0 <= j < k ==> steps[j] == Continue
    ensures Chain(steps) == steps[k]
  {
    if k > 0 {
      ChainStopsAtFirst(steps[1..], k - 1);
    }
  }

  /** The check `if (!v || v.trim() === "") return next({ status: 400, message })`
      on a field value `v`; a truthy `v` that is not a string has no `trim`
      method, so calling it throws. */
  function NonBlankText(v: JsValue, message: string): (r: Step)
    ensures r == Continue <==> TextPresent(v)
    ensures r == Stop(Forwarded(400, message)) <==> TextMissing(v)
    ensures r == Stop(Thrown) <==> Truthy(v) && !v.Str?
  {
    if !Truthy(v) then Stop(Forwarded(400, message))
    else if !v.Str? then Stop(Thrown)
    else
      TrimEmptyIffBlank(v.s);
      if Trim(v.s) == "" then Stop(Forwarded(400, message)) else Continue
  }

  /** A validator that destructures `key` from `req.body.data` and checks it with `NonBlankText`. */
  function TextField(data: JsValue, key: string, message: string): (r: Step)
    ensures r == Continue <==> !data.Null? && TextPresent(Field(data, key))
    ensures r == Stop(Forwarded(400, message)) <==> !data.Null? && TextMissing(Field(data, key))
    ensures r == Stop(Thrown) <==> data.Null? || (Truthy(Field(data, key)) && !Field(data, key).Str?)
  {
    match FieldOf(data, key)
    case None => Stop(Thrown)
    case Some(v) => NonBlankText(v, message)
  }
}
