/** Semantics of an early-return chain: a fixed sequence of steps, each of
    which makes one call and either lets the request go on or ends it with a
    response. Both handlers of the auth package are chains of this shape; the
    lemmas here are proved once and used for each of them. */
module Chain {

  datatype Option<+T> = None | Some(value: T)

  /** One step of a chain: the call it makes and, when that call's answer
      ends the request, the response it ends it with. */
  datatype Step<C, R> = Step(call: C, halt: Option<R>)

  /** What running a chain produced: the calls made, in order, the response,
      and whether every step let the request through. */
  datatype Run<C, R> = Run(calls: seq<C>, response: R, completed: bool)

  /** Every step before index k lets the request go on. */
  predicate PassesBefore<C, R>(steps: seq<Step<C, R>>, k: nat)
    requires k <= |steps|
  {
    forall i :: 0 <= i < k ==> steps[i].halt.None?
  }

  /** The calls of the steps, in order. */
  function Calls<C, R>(steps: seq<Step<C, R>>): (cs: seq<C>)
    ensures |cs| == |steps|
    ensures forall i :: 0 <= i < |steps| ==> cs[i] == steps[i].call
  {
    if steps == [] then [] else [steps[0].call] + Calls(steps[1..])
  }

  /** Runs the steps in order and stops at the first one that halts; when
      none halts the response is `success`. */
  function Execute<C, R>(steps: seq<Step<C, R>>, success: R): (r: Run<C, R>)
    ensures |r.calls| <= |steps|
    ensures forall i :: 0 <= i < |r.calls| ==> r.calls[i] == steps[i].call
    ensures r.completed <==> PassesBefore(steps, |steps|)
    ensures r.completed ==> |r.calls| == |steps| && r.response == success
    ensures !r.completed ==>
      |r.calls| > 0 && PassesBefore(steps, |r.calls| - 1) && steps[|r.calls| - 1].halt == Some(r.response)
  {
    if steps == [] then Run([], success, true)
    else match steps[0].halt
      case Some(resp) => Run([steps[0].call], resp, false)
      case None =>
        var rest := Execute(steps[1..], success);
        Run([steps[0].call] + rest.calls, rest.response, rest.completed)
  }

  /** A chain whose first halting step is the k-th makes exactly the calls of
      steps 0..k and ends with that step's response. This follows from the
      contract of Execute alone, which fixes the whole run. */
  lemma {:induction false} HaltsAt<C, R>(steps: seq<Step<C, R>>, k: nat, success: R)
    requires k < |steps| && PassesBefore(steps, k) && steps[k].halt.Some?
    ensures Execute(steps, success) == Run(Calls(steps[..k + 1]), steps[k].halt.value, false)
  {
    var r := Execute(steps, success);
    assert !r.completed by { assert !steps[k].halt.None?; }
    assert |r.calls| == k + 1;
    assert r.calls == Calls(steps[..k + 1]);
  }

  /** A chain none of whose steps halts makes every call and ends with
      `success`; this too follows from the contract of Execute alone. */
  lemma {:induction false} Completes<C, R>(steps: seq<Step<C, R>>, success: R)
    requires PassesBefore(steps, |steps|)
    ensures Execute(steps, success) == Run(Calls(steps), success, true)
  {
  }
}
