/**
 * The validation boundary that both copies of `MethodBuilder.method`
 * (example/methods.ts and example/index.ts) wrap around a callback: validate
 * the argument, run the callback, validate its result, return it.
 *
 * An invocation yields what the call completes with and the trace of what it
 * did, in order: each schema check with its verdict, and each run of the
 * callback with the argument it was given.
 */
module Boundary {
  import opened AdapterContract

  /** What a JavaScript `throw` carries: an `Error(message)` or any other value. */
  datatype Thrown = Error(message: string) | Raised(payload: Value)

  /** How a JavaScript call ends: it returns a value or throws. */
  datatype Completion = Return(value: Value) | Throw(thrown: Thrown)

  /** One observable step of an invocation. */
  datatype Step =
    | Checked(schema: Value, value: Value, accepted: bool)
    | Invoked(argument: Value)

  datatype Invocation = Invocation(completion: Completion, trace: seq<Step>)

  /** The number of times the callback ran in a trace. */
  function Invocations(trace: seq<Step>): (n: nat)
    ensures n <= |trace|
    ensures n == 0 <==> forall i :: 0 <= i < |trace| ==> !trace[i].Invoked?
  {
    if trace == [] then 0
    else Invocations(trace[1..]) + (if trace[0].Invoked? then 1 else 0)
  }

  /** Every check in the trace carries the given adapter's verdict on the
      schema and value it names: no other adapter answered. */
  ghost predicate Faithful(adapter: TypeAdapter, trace: seq<Step>)
  {
    forall i :: 0 <= i < |trace| && trace[i].Checked? ==>
      trace[i].accepted == adapter.validate(trace[i].schema, trace[i].value)
  }

  /** The returned closure of `MethodBuilder.method`, applied to `input`:
      `inFailure` and `outFailure` are the messages of the two errors it
      throws. */
  function Guard(adapter: TypeAdapter, inSchema: Value, outSchema: Value,
                 inFailure: string, outFailure: string,
                 callback: Value -> Completion, input: Value): (r: Invocation)
    ensures |r.trace| >= 1 && r.trace[0] == Checked(inSchema, input, adapter.validate(inSchema, input))
    ensures Faithful(adapter, r.trace)
    ensures Invocations(r.trace) == if adapter.validate(inSchema, input) then 1 else 0
    ensures !adapter.validate(inSchema, input) ==> r.completion == Throw(Error(inFailure))
    ensures adapter.validate(inSchema, input) ==> |r.trace| >= 2 && r.trace[1] == Invoked(input)
    ensures adapter.validate(inSchema, input) && callback(input).Throw? ==>
              r.completion == callback(input) && |r.trace| == 2
    ensures adapter.validate(inSchema, input) && callback(input).Return? ==>
              && |r.trace| == 3
              && r.trace[2] == Checked(outSchema, callback(input).value, adapter.validate(outSchema, callback(input).value))
              && r.completion == (if adapter.validate(outSchema, callback(input).value)
                                  then callback(input) else Throw(Error(outFailure)))
    ensures r.completion.Return? <==>
              && adapter.validate(inSchema, input)
              && callback(input).Return?
              && adapter.validate(outSchema, callback(input).value)
  {
    if !adapter.validate(inSchema, input) then
      Invocation(Throw(Error(inFailure)), [Checked(inSchema, input, false)])
    else
      var pre := [Checked(inSchema, input, true), Invoked(input)];
      assert Invocations(pre) == 1 by {
        assert pre[1..] == [Invoked(input)];
        assert pre[1..][1..] == [];
      }
      match callback(input)
      case Throw(thrown) =>
        Invocation(Throw(thrown), pre)
      case Return(output) =>
        var post := Checked(outSchema, output, adapter.validate(outSchema, output));
        var trace := pre + [post];
        assert Invocations(trace) == 1 by {
          assert trace[1..] == [Invoked(input), post];
          assert trace[1..][1..] == [post];
          assert trace[1..][1..][1..] == [];
        }
        if !adapter.validate(outSchema, output) then
          Invocation(Throw(Error(outFailure)), trace)
        else
          Invocation(Return(output), trace)
  }

  /** A rejected argument: the call throws `inFailure` after the one input
      check, and the callback never runs. */
  lemma RejectedInput(adapter: TypeAdapter, inSchema: Value, outSchema: Value,
                      inFailure: string, outFailure: string,
                      callback: Value -> Completion, input: Value)
    requires !adapter.validate(inSchema, input)
    ensures Guard(adapter, inSchema, outSchema, inFailure, outFailure, callback, input)
         == Invocation(Throw(Error(inFailure)), [Checked(inSchema, input, false)])
    ensures Invocations(Guard(adapter, inSchema, outSchema, inFailure, outFailure, callback, input).trace) == 0
  {
  }

  /** An accepted argument: the input check comes first, then the callback
      runs exactly once, on the argument as given. */
  lemma InvokedOnceAfterInputCheck(adapter: TypeAdapter, inSchema: Value, outSchema: Value,
                                   inFailure: string, outFailure: string,
                                   callback: Value -> Completion, input: Value)
    requires adapter.validate(inSchema, input)
    ensures var r := Guard(adapter, inSchema, outSchema, inFailure, outFailure, callback, input);
      && r.trace[..2] == [Checked(inSchema, input, true), Invoked(input)]
      && Invocations(r.trace) == 1
  {
  }

  /** A rejected result: the callback has run once, its result was checked
      against the output schema, and the call throws `outFailure`. */
  lemma RejectedOutput(adapter: TypeAdapter, inSchema: Value, outSchema: Value,
                       inFailure: string, outFailure: string,
                       callback: Value -> Completion, input: Value)
    requires adapter.validate(inSchema, input)
    requires callback(input).Return?
    requires !adapter.validate(outSchema, callback(input).value)
    ensures var r := Guard(adapter, inSchema, outSchema, inFailure, outFailure, callback, input);
      && r.completion == Throw(Error(outFailure))
      && r.trace == [Checked(inSchema, input, true), Invoked(input),
                     Checked(outSchema, callback(input).value, false)]
  {
  }

  /** Both checks passed: the call returns exactly the callback's result. */
  lemma PassThrough(adapter: TypeAdapter, inSchema: Value, outSchema: Value,
                    inFailure: string, outFailure: string,
                    callback: Value -> Completion, input: Value)
    requires adapter.validate(inSchema, input)
    requires callback(input).Return?
    requires adapter.validate(outSchema, callback(input).value)
    ensures Guard(adapter, inSchema, outSchema, inFailure, outFailure, callback, input).completion
         == callback(input)
  {
  }

  /** A fault thrown by the callback reaches the caller unchanged, and the
      output check never runs. */
  lemma CallbackFaultPropagates(adapter: TypeAdapter, inSchema: Value, outSchema: Value,
                                inFailure: string, outFailure: string,
                                callback: Value -> Completion, input: Value)
    requires adapter.validate(inSchema, input)
    requires callback(input).Throw?
    ensures var r := Guard(adapter, inSchema, outSchema, inFailure, outFailure, callback, input);
      && r.completion == callback(input)
      && r.trace == [Checked(inSchema, input, true), Invoked(input)]
  {
  }

  /** The bound-method invariant: a call returns `w` exactly when the
      argument passed the input schema, the callback returned `w` and `w`
      passed the output schema, all three recorded in that order. The input
      is never checked against the output schema nor the result against the
      input schema. */
  lemma SuccessIffBothChecksPassed(adapter: TypeAdapter, inSchema: Value, outSchema: Value,
                                     inFailure: string, outFailure: string,
                                     callback: Value -> Completion, input: Value, w: Value)
    ensures Guard(adapter, inSchema, outSchema, inFailure, outFailure, callback, input).completion == Return(w)
        <==> Guard(adapter, inSchema, outSchema, inFailure, outFailure, callback, input).trace
               == [Checked(inSchema, input, true), Invoked(input), Checked(outSchema, w, true)]
             && callback(input) == Return(w)
  {
  }

  /** The calls of one bound method share nothing: applying it to each
      argument in turn gives, for each, the same completion as a lone call,
      and the callback runs once per accepted argument and never otherwise.
      The completions are collected as the loop computes them; what the loop
      proves is the run count, the number of arguments `Accepted` by the
      input schema. */
  method CallEach(adapter: TypeAdapter, inSchema: Value, outSchema: Value,
                  inFailure: string, outFailure: string,
                  callback: Value -> Completion, inputs: seq<Value>)
    returns (completions: seq<Completion>, invoked: nat)
    ensures |completions| == |inputs|
    ensures forall i :: 0 <= i < |inputs| ==>
      completions[i] == Guard(adapter, inSchema, outSchema, inFailure, outFailure, callback, inputs[i]).completion
    ensures invoked == Accepted(adapter, inSchema, inputs)
  {
    completions := [];
    invoked := 0;
    var k := 0;
    while k < |inputs|
      invariant 0 <= k <= |inputs|
      invariant |completions| == k
      invariant forall i :: 0 <= i < k ==>
        completions[i] == Guard(adapter, inSchema, outSchema, inFailure, outFailure, callback, inputs[i]).completion
      invariant invoked == Accepted(adapter, inSchema, inputs[..k])
    {
      var r := Guard(adapter, inSchema, outSchema, inFailure, outFailure, callback, inputs[k]);
      completions := completions + [r.completion];
      invoked := invoked + Invocations(r.trace);
      assert inputs[..k + 1] == inputs[..k] + [inputs[k]];
      AcceptedAppend(adapter, inSchema, inputs[..k], inputs[k]);
      k := k + 1;
    }
    assert inputs[..k] == inputs;
  }

  /** How many of the arguments the input schema accepts. */
  function Accepted(adapter: TypeAdapter, inSchema: Value, inputs: seq<Value>): nat
  {
    if inputs == [] then 0
    else Accepted(adapter, inSchema, inputs[..|inputs| - 1])
         + (if adapter.validate(inSchema, inputs[|inputs| - 1]) then 1 else 0)
  }

  /** Appending one argument adds one to the count exactly when the input
      schema accepts it. */
  lemma AcceptedAppend(adapter: TypeAdapter, inSchema: Value, inputs: seq<Value>, x: Value)
    ensures Accepted(adapter, inSchema, inputs + [x])
         == Accepted(adapter, inSchema, inputs) + (if adapter.validate(inSchema, x) then 1 else 0)
  {
  }
}
