/**
 * `MethodBuilder` of example/methods.ts: options name the two schemas
 * `input` and `output`, and the two errors read "invalid input" and
 * "invalid output".
 */
module Methods {
  import opened AdapterContract
  import opened Boundary

  datatype MethodOptions = MethodOptions(input: Value, output: Value)

  /** A builder holds the one adapter injected into its constructor. */
  datatype MethodBuilder = MethodBuilder(adapter: TypeAdapter)

  /** What `method(options, callback)` returns: a closure over the builder's
      adapter, the options and the callback. */
  datatype BoundMethod = BoundMethod(adapter: TypeAdapter, options: MethodOptions, callback: Value -> Completion)

  const InvalidInput: string := "invalid input"
  const InvalidOutput: string := "invalid output"

  /** `builder.method(options, callback)`: nothing is validated or run yet. */
  function Method(builder: MethodBuilder, options: MethodOptions, callback: Value -> Completion): (m: BoundMethod)
    ensures m.adapter == builder.adapter && m.options == options && m.callback == callback
  {
    BoundMethod(builder.adapter, options, callback)
  }

  /** Calling a bound method with `input`. */
  function Apply(m: BoundMethod, input: Value): (r: Invocation)
    ensures |r.trace| >= 1 && r.trace[0] == Checked(m.options.input, input, m.adapter.validate(m.options.input, input))
    ensures Faithful(m.adapter, r.trace)
    ensures !m.adapter.validate(m.options.input, input) ==>
              r.completion == Throw(Error(InvalidInput)) && Invocations(r.trace) == 0
    ensures m.adapter.validate(m.options.input, input) ==>
              |r.trace| >= 2 && r.trace[1] == Invoked(input) && Invocations(r.trace) == 1
    ensures m.adapter.validate(m.options.input, input) && m.callback(input).Return?
              && !m.adapter.validate(m.options.output, m.callback(input).value) ==>
              r.completion == Throw(Error(InvalidOutput))
              && r.trace[|r.trace| - 1] == Checked(m.options.output, m.callback(input).value, false)
    ensures r.completion.Return? <==>
              && m.adapter.validate(m.options.input, input)
              && m.callback(input).Return?
              && m.adapter.validate(m.options.output, m.callback(input).value)
    ensures r.completion.Return? ==> r.completion == m.callback(input)
  {
    Guard(m.adapter, m.options.input, m.options.output, InvalidInput, InvalidOutput, m.callback, input)
  }

  /** The method built over the default adapter never rejects anything: a
      call ends exactly as the callback ends, and the callback runs once. */
  lemma DefaultAdapterNeverRejects(adapter: TypeAdapter, options: MethodOptions,
                                   callback: Value -> Completion, input: Value)
    requires forall schema, value :: adapter.validate(schema, value)
    ensures Apply(Method(MethodBuilder(adapter), options, callback), input).completion == callback(input)
    ensures Invocations(Apply(Method(MethodBuilder(adapter), options, callback), input).trace) == 1
  {
  }

  /** The callback of the `add` example: the sum of the numeric fields `a`
      and `b`. It never throws. */
  function Add(input: Value): (c: Completion)
    ensures c.Return?
    ensures forall a, b :: input == Pair(a, b) ==> c.value == Num(a + b)
  {
    if input.Obj? && "a" in input.props && "b" in input.props
       && input.props["a"].Num? && input.props["b"].Num?
    then Return(Num(input.props["a"].n + input.props["b"].n))
    else Return(Undefined)
  }

  function Pair(a: int, b: int): Value
  {
    Obj(map["a" := Num(a), "b" := Num(b)])
  }

  /** `add({ a: 1, b: 2 })` returns 3, given a zod adapter whose object
      schema accepts that pair and whose number schema accepts 3. */
  lemma AddExample(zod: TypeAdapter, numberPair: Value, number: Value)
    requires zod.validate(numberPair, Pair(1, 2))
    requires zod.validate(number, Num(3))
    ensures Apply(Method(MethodBuilder(zod), MethodOptions(numberPair, number), Add), Pair(1, 2)).completion
         == Return(Num(3))
  {
  }
}
