/**
 * `MethodBuilder` of example/index.ts: options name the two schemas
 * `parameter` and `returnType`, and the two errors read
 * "invalid parameter" and "invalid returnType".
 */
module IndexMethods {
  import opened AdapterContract
  import opened Boundary
  import Methods

  datatype MethodOptions = MethodOptions(parameter: Value, returnType: Value)

  /** A builder holds the one adapter injected into its constructor. */
  datatype MethodBuilder = MethodBuilder(adapter: TypeAdapter)

  /** What `method(options, callback)` returns. */
  datatype BoundMethod = BoundMethod(adapter: TypeAdapter, options: MethodOptions, callback: Value -> Completion)

  const InvalidParameter: string := "invalid parameter"
  const InvalidReturnType: string := "invalid returnType"

  /** `builder.method(options, callback)`: nothing is validated or run yet. */
  function Method(builder: MethodBuilder, options: MethodOptions, callback: Value -> Completion): (m: BoundMethod)
    ensures m.adapter == builder.adapter && m.options == options && m.callback == callback
  {
    BoundMethod(builder.adapter, options, callback)
  }

  /** Calling a bound method with `input`. */
  function Apply(m: BoundMethod, input: Value): (r: Invocation)
    ensures Faithful(m.adapter, r.trace)
    ensures !m.adapter.validate(m.options.parameter, input) ==>
              && r.completion == Throw(Error(InvalidParameter))
              && r.trace == [Checked(m.options.parameter, input, false)]
    ensures m.adapter.validate(m.options.parameter, input) ==>
              && |r.trace| >= 2
              && r.trace[..2] == [Checked(m.options.parameter, input, true), Invoked(input)]
              && Invocations(r.trace) == 1
    ensures m.adapter.validate(m.options.parameter, input) && m.callback(input).Return?
              && !m.adapter.validate(m.options.returnType, m.callback(input).value) ==>
              && r.completion == Throw(Error(InvalidReturnType))
              && r.trace[|r.trace| - 1] == Checked(m.options.returnType, m.callback(input).value, false)
    ensures r.completion.Return? <==>
              && m.adapter.validate(m.options.parameter, input)
              && m.callback(input).Return?
              && m.adapter.validate(m.options.returnType, m.callback(input).value)
    ensures r.completion.Return? ==> r.completion == m.callback(input)
  {
    Guard(m.adapter, m.options.parameter, m.options.returnType, InvalidParameter, InvalidReturnType, m.callback, input)
  }

  /** The callback of the `echo` example: the identity. */
  function Echo(input: Value): (c: Completion)
    ensures c.Return? && c.value == input
  {
    Return(input)
  }

  /** `echo('00')` returns '00', given a typebox adapter whose template
      literal schema accepts "00" and whose string schema accepts it too. */
  lemma EchoExample(typebox: TypeAdapter, template: Value, text: Value)
    requires typebox.validate(template, Str("00"))
    requires typebox.validate(text, Str("00"))
    ensures Apply(Method(MethodBuilder(typebox), MethodOptions(template, text), Echo), Str("00")).completion
         == Return(Str("00"))
  {
  }

  /** `add({ a: 1, b: 2 })` returns 3, given a zod adapter whose object
      schema accepts that pair and whose number schema accepts 3; the
      callback is the same sum as in the other builder's example. */
  lemma AddExample(zod: TypeAdapter, numberPair: Value, number: Value)
    requires zod.validate(numberPair, Methods.Pair(1, 2))
    requires zod.validate(number, Num(3))
    ensures Apply(Method(MethodBuilder(zod), MethodOptions(numberPair, number), Methods.Add),
                  Methods.Pair(1, 2)).completion
         == Return(Num(3))
  {
  }
}
