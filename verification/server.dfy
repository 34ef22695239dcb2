/**
 * The procedure builder and router of libs/trpc/server.ts.
 *
 * `RpcProceedure<Adapter, Input, Output>` is declared only: it exists as a
 * type whose three parameters each setter rewrites. The model keeps exactly
 * those three parameters, as a record of an adapter and two static types.
 */
module Server {
  import opened AdapterContract

  /** The static state of a procedure under construction. */
  datatype Proceedure = Proceedure(adapter: TypeAdapter, input: Ty, output: Ty)

  /** An entry of a router's options: a procedure, a nested record of
      entries, or anything else (a primitive, a function, ...). */
  datatype Node =
    | Proc(proceedure: Proceedure)
    | Record(entries: map<string, Node>)
    | Other

  /** `new RpcProceedure(adapter)`: Input and Output take their defaults. */
  function NewProceedure(adapter: TypeAdapter): (p: Proceedure)
    ensures p.adapter == adapter && p.input == Unknown && p.output == Unknown
  {
    Proceedure(adapter, Unknown, Unknown)
  }

  /** `.adapter(a)`: overrides the adapter, keeps input and output. */
  function WithAdapter(p: Proceedure, a: TypeAdapter): (r: Proceedure)
    ensures r.adapter == a && r.input == p.input && r.output == p.output
  {
    p.(adapter := a)
  }

  /** `.input(type)`: replaces the input type only. */
  function WithInput(p: Proceedure, t: Ty): (r: Proceedure)
    ensures r.input == t && r.adapter == p.adapter && r.output == p.output
  {
    p.(input := t)
  }

  /** `.output(type)`: replaces the output type only. */
  function WithOutput(p: Proceedure, t: Ty): (r: Proceedure)
    ensures r.output == t && r.adapter == p.adapter && r.input == p.input
  {
    p.(output := t)
  }

  /** `RpcProceedureCallback<Adapter, Input, Output>`: the callback receives
      `{ input: Static<Adapter, Input> }` and returns `Static<Adapter, Output>`. */
  function CallbackType(p: Proceedure): (t: Ty)
    ensures t.Function? && t.param.Object? && t.param.fields.Keys == {"input"}
    ensures t.param.fields["input"] == Static(p.adapter, p.input)
    ensures t.result == Static(p.adapter, p.output)
  {
    Function(Object(map["input" := Static(p.adapter, p.input)]), Static(p.adapter, p.output))
  }

  /** `.query(callback)`, with `callback` of type `CallbackType(p)`: the
      procedure's three parameters come back as they were. */
  function Query(p: Proceedure, callback: Ty): (r: Proceedure)
    ensures r.adapter == p.adapter && r.input == p.input && r.output == p.output
  {
    p
  }

  /** `.mutation(callback)`, declared with the same signature as `.query`. */
  function Mutation(p: Proceedure, callback: Ty): (r: Proceedure)
    ensures r.adapter == p.adapter && r.input == p.input && r.output == p.output
  {
    p
  }

  /** Nothing at this layer tells a query from a mutation. */
  lemma QueryIsMutation(p: Proceedure, callback: Ty)
    ensures Query(p, callback) == Mutation(p, callback)
  {
  }

  /** The callback's types follow the procedure's current adapter: after
      `.adapter(a)` both its argument and its result are projected by `a`. */
  lemma CallbackFollowsAdapter(p: Proceedure, a: TypeAdapter)
    ensures CallbackType(WithAdapter(p, a)).param.fields["input"] == Static(a, p.input)
    ensures CallbackType(WithAdapter(p, a)).result == Static(a, p.output)
  {
  }

  /** Setters on different parameters commute, and on the same parameter
      the later call wins: each setter rewrites one parameter and no other. */
  lemma SettersCommute(p: Proceedure, a: TypeAdapter, b: TypeAdapter, i: Ty, i2: Ty, o: Ty, o2: Ty)
    ensures WithInput(WithOutput(p, o), i) == WithOutput(WithInput(p, i), o)
    ensures WithAdapter(WithInput(p, i), a) == WithInput(WithAdapter(p, a), i)
    ensures WithAdapter(WithOutput(p, o), a) == WithOutput(WithAdapter(p, a), o)
    ensures WithAdapter(WithAdapter(p, b), a) == WithAdapter(p, a)
    ensures WithInput(WithInput(p, i), i2) == WithInput(p, i2)
    ensures WithOutput(WithOutput(p, o), o2) == WithOutput(p, o2)
  {
  }

  /** `RpcContext<Adapter>`: the adapter given to `initTRPC.create`. */
  datatype Context = Context(adapter: TypeAdapter)

  /** `initTRPC.create(adapter)`. */
  function Create(adapter: TypeAdapter): (c: Context)
    ensures c.adapter == adapter
  {
    Context(adapter)
  }

  /** `context.proceedure`: a fresh procedure on the context's adapter. */
  function ContextProceedure(c: Context): (p: Proceedure)
    ensures p.adapter == c.adapter
    ensures p.input == Unknown && p.output == Unknown
  {
    NewProceedure(c.adapter)
  }

  /** `context.router(options)`: `RpcRouterFunction` hands its options back
      as they are, so the router has exactly the entries it was given. */
  function Router(c: Context, options: map<string, Node>): (r: map<string, Node>)
    ensures r.Keys == options.Keys
    ensures forall k :: k in r ==> r[k] == options[k]
  {
    options
  }
}
