# type-adapters, modelled in Dafny

The repository defines type-checked methods and RPC procedures over any
schema library. It does this through one capability, the **type adapter**. At
run time an adapter answers `validate(schema, value)`. At the type level it
carries an inference relation that `Static<A, T>` reads to turn a schema type
into the type of the values it accepts. This project models:

- the adapter contract and `Static` (`adapter.dfy`, module `AdapterContract`);
- the default adapter (`default_adapter.dfy`) and the JSON-Schema adapter with
  its dialect selection (`json_schema_adapter.dfy`);
- the validation boundary of `MethodBuilder.method`: check the argument, run
  the callback once, check its result, return it unchanged. It is written once
  in `boundary.dfy`. The two copies of the builder, in example/methods.ts and
  example/index.ts, are `methods.dfy` and `index_methods.dfy`; they differ
  only in option names and error messages;
- the staged procedure builder, the context and the router of the tRPC-style
  server (`server.dfy`);
- the client projection `RpcClient`, which maps a router tree to a tree of
  asynchronous stub types (`client.dfy`).

Static types are the datatype `Ty`, with `Unknown` and `Never` among its
constructors. Run-time JavaScript values are `Value`. An adapter is the record
`TypeAdapter(inference, validate)`. Its `inference` maps the type in the
input slot to `Some(output)`, or to `None` when the output is `unknown`. An
invocation returns a `Completion` (`Return(v)` or `Throw(e)`) together with a
trace of `Checked(schema, value, verdict)` and `Invoked(argument)` steps. The
trace shows which schema each check used, how often the callback ran, and in
what order.

Parameters stand in for the schema libraries. The adapter's `validate`, the
json-schema-to-ts type functions, the three ajv validators and the example
callbacks' schemas are all passed in and never looked inside.

## Model

| member | source | states |
|---|---|---|
| AdapterContract.BaseInference | libs/type-adapters/adapter/adapter.ts:1-4 | the default TypeInference's output is `unknown` (None) for every input |
| AdapterContract.Static | libs/type-adapters/adapter/adapter.ts:12-16 | the projection is the inference relation's output with T in the input slot, and `unknown` when that output is missing |
| AdapterContract.StaticOf | libs/type-adapters/adapter/adapter.ts:12-16 | a type that is not an adapter projects every T to `unknown`; an adapter projects as `Static` |
| AdapterContract.StaticDeterministic | libs/type-adapters/adapter/adapter.ts:12-16 | two adapters that infer alike project every type alike, whatever their validate does |
| AdapterContract.BaseInferenceProjectsUnknown | libs/type-adapters/adapter/adapter.ts:1-7 | an adapter declared on the default TypeInference projects every schema type to `unknown` |
| AdapterContract.StaticIsInferred | libs/type-adapters/adapter/adapter.ts:12-14 | a projection other than `unknown` is exactly what the inference relation produced for that input |
| DefaultAdapter.Inference | libs/type-adapters/default/adapter.ts:3-5 | the default inference output is `unknown` for every input |
| DefaultAdapter.Validate | libs/type-adapters/default/adapter.ts:7-9 | the default validate accepts every value |
| DefaultAdapter.New | libs/type-adapters/default/adapter.ts:6-10 | the default adapter accepts every (schema, value) pair and projects every type to `unknown` |
| DefaultAdapter.VerdictIgnoresSchema | libs/type-adapters/default/adapter.ts:7-9 | the default verdict does not depend on the schema argument |
| JsonSchemaAdapter.SelectDialect | libs/type-adapters/json-schema-to-ts/adapter.ts:15-19 | '2020-12' selects the 2020-12 build, '2019-09' the 2019-09 build, and every other name, 'draft-7' included, the draft-7 build (each an if-and-only-if) |
| JsonSchemaAdapter.EffectiveSpec | libs/type-adapters/json-schema-to-ts/adapter.ts:13 | a missing constructor argument means 'draft-7' |
| JsonSchemaAdapter.Inference | libs/type-adapters/json-schema-to-ts/adapter.ts:7-9 | the inference produces an output exactly for types that extend JSONSchema, and that output is FromSchema of the type |
| JsonSchemaAdapter.New | libs/type-adapters/json-schema-to-ts/adapter.ts:7-24 | the instance keeps the selected dialect; validate returns exactly that dialect's ajv verdict; a JSON-Schema type projects to FromSchema of it, any other type to `unknown` |
| JsonSchemaAdapter.DefaultIsDraft7 | libs/type-adapters/json-schema-to-ts/adapter.ts:13-19 | with no argument the adapter validates with the draft-7 build |
| JsonSchemaAdapter.ExplicitDraft7IsDefault | libs/type-adapters/json-schema-to-ts/adapter.ts:13-19 | `new Adapter('draft-7')` and `new Adapter()` give the same verdicts |
| Boundary.Guard | example/methods.ts:18-23 | the first step checks the argument against the input schema; every check carries the one adapter's verdict; the callback runs once exactly when the argument passed; a callback fault propagates unchanged; the result is checked against the output schema; the call returns iff both checks pass |
| Boundary.RejectedInput | example/methods.ts:19 | a rejected argument throws the input error after a single check, and the callback never runs |
| Boundary.InvokedOnceAfterInputCheck | example/methods.ts:19-20 | an accepted argument is checked first, then the callback runs once on the unchanged argument |
| Boundary.RejectedOutput | example/methods.ts:20-21 | a rejected result throws the output error, after the callback ran once and its result was checked against the output schema |
| Boundary.PassThrough | example/methods.ts:20-22 | when both checks pass, the call returns exactly the callback's result |
| Boundary.CallbackFaultPropagates | example/methods.ts:20 | an exception from the callback reaches the caller unchanged and the output check never runs |
| Boundary.SuccessIffBothChecksPassed | example/methods.ts:18-23 | a call returns w iff its trace is: input accepted, callback run on the argument, w accepted by the output schema, and the callback returned w |
| Boundary.CallEach | example/methods.ts:17-24 | repeated calls are independent: each completes as a lone call would, and the callback runs once per accepted argument in total |
| Methods.Method | example/methods.ts:12-17 | the bound method keeps the builder's injected adapter, the options and the callback, and runs nothing yet |
| Methods.Apply | example/methods.ts:18-23 | 'invalid input' with no callback run when `options.input` rejects; one callback run on the argument otherwise; 'invalid output' when `options.output` rejects the result; success iff both pass, returning the callback's own value |
| Methods.DefaultAdapterNeverRejects | example/methods.ts:19-22 | over an adapter that accepts everything, such as the default one, a call always ends as the callback ends, after exactly one run |
| Methods.Add | example/methods.ts:36 | on the pair {a, b} the `add` callback returns the sum a + b |
| Methods.AddExample | example/methods.ts:33-38 | `add({a:1,b:2})` returns 3 when the schemas accept the pair and the sum |
| IndexMethods.Method | example/index.ts:21-26 | the bound method keeps the builder's injected adapter, the options and the callback |
| IndexMethods.Apply | example/index.ts:27-32 | 'invalid parameter' after one check and no callback run when `options.parameter` rejects; one callback run on the unchanged argument otherwise; 'invalid returnType' when `options.returnType` rejects the result; success iff both pass, returning the callback's own value |
| IndexMethods.Echo | example/index.ts:64 | the echo callback returns its argument |
| IndexMethods.EchoExample | example/index.ts:61-66 | `echo('00')` returns '00' when both schemas accept it |
| IndexMethods.AddExample | example/index.ts:49-57 | `add({a:1,b:2})` returns 3 when the schemas accept the pair and the sum |
| Server.NewProceedure | libs/trpc/server.ts:18-23 | a new procedure carries the given adapter, with input and output `unknown` |
| Server.WithAdapter | libs/trpc/server.ts:24-25 | `.adapter(a)` replaces the adapter and keeps input and output |
| Server.WithInput | libs/trpc/server.ts:26-27 | `.input(T)` replaces only the input |
| Server.WithOutput | libs/trpc/server.ts:28-29 | `.output(T)` replaces only the output |
| Server.CallbackType | libs/trpc/server.ts:11-16 | the callback type takes an object whose only key `input` has type `Static(A, Input)` and returns `Static(A, Output)`, with A the procedure's adapter |
| Server.Query | libs/trpc/server.ts:30-31 | `.query` keeps adapter, input and output |
| Server.Mutation | libs/trpc/server.ts:32-33 | `.mutation` keeps adapter, input and output |
| Server.QueryIsMutation | libs/trpc/server.ts:30-33 | query and mutation give the same procedure |
| Server.CallbackFollowsAdapter | libs/trpc/server.ts:11-16 | the callback's argument and result types are projected by the procedure's current adapter |
| Server.SettersCommute | libs/trpc/server.ts:24-29 | every pair of setters on different parameters commutes, and of two calls of the same setter the later wins |
| Server.Create | libs/trpc/server.ts:46-47 | `initTRPC.create(adapter)` yields a context bound to that adapter |
| Server.ContextProceedure | libs/trpc/server.ts:38-41 | `context.proceedure` carries the context's adapter, with input and output `unknown` |
| Server.Router | libs/trpc/server.ts:5-7 | the router function returns its options unchanged: the same keys, each with its own entry |
| Client.ClientFunction | libs/trpc/client.ts:4-9 | a client stub takes `Static(A, Input)` and returns a promise of `Static(A, Output)` |
| Client.Entry | libs/trpc/client.ts:13-18 | a procedure entry becomes a function returning a promise, a nested record an object with the record's keys, anything else `never` |
| Client.Project | libs/trpc/client.ts:11-19 | the client is an object with exactly the router's keys |
| Client.EntryMirrors | libs/trpc/client.ts:13-17 | at every depth the client has the router's key set, a stub exactly where the router has a procedure, and `never` for any other entry |
| Client.ClientMirrorsRouter | libs/trpc/client.ts:11-19 | the whole client has the shape of the whole router |
| Client.LookupCommutes | libs/trpc/client.ts:13-17 | a path leads somewhere in the client iff it does in the router, and there it finds the projection of the router's entry |
| Client.StubUsesOwnAdapter | libs/trpc/client.ts:4-9 | the stub at a procedure's path takes `Static(A, In)` to a promise of `Static(A, Out)`, with A that procedure's own adapter |
| Client.OtherIsNever | libs/trpc/client.ts:17 | a path ending at an entry that is neither a procedure nor a record ends at `never` in the client |
| Client.OverrideReachesStub | libs/trpc/client.ts:15 | a procedure whose adapter overrides the context's gets a stub typed by its own adapter |

- The router function is the identity (libs/trpc/server.ts:5-7) and
  checks no duplicate names.
- An adapter override belongs to one procedure (libs/trpc/server.ts:25);
  the router applies no default adapter.

## Left out

- Adapter faults: `validate` is a pure total predicate here. A library that
  throws while validating a malformed schema is not modelled.
- The library bindings (zod, typebox, valibot and the rest): each `validate`
  is one call into an external library. They appear only as adapter
  parameters. The stub adapters and `Rpc.method` in libs/framework/rpc.ts
  only throw 'not implemented', so they have no behaviour to model.
- Library type inference (`z.infer`, `StaticDecode`, `FromSchema`, the
  `JST.JSONSchema` test): these are opaque functions. The JSON-Schema adapter
  takes them in its `Library` parameter.
- That `validate` is an adapter's only run-time operation comes from the
  shape of the `TypeAdapter` datatype. No contract states it.
- Whether a proceedure instance also passes the record test of `RpcClient`
  is a TypeScript assignability question, left open here. `Client.Entry`
  tests for a procedure first, as the source does, but no lemma shows that
  the order matters.
- The static `Method<Adapter, Options>` type alias of the two builders uses
  the same `Static` projections as `Server.CallbackType`, but takes the
  projected input directly rather than wrapped as `{ input }`. It is not
  modelled, because the builders' options are run-time schema values.
- `createTRPCClient` is declared only, and its result type is
  `RpcClient<Router>`, which is `Client.Project`.
- Promises and transport: "async" is only the `Promise` type constructor.
  No networking exists.
- Methods.Add: numbers are integers, not IEEE doubles, and `Add` returns `Undefined`
  for an argument without numeric `a` and `b`. JavaScript would apply `+`
  with its coercions there: string concatenation, NaN, a number from
  coerced booleans, or a TypeError for a null or undefined argument. The
  callback never sees such an argument once the schema has rejected it.
- AdapterContract.StaticOf: `Static<A, T>` distributes over a union A and
  gives `never` for A = `never`; `Option<TypeAdapter>` expresses neither, and
  no caller in the source passes such an A.
- Server.Query: the callback is not checked against `Server.CallbackType`;
  TypeScript's assignability is not modelled, so `callback` is accepted
  unconstrained and ignored.
- Server.Mutation: the callback is not checked against `Server.CallbackType`,
  for the same reason as `Server.Query`.
- Boundary.CallEach: the callback is a pure function of its argument, with
  no state or side effects, so that each call completes as a lone call would
  holds by construction; only the run count is proved.
- Methods.Method and IndexMethods.Method capture the options object as a
  value. The source closure reads `options.input` and `options.output` (or
  `parameter` and `returnType`) on every call, so mutating the options object
  after `method` returns is not modelled.
- Property keys are strings. Symbol and number keys of a router record are
  not modelled.
- The example files example/trpc.ts and example/framework.ts only wire
  library schemas together and have no logic of their own.
