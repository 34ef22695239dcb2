/**
 * The type-adapter contract (libs/type-adapters/adapter/adapter.ts).
 *
 * A type adapter is the one capability the framework depends on. At run time
 * it answers `validate(schema, value)`; at the type level it carries an
 * inference relation that turns the type of a schema into the type of the
 * values the schema accepts. `Static` is that type-level projection.
 */
module AdapterContract {

  datatype Option<+T> = None | Some(value: T)

  /** A run-time JavaScript value, as far as schemas, arguments and results
      need one. Numbers are integers in this model. */
  datatype Value =
    | Undefined
    | Null
    | Bool(b: bool)
    | Num(n: int)
    | Str(s: string)
    | Arr(items: seq<Value>)
    | Obj(props: map<string, Value>)

  /** A static (TypeScript) type. `Unknown` is the top type, `Never` the
      bottom type, `Library(name)` a type owned by a schema library (such as
      the type of a zod object schema), which the core never looks inside. */
  datatype Ty =
    | Unknown
    | Never
    | Boolean
    | Number
    | String
    | Literal(value: Value)
    | Array(element: Ty)
    | Object(fields: map<string, Ty>)
    | Function(param: Ty, result: Ty)
    | Promise(resolved: Ty)
    | Library(name: string)

  /** The inference relation of a `TypeAdapter<I>`: given the type put into
      I's `input` slot, the type its `output` slot then reads, or None when
      `output` reads `unknown`. */
  type Inference = Ty -> Option<Ty>

  /** A `TypeAdapter<I>`: its inference relation (a type-level member) and
      its one run-time operation, the predicate `validate(schema, value)`. */
  datatype TypeAdapter = TypeAdapter(inference: Inference, validate: (Value, Value) -> bool)

  /** The default `TypeInference`, whose `output` is `unknown` whatever the input. */
  function BaseInference(input: Ty): (output: Option<Ty>)
    ensures output.None?
  {
    None
  }

  /** `Static<A, T>` for an adapter A: read A's inference with T in the
      input slot; a missing output is `unknown`. */
  function Static(a: TypeAdapter, t: Ty): (r: Ty)
    ensures a.inference(t).Some? ==> r == a.inference(t).value
    ensures a.inference(t).None? ==> r == Unknown
  {
    match a.inference(t)
    case Some(output) => output
    case None => Unknown
  }

  /** `Static<A, T>` for an arbitrary type A: None stands for a type A that
      does not extend `TypeAdapter`, which projects every T to `unknown`. */
  function StaticOf(a: Option<TypeAdapter>, t: Ty): (r: Ty)
    ensures a.None? ==> r == Unknown
    ensures a.Some? ==> r == Static(a.value, t)
  {
    if a.Some? then Static(a.value, t) else Unknown
  }

  /** Static depends on the adapter only through its inference relation:
      two adapters that infer alike project every schema type alike, however
      differently they validate; and the same adapter and type always give
      the same projection. */
  lemma StaticDeterministic(a: TypeAdapter, b: TypeAdapter, t: Ty)
    requires a.inference == b.inference
    ensures Static(a, t) == Static(b, t)
  {
  }

  /** An adapter declared on the default `TypeInference` projects every
      schema type to `unknown`, whatever its `validate` does. */
  lemma BaseInferenceProjectsUnknown(validate: (Value, Value) -> bool, t: Ty)
    ensures Static(TypeAdapter(BaseInference, validate), t) == Unknown
  {
  }

  /** Projection reads back exactly what the inference relation infers:
      a type other than `unknown` comes out only if the relation produced it. */
  lemma StaticIsInferred(a: TypeAdapter, t: Ty)
    requires Static(a, t) != Unknown
    ensures a.inference(t) == Some(Static(a, t))
  {
  }
}
