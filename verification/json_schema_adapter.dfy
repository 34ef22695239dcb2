/**
 * The JSON-Schema adapter (libs/type-adapters/json-schema-to-ts/adapter.ts).
 *
 * Its constructor picks one of three ajv validators from a dialect name and
 * `validate` hands every question to the validator it picked. What the
 * adapter borrows from json-schema-to-ts and ajv is a `Library` parameter.
 */
module JsonSchemaAdapter {
  import opened AdapterContract

  /** The three ajv builds the constructor chooses between. */
  datatype Dialect = Draft7 | Draft2019 | Draft2020

  /** The borrowed library parts: whether a type extends `JST.JSONSchema`,
      the type `JST.FromSchema<T>`, and `validator.validate` of the ajv build
      for each dialect. */
  datatype Library = Library(
    isJsonSchema: Ty -> bool,
    fromSchema: Ty -> Ty,
    ajv: Dialect -> ((Value, Value) -> bool))

  /** The constructor's default when it is called without an argument. */
  const DefaultSpec: string := "draft-7"

  /** An adapter instance: the dialect its `validator` field was built for,
      and the adapter record every other module sees. */
  datatype JsonAdapter = JsonAdapter(dialect: Dialect, adapter: TypeAdapter)

  /** The dialect named by a spec string; every unrecognised name, and
      "draft-7" itself, selects the draft-7 validator. */
  function SelectDialect(spec: string): (d: Dialect)
    ensures d == Draft2020 <==> spec == "2020-12"
    ensures d == Draft2019 <==> spec == "2019-09"
    ensures d == Draft7 <==> spec != "2020-12" && spec != "2019-09"
  {
    if spec == "2020-12" then Draft2020
    else if spec == "2019-09" then Draft2019
    else Draft7
  }

  /** The spec the constructor sees: the argument, or the default when the
      argument is left out (None). */
  function EffectiveSpec(arg: Option<string>): (spec: string)
    ensures arg.Some? ==> spec == arg.value
    ensures arg.None? ==> spec == DefaultSpec
  {
    if arg.Some? then arg.value else DefaultSpec
  }

  /** The adapter's `Inference`: `FromSchema<T>` when T extends
      `JSONSchema`, otherwise `unknown`. */
  function Inference(lib: Library): (inference: Inference)
    ensures forall t :: inference(t).Some? <==> lib.isJsonSchema(t)
    ensures forall t :: lib.isJsonSchema(t) ==> inference(t) == Some(lib.fromSchema(t))
  {
    t => if lib.isJsonSchema(t) then Some(lib.fromSchema(t)) else None
  }

  /** `new Adapter(spec)`. */
  function New(lib: Library, arg: Option<string>): (r: JsonAdapter)
    ensures r.dialect == SelectDialect(EffectiveSpec(arg))
    ensures forall schema, value :: r.adapter.validate(schema, value) == lib.ajv(r.dialect)(schema, value)
    ensures forall t :: lib.isJsonSchema(t) ==> Static(r.adapter, t) == lib.fromSchema(t)
    ensures forall t :: !lib.isJsonSchema(t) ==> Static(r.adapter, t) == Unknown
  {
    var dialect := SelectDialect(EffectiveSpec(arg));
    JsonAdapter(dialect, TypeAdapter(Inference(lib), lib.ajv(dialect)))
  }

  /** Without an argument the adapter validates with the draft-7 build. */
  lemma DefaultIsDraft7(lib: Library, schema: Value, value: Value)
    ensures New(lib, None).dialect == Draft7
    ensures New(lib, None).adapter.validate(schema, value) == lib.ajv(Draft7)(schema, value)
  {
  }

  /** Naming a dialect explicitly is the same as naming it by default:
      `new Adapter()` and `new Adapter('draft-7')` validate alike. */
  lemma ExplicitDraft7IsDefault(lib: Library, schema: Value, value: Value)
    ensures New(lib, Some("draft-7")).adapter.validate(schema, value)
         == New(lib, None).adapter.validate(schema, value)
  {
  }
}
