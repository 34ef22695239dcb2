/**
 * The default adapter (libs/type-adapters/default/adapter.ts): it accepts
 * every value for every schema and infers `unknown` for every schema.
 */
module DefaultAdapter {
  import opened AdapterContract

  /** The default `Inference`: its `output` is `unknown` for any input. */
  function Inference(input: Ty): (r: Option<Ty>)
    ensures r.None?
  {
    None
  }

  /** The default `validate`: every value passes every schema. */
  function Validate(schema: Value, value: Value): (ok: bool)
    ensures ok
  {
    true
  }

  /** `new Adapter()`. */
  function New(): (a: TypeAdapter)
    ensures forall schema, value :: a.validate(schema, value)
    ensures forall t :: Static(a, t) == Unknown
  {
    TypeAdapter(Inference, Validate)
  }

  /** The verdict of the default adapter does not depend on the schema:
      any two schemas give the same answer for the same value. */
  lemma VerdictIgnoresSchema(s1: Value, s2: Value, value: Value)
    ensures New().validate(s1, value) == New().validate(s2, value)
  {
  }
}
