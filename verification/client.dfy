/**
 * The client projection of libs/trpc/client.ts.
 *
 * `RpcClient<Router>` maps each key of a router: a procedure becomes an
 * asynchronous stub typed by that procedure's own adapter, a nested record
 * becomes the client of that record, anything else becomes `never`. The
 * result is a static type, so the projection yields a `Ty`.
 */
module Client {
  import opened AdapterContract
  import opened Server

  /** `RpcClientFunction<Adapter, Input, Output>`: a function from
      `Static<Adapter, Input>` to a promise of `Static<Adapter, Output>`. */
  function ClientFunction(adapter: TypeAdapter, input: Ty, output: Ty): (t: Ty)
    ensures t.Function? && t.param == Static(adapter, input)
    ensures t.result.Promise? && t.result.resolved == Static(adapter, output)
  {
    Function(Static(adapter, input), Promise(Static(adapter, output)))
  }

  /** The client type of one router entry; the procedure test comes first. */
  function Entry(n: Node): (t: Ty)
    decreases n, 1
    ensures n.Proc? ==> t.Function? && t.result.Promise?
    ensures n.Record? ==> t.Object? && t.fields.Keys == n.entries.Keys
    ensures n.Other? ==> t == Never
  {
    if n.Proc? then ClientFunction(n.proceedure.adapter, n.proceedure.input, n.proceedure.output)
    else if n.Record? then Project(n.entries)
    else Never
  }

  /** `RpcClient<Router>`: one member per key of the router. */
  function Project(router: map<string, Node>): (t: Ty)
    decreases Record(router), 0
    ensures t.Object? && t.fields.Keys == router.Keys
  {
    Object(map k | k in router :: Entry(router[k]))
  }

  /** `t` has the shape of `n` at every depth: a stub (a function returning
      a promise) for a procedure, an object with the same keys for a record,
      and `never` for anything else. */
  ghost predicate Mirrors(n: Node, t: Ty)
    decreases n
  {
    match n
    case Proc(_) => t.Function? && t.result.Promise?
    case Record(m) =>
      && t.Object?
      && t.fields.Keys == m.Keys
      && forall k :: k in m ==> Mirrors(m[k], t.fields[k])
    case Other => t == Never
  }

  /** The client of a router has the router's key set at every nesting
      level, with a stub exactly where the router has a procedure. */
  lemma {:induction false} EntryMirrors(n: Node)
    decreases n
    ensures Mirrors(n, Entry(n))
  {
    match n
    case Proc(_) =>
    case Record(m) =>
      forall k | k in m
        ensures Mirrors(m[k], Entry(n).fields[k])
      {
        EntryMirrors(m[k]);
      }
    case Other =>
  }

  /** The whole client has the shape of the whole router. */
  lemma ClientMirrorsRouter(router: map<string, Node>)
    ensures Mirrors(Record(router), Project(router))
  {
    EntryMirrors(Record(router));
  }

  /** The entry a path of keys leads to in a router, if any. */
  function NodeAt(n: Node, path: seq<string>): Option<Node>
    decreases |path|
  {
    if path == [] then Some(n)
    else if n.Record? && path[0] in n.entries then NodeAt(n.entries[path[0]], path[1..])
    else None
  }

  /** The member type a path of keys leads to in a type, if any. */
  function TypeAt(t: Ty, path: seq<string>): Option<Ty>
    decreases |path|
  {
    if path == [] then Some(t)
    else if t.Object? && path[0] in t.fields then TypeAt(t.fields[path[0]], path[1..])
    else None
  }

  /** Looking a path up in the client is projecting what the same path
      finds in the router: the two trees have the same paths, and each
      client member is the projection of the router entry at its path. */
  lemma {:induction false} LookupCommutes(n: Node, path: seq<string>)
    decreases |path|
    ensures TypeAt(Entry(n), path)
         == (if NodeAt(n, path).Some? then Some(Entry(NodeAt(n, path).value)) else None)
  {
    if path != [] && n.Record? && path[0] in n.entries {
      assert Entry(n).fields[path[0]] == Entry(n.entries[path[0]]);
      LookupCommutes(n.entries[path[0]], path[1..]);
    }
  }

  /** Every stub of the client is typed by the adapter of its own procedure,
      whatever adapter its neighbours or the router's context use. */
  lemma StubUsesOwnAdapter(router: map<string, Node>, path: seq<string>, p: Proceedure)
    requires NodeAt(Record(router), path) == Some(Proc(p))
    ensures TypeAt(Project(router), path)
         == Some(Function(Static(p.adapter, p.input), Promise(Static(p.adapter, p.output))))
  {
    LookupCommutes(Record(router), path);
  }

  /** A path that ends at anything but a procedure or a record ends at
      `never` in the client. */
  lemma OtherIsNever(router: map<string, Node>, path: seq<string>)
    requires NodeAt(Record(router), path) == Some(Other)
    ensures TypeAt(Project(router), path) == Some(Never)
  {
    LookupCommutes(Record(router), path);
  }

  /** A procedure made from the context and then given its own adapter
      projects, through a router of the context, to a stub typed by that
      adapter and not by the context's. */
  lemma OverrideReachesStub(context: TypeAdapter, own: TypeAdapter, name: string,
                            input: Ty, output: Ty, callback: Ty)
    ensures var c := Create(context);
      var p := Query(WithOutput(WithInput(WithAdapter(ContextProceedure(c), own), input), output), callback);
      Project(Router(c, map[name := Proc(p)])).fields[name]
        == Function(Static(own, input), Promise(Static(own, output)))
  {
  }
}
