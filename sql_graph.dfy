/** The SQL entity graph: the closed union of entity kinds, their
    identifiers and anchor comments, the per-kind `to_sql` dispatch with its
    override hook and converter-function absorption, and the identifier
    length check. */
module SqlGraph {
  import opened Common
  import opened Strings
  import EnumEntity
  import OrdEntity
  import HashEntity

  /** What an entity kind whose own source file is not part of this model
      answers to the `SqlGraphIdentifier` queries. */
  datatype Identifiers = Identifiers(dot: string, rust: string, file: Option<string>, line: Option<U32>)

  /** The extension's control file (the graph's root). */
  datatype ControlFile = ControlFile(ids: Identifiers)

  /** A `#[pg_schema]` module. */
  datatype SchemaEntity = SchemaEntity(name: string, ids: Identifiers)

  /** An `extension_sql!` fragment. */
  datatype ExtensionSqlEntity = ExtensionSqlEntity(ids: Identifiers)

  /** A `#[pg_extern]` function, reduced to what the dispatch reads. */
  datatype PgExternEntity = PgExternEntity(fullPath: string, toSqlConfig: ToSqlConfigEntity, ids: Identifiers)

  /** A `#[derive(PostgresType)]` type, reduced to what the dispatch reads:
      the names and module paths of its input and output functions. */
  datatype PostgresTypeEntity = PostgresTypeEntity(
    inFn: string,
    inFnModulePath: string,
    outFn: string,
    outFnModulePath: string,
    toSqlConfig: ToSqlConfigEntity,
    ids: Identifiers)

  /** A `#[pg_aggregate]` implementation. */
  datatype PgAggregateEntity = PgAggregateEntity(toSqlConfig: ToSqlConfigEntity, ids: Identifiers)

  /** A `#[pg_trigger]` function. */
  datatype PgTriggerEntity = PgTriggerEntity(toSqlConfig: ToSqlConfigEntity, ids: Identifiers)

  /** `SqlGraphEntity`: one node of the graph. */
  datatype SqlGraphEntity =
    | ExtensionRoot(control: ControlFile)
    | Schema(schema: SchemaEntity)
    | CustomSql(customSql: ExtensionSqlEntity)
    | Function(extern: PgExternEntity)
    | Type(pgType: PostgresTypeEntity)
    | BuiltinType(builtin: string)
    | Enum(pgEnum: EnumEntity.PostgresEnumEntity)
    | Ord(ord: OrdEntity.PostgresOrdEntity)
    | Hash(hash: HashEntity.PostgresHashEntity)
    | Aggregate(aggregate: PgAggregateEntity)
    | Trigger(trigger: PgTriggerEntity)

  // ---------------------------------------------------------------------
  // Identifiers and anchor comments

  /** `SqlGraphIdentifier::dot_identifier`, delegated per kind. */
  function DotIdentifier(self: SqlGraphEntity): string
  {
    match self
    case Schema(item) => item.ids.dot
    case CustomSql(item) => item.ids.dot
    case Function(item) => item.ids.dot
    case Type(item) => item.ids.dot
    case BuiltinType(item) => "preexisting type " + item
    case Enum(item) => EnumEntity.DotIdentifier(item)
    case Ord(item) => OrdEntity.DotIdentifier(item)
    case Hash(item) => HashEntity.DotIdentifier(item)
    case Aggregate(item) => item.ids.dot
    case Trigger(item) => item.ids.dot
    case ExtensionRoot(item) => item.ids.dot
  }

  /** `SqlGraphIdentifier::rust_identifier`, delegated per kind. */
  function RustIdentifier(self: SqlGraphEntity): string
  {
    match self
    case Schema(item) => item.ids.rust
    case CustomSql(item) => item.ids.rust
    case Function(item) => item.ids.rust
    case Type(item) => item.ids.rust
    case BuiltinType(item) => item
    case Enum(item) => EnumEntity.RustIdentifier(item)
    case Ord(item) => OrdEntity.RustIdentifier(item)
    case Hash(item) => HashEntity.RustIdentifier(item)
    case Aggregate(item) => item.ids.rust
    case Trigger(item) => item.ids.rust
    case ExtensionRoot(item) => item.ids.rust
  }

  /** `SqlGraphIdentifier::file`; a builtin type has none. */
  function File(self: SqlGraphEntity): Option<string>
  {
    match self
    case Schema(item) => item.ids.file
    case CustomSql(item) => item.ids.file
    case Function(item) => item.ids.file
    case Type(item) => item.ids.file
    case BuiltinType(_) => None
    case Enum(item) => EnumEntity.File(item)
    case Ord(item) => OrdEntity.File(item)
    case Hash(item) => HashEntity.File(item)
    case Aggregate(item) => item.ids.file
    case Trigger(item) => item.ids.file
    case ExtensionRoot(item) => item.ids.file
  }

  /** `SqlGraphIdentifier::line`; a builtin type has none. */
  function Line(self: SqlGraphEntity): Option<U32>
  {
    match self
    case Schema(item) => item.ids.line
    case CustomSql(item) => item.ids.line
    case Function(item) => item.ids.line
    case Type(item) => item.ids.line
    case BuiltinType(_) => None
    case Enum(item) => EnumEntity.Line(item)
    case Ord(item) => OrdEntity.Line(item)
    case Hash(item) => HashEntity.Line(item)
    case Aggregate(item) => item.ids.line
    case Trigger(item) => item.ids.line
    case ExtensionRoot(item) => item.ids.line
  }

  /** `sql_anchor_comment`: a `-- {file}:{line}` line when both are known,
      then `-- {rust_identifier}`. */
  function AnchorComment(self: SqlGraphEntity): (r: string)
    ensures EndsWith(r, "-- " + RustIdentifier(self))
    ensures File(self).None? || Line(self).None? ==> r == "-- " + RustIdentifier(self)
    ensures File(self).Some? && Line(self).Some? ==>
              r == LocationComment(File(self).value, Line(self).value) + ("-- " + RustIdentifier(self))
  {
    var maybeFileAndLine :=
      if File(self).Some? && Line(self).Some? then LocationComment(File(self).value, Line(self).value) else "";
    var last := "-- " + RustIdentifier(self);
    assert (maybeFileAndLine + last)[|maybeFileAndLine|..] == last;
    maybeFileAndLine + last
  }

  /** The kinds whose descriptor and renderer are part of this model. */
  predicate IsDerived(self: SqlGraphEntity)
  {
    self.Enum? || self.Ord? || self.Hash?
  }

  function FullPathOf(self: SqlGraphEntity): string
    requires IsDerived(self)
  {
    match self
    case Enum(item) => item.fullPath
    case Ord(item) => item.fullPath
    case Hash(item) => item.fullPath
  }

  predicate SameKind(a: SqlGraphEntity, b: SqlGraphEntity)
  {
    (a.Enum? && b.Enum?) || (a.Ord? && b.Ord?) || (a.Hash? && b.Hash?)
  }

  /** A builtin type has no provenance, so its anchor is its name alone. */
  lemma BuiltinTypeAnchorComment(name: string)
    ensures AnchorComment(BuiltinType(name)) == "-- " + name
  {
  }

  /** Enum, ord and hash descriptors always know their file and line, so
      their anchor comment is the location line followed by the full path,
      and it is exactly the two comment lines their renderers open with. */
  lemma DerivedAnchorComment(self: SqlGraphEntity)
    requires IsDerived(self)
    ensures File(self).Some? && Line(self).Some?
    ensures AnchorComment(self) == LocationComment(File(self).value, Line(self).value) + ("-- " + FullPathOf(self))
    ensures ProvenanceHeader(File(self).value, Line(self).value, FullPathOf(self)) == "\n" + AnchorComment(self) + "\n"
  {
  }

  /** The dot identifiers of enum, ord and hash descriptors never collide
      across kinds, and within a kind they identify the full path. The Rust
      identifier alone does not: it is the full path for all three. */
  lemma DerivedDotIdentifiersDistinct(a: SqlGraphEntity, b: SqlGraphEntity)
    requires IsDerived(a) && IsDerived(b)
    ensures RustIdentifier(a) == FullPathOf(a)
    ensures DotIdentifier(a) == DotIdentifier(b) <==> SameKind(a, b) && FullPathOf(a) == FullPathOf(b)
  {
    var da, db := DotIdentifier(a), DotIdentifier(b);
    if SameKind(a, b) {
      var prefix := if a.Enum? then "enum " else if a.Ord? then "ord " else "hash ";
      assert da == prefix + FullPathOf(a) && db == prefix + FullPathOf(b);
      PrependPrefixInjective(prefix, FullPathOf(a), FullPathOf(b));
    } else {
      assert da[0] != db[0];
    }
  }

  // ---------------------------------------------------------------------
  // The graph and the rendering context

  /** A directed edge between two node handles. */
  datatype Edge = Edge(source: nat, target: nat)

  /** The entity graph: nodes addressed by their index, and directed edges. */
  datatype Graph = Graph(nodes: seq<SqlGraphEntity>, edges: seq<Edge>) {
    /** Every edge joins two existing nodes (the graph library keeps this). */
    predicate WellFormed()
    {
      forall i :: 0 <= i < |edges| ==> edges[i].source < |nodes| && edges[i].target < |nodes|
    }
  }

  /** Edge `e` joins `h` and `n`, in either direction. */
  predicate Adjacent(e: Edge, h: nat, n: nat)
  {
    (e.source == h && e.target == n) || (e.target == h && e.source == n)
  }

  /** `neighbors_undirected`: the handles joined to `h` by an edge in either
      direction. Only membership is modelled, not the library's visiting
      order, which `any` does not observe. */
  function NeighborsUndirected(edges: seq<Edge>, h: nat): (r: seq<nat>)
    ensures forall n :: n in r <==> exists i :: 0 <= i < |edges| && Adjacent(edges[i], h, n)
  {
    if |edges| == 0 then []
    else
      var e := edges[0];
      var rest := NeighborsUndirected(edges[1..], h);
      assert forall n :: n in rest <==> exists i :: 1 <= i < |edges| && Adjacent(edges[i], h, n) by {
        forall n | n in rest ensures exists i :: 1 <= i < |edges| && Adjacent(edges[i], h, n) {
          var j :| 0 <= j < |edges[1..]| && Adjacent(edges[1..][j], h, n);
          assert Adjacent(edges[j + 1], h, n);
        }
        forall n, i | 1 <= i < |edges| && Adjacent(edges[i], h, n) ensures n in rest {
          assert Adjacent(edges[1..][i - 1], h, n);
        }
      }
      (if e.source == h then [e.target] else []) + (if e.target == h then [e.source] else []) + rest
  }

  /** The function with full path `fullPath` is the input or the output
      function of type `t`: the path starts with that function's module
      path and ends with its name. */
  predicate IsConverterOf(fullPath: string, t: PostgresTypeEntity)
  {
    (StartsWith(fullPath, t.inFnModulePath) && EndsWith(fullPath, t.inFn))
    || (StartsWith(fullPath, t.outFnModulePath) && EndsWith(fullPath, t.outFn))
  }

  /** A node absorbs a function when it is a type the function converts
      for; nodes of any other kind never do. */
  predicate Absorbs(node: SqlGraphEntity, fullPath: string)
  {
    match node
    case Type(t) => IsConverterOf(fullPath, t)
    case _ => false
  }

  /** `neighbours.any(...)`: some listed node absorbs the function. */
  function AnyNeighbourAbsorbs(nodes: seq<SqlGraphEntity>, ns: seq<nat>, fullPath: string): (r: bool)
    requires forall k :: 0 <= k < |ns| ==> ns[k] < |nodes|
    ensures r <==> exists k :: 0 <= k < |ns| && Absorbs(nodes[ns[k]], fullPath)
  {
    if |ns| == 0 then false
    else
      Absorbs(nodes[ns[0]], fullPath) || (
        assert forall k :: 1 <= k < |ns| ==> ns[k] == ns[1..][k - 1];
        AnyNeighbourAbsorbs(nodes, ns[1..], fullPath))
  }

  /** `PgxSql`, the rendering context, as far as the dispatch reads it: the
      graph, the index from functions and from enums to their nodes, and the
      collaborators whose code is not part of this model — the schema
      prefix of a node, the per-entity override hook
      (`ToSqlConfigEntity::to_sql`), and the own `to_sql` of the kinds whose
      renderers are not modelled. */
  datatype PgxSql = PgxSql(
    graph: Graph,
    externs: map<PgExternEntity, nat>,
    enums: map<EnumEntity.PostgresEnumEntity, nat>,
    schemaPrefixFor: nat -> string,
    configToSql: (ToSqlConfigEntity, SqlGraphEntity) -> Option<Result<string>>,
    ownToSql: SqlGraphEntity -> Result<string>)

  /** The override configuration the dispatch consults for a node: every
      kind that carries one except `Schema`, `CustomSql` and
      `ExtensionRoot`, which go straight to their own renderer. */
  function ConsultedConfig(self: SqlGraphEntity): Option<ToSqlConfigEntity>
  {
    match self
    case Function(item) => Some(item.toSqlConfig)
    case Type(item) => Some(item.toSqlConfig)
    case Enum(item) => Some(item.toSqlConfig)
    case Ord(item) => Some(item.toSqlConfig)
    case Hash(item) => Some(item.toSqlConfig)
    case Aggregate(item) => Some(item.toSqlConfig)
    case Trigger(item) => Some(item.toSqlConfig)
    case _ => None
  }

  /** The override the hook supplies for a node, if its kind consults one. */
  function Override(self: SqlGraphEntity, ctx: PgxSql): Option<Result<string>>
  {
    match ConsultedConfig(self)
    case Some(config) => ctx.configToSql(config, self)
    case None => None
  }

  /** What the dispatch needs to avoid a panic: a function without an
      override must be in the function index (`externs.get(..).unwrap()`)
      of a well-formed graph, an enum without one in the enum index
      (`enums[self]`). */
  predicate Renderable(self: SqlGraphEntity, ctx: PgxSql)
  {
    match self
    case Function(item) =>
      ctx.configToSql(item.toSqlConfig, self).Some? || (item in ctx.externs && ctx.graph.WellFormed())
    case Enum(item) =>
      ctx.configToSql(item.toSqlConfig, self).Some? || item in ctx.enums
    case _ => true
  }

  /** In a well-formed graph every neighbour is a node of the graph. */
  lemma NeighboursInRange(g: Graph, h: nat)
    requires g.WellFormed()
    ensures forall k :: 0 <= k < |NeighborsUndirected(g.edges, h)| ==> NeighborsUndirected(g.edges, h)[k] < |g.nodes|
  {
    var ns := NeighborsUndirected(g.edges, h);
    forall k | 0 <= k < |ns| ensures ns[k] < |g.nodes| {
      assert ns[k] in ns;
      var i :| 0 <= i < |g.edges| && Adjacent(g.edges[i], h, ns[k]);
    }
  }

  /** The function is the input or output function of a type it is joined
      to in the graph. */
  predicate FunctionAbsorbed(item: PgExternEntity, ctx: PgxSql)
    requires item in ctx.externs && ctx.graph.WellFormed()
  {
    NeighboursInRange(ctx.graph, ctx.externs[item]);
    var ns := NeighborsUndirected(ctx.graph.edges, ctx.externs[item]);
    AnyNeighbourAbsorbs(ctx.graph.nodes, ns, item.fullPath)
  }

  /** `<SqlGraphEntity as ToSql>::to_sql`. An override, where the kind
      consults one, wins; a builtin type renders nothing; the derived kinds
      without an override never fail. */
  function ToSql(self: SqlGraphEntity, ctx: PgxSql): (r: Result<string>)
    requires Renderable(self, ctx)
    ensures Override(self, ctx).Some? ==> r == Override(self, ctx).value
    ensures self.BuiltinType? ==> r == Ok("")
    ensures IsDerived(self) && Override(self, ctx).None? ==> r.Ok?
  {
    match self
    case Schema(item) =>
      if item.name != "public" && item.name != "pg_catalog" then ctx.ownToSql(self) else Ok("")
    case CustomSql(_) => ctx.ownToSql(self)
    case Function(item) =>
      (match ctx.configToSql(item.toSqlConfig, self)
        case Some(result) => result
        case None =>
          if FunctionAbsorbed(item, ctx) then Ok("") else ctx.ownToSql(self))
    case Type(item) =>
      (match ctx.configToSql(item.toSqlConfig, self)
        case Some(result) => result
        case None => ctx.ownToSql(self))
    case BuiltinType(_) => Ok("")
    case Enum(item) =>
      (match ctx.configToSql(item.toSqlConfig, self)
        case Some(result) => result
        case None => EnumEntity.ToSql(item, ctx.enums, ctx.schemaPrefixFor))
    case Ord(item) =>
      (match ctx.configToSql(item.toSqlConfig, self)
        case Some(result) => result
        case None => OrdEntity.ToSql(item))
    case Hash(item) =>
      (match ctx.configToSql(item.toSqlConfig, self)
        case Some(result) => result
        case None => HashEntity.ToSql(item))
    case Aggregate(item) =>
      (match ctx.configToSql(item.toSqlConfig, self)
        case Some(result) => result
        case None => ctx.ownToSql(self))
    case Trigger(item) =>
      (match ctx.configToSql(item.toSqlConfig, self)
        case Some(result) => result
        case None => ctx.ownToSql(self))
    case ExtensionRoot(_) => ctx.ownToSql(self)
  }

  // ---------------------------------------------------------------------
  // Properties of the dispatch

  /** The `public` and `pg_catalog` schemas render nothing; every other
      schema renders exactly what its own renderer gives. */
  lemma SchemaDefaultElided(s: SchemaEntity, ctx: PgxSql)
    ensures s.name == "public" || s.name == "pg_catalog" ==> ToSql(Schema(s), ctx) == Ok("")
    ensures s.name != "public" && s.name != "pg_catalog" ==> ToSql(Schema(s), ctx) == ctx.ownToSql(Schema(s))
  {
  }

  /** For `Schema`, `CustomSql`, `ExtensionRoot` and `BuiltinType` the
      override hook is never consulted: replacing it changes nothing. */
  lemma OverrideNotConsulted(self: SqlGraphEntity, ctx: PgxSql, hook: (ToSqlConfigEntity, SqlGraphEntity) -> Option<Result<string>>)
    requires ConsultedConfig(self).None?
    ensures Renderable(self, ctx) && Renderable(self, ctx.(configToSql := hook))
    ensures ToSql(self, ctx) == ToSql(self, ctx.(configToSql := hook))
  {
  }

  /** Without an override, the kinds other than `Schema`, `Function` and
      `BuiltinType` render with their default renderer: the modelled one for
      enums (with the context's schema prefix), btree and hash classes, and
      the kind's own for the rest. */
  lemma DefaultRendering(self: SqlGraphEntity, ctx: PgxSql)
    requires Renderable(self, ctx) && Override(self, ctx).None?
    requires !self.Schema? && !self.Function? && !self.BuiltinType?
    ensures self.Enum? ==> ToSql(self, ctx) == EnumEntity.ToSql(self.pgEnum, ctx.enums, ctx.schemaPrefixFor)
    ensures self.Ord? ==> ToSql(self, ctx) == OrdEntity.ToSql(self.ord)
    ensures self.Hash? ==> ToSql(self, ctx) == HashEntity.ToSql(self.hash)
    ensures !IsDerived(self) ==> ToSql(self, ctx) == ctx.ownToSql(self)
  {
  }

  /** The enum, btree and hash renderers open with a blank line and then
      exactly the entity's `sql_anchor_comment` on its own line. */
  lemma DerivedRenderingOpensWithAnchor(self: SqlGraphEntity, ctx: PgxSql)
    requires IsDerived(self) && Renderable(self, ctx) && Override(self, ctx).None?
    ensures ToSql(self, ctx).Ok?
    ensures StartsWith(ToSql(self, ctx).value, "\n" + AnchorComment(self) + "\n")
  {
    DerivedAnchorComment(self);
  }

  /** The graph declares that the function is the input or output function
      of a type it is joined to by an edge, in either direction. */
  ghost predicate ConverterNeighbour(g: Graph, h: nat, fullPath: string)
    requires g.WellFormed()
  {
    exists i :: 0 <= i < |g.edges| &&
      ((g.edges[i].source == h && Absorbs(g.nodes[g.edges[i].target], fullPath))
       || (g.edges[i].target == h && Absorbs(g.nodes[g.edges[i].source], fullPath)))
  }

  /** The neighbour search agrees with the declarative reading. */
  lemma FunctionAbsorbedIff(item: PgExternEntity, ctx: PgxSql)
    requires item in ctx.externs && ctx.graph.WellFormed()
    ensures FunctionAbsorbed(item, ctx) <==> ConverterNeighbour(ctx.graph, ctx.externs[item], item.fullPath)
  {
    var g, h, fp := ctx.graph, ctx.externs[item], item.fullPath;
    var ns := NeighborsUndirected(g.edges, h);
    NeighboursInRange(g, h);
    if FunctionAbsorbed(item, ctx) {
      var k :| 0 <= k < |ns| && Absorbs(g.nodes[ns[k]], fp);
      assert ns[k] in ns;
      var i :| 0 <= i < |g.edges| && Adjacent(g.edges[i], h, ns[k]);
      assert (g.edges[i].source == h && Absorbs(g.nodes[g.edges[i].target], fp))
          || (g.edges[i].target == h && Absorbs(g.nodes[g.edges[i].source], fp));
    }
    if ConverterNeighbour(g, h, fp) {
      var i :| 0 <= i < |g.edges| &&
        ((g.edges[i].source == h && Absorbs(g.nodes[g.edges[i].target], fp))
         || (g.edges[i].target == h && Absorbs(g.nodes[g.edges[i].source], fp)));
      var n := if g.edges[i].source == h && Absorbs(g.nodes[g.edges[i].target], fp)
               then g.edges[i].target else g.edges[i].source;
      assert Adjacent(g.edges[i], h, n);
      assert n in ns;
      var k :| 0 <= k < |ns| && ns[k] == n;
      assert Absorbs(g.nodes[ns[k]], fp);
    }
  }

  /** Without an override, a function renders nothing exactly when an edge
      joins it to a type whose input or output function it is, and
      otherwise renders with its own renderer. */
  lemma FunctionAbsorption(item: PgExternEntity, ctx: PgxSql)
    requires item in ctx.externs && ctx.graph.WellFormed()
    requires ctx.configToSql(item.toSqlConfig, Function(item)).None?
    ensures ToSql(Function(item), ctx)
         == if ConverterNeighbour(ctx.graph, ctx.externs[item], item.fullPath)
            then Ok("") else ctx.ownToSql(Function(item))
  {
    FunctionAbsorbedIff(item, ctx);
  }

  /** A function none of whose neighbours is a type it converts for — in
      particular one with no `Type` neighbour at all — is rendered by its
      own renderer. */
  lemma NonConverterNeighboursNeverAbsorb(item: PgExternEntity, ctx: PgxSql)
    requires item in ctx.externs && ctx.graph.WellFormed()
    requires ctx.configToSql(item.toSqlConfig, Function(item)).None?
    requires forall i :: 0 <= i < |ctx.graph.edges| && ctx.graph.edges[i].source == ctx.externs[item]
               ==> !Absorbs(ctx.graph.nodes[ctx.graph.edges[i].target], item.fullPath)
    requires forall i :: 0 <= i < |ctx.graph.edges| && ctx.graph.edges[i].target == ctx.externs[item]
               ==> !Absorbs(ctx.graph.nodes[ctx.graph.edges[i].source], item.fullPath)
    ensures ToSql(Function(item), ctx) == ctx.ownToSql(Function(item))
  {
    FunctionAbsorption(item, ctx);
  }

  /** The graph with every edge turned round. */
  function Reversed(g: Graph): (r: Graph)
    ensures r.nodes == g.nodes && |r.edges| == |g.edges|
    ensures forall i :: 0 <= i < |g.edges| ==> r.edges[i] == Edge(g.edges[i].target, g.edges[i].source)
  {
    Graph(g.nodes, seq(|g.edges|, i requires 0 <= i < |g.edges| => Edge(g.edges[i].target, g.edges[i].source)))
  }

  /** Absorption looks at undirected neighbours, so the direction of the
      edges does not change how a function renders. */
  lemma EdgeDirectionIrrelevant(item: PgExternEntity, ctx: PgxSql)
    requires item in ctx.externs && ctx.graph.WellFormed()
    ensures Renderable(Function(item), ctx.(graph := Reversed(ctx.graph)))
    ensures ToSql(Function(item), ctx) == ToSql(Function(item), ctx.(graph := Reversed(ctx.graph)))
  {
    var rctx := ctx.(graph := Reversed(ctx.graph));
    if ctx.configToSql(item.toSqlConfig, Function(item)).None? {
      FunctionAbsorption(item, ctx);
      FunctionAbsorption(item, rctx);
      var g, rg, h, fp := ctx.graph, rctx.graph, ctx.externs[item], item.fullPath;
      if ConverterNeighbour(g, h, fp) {
        var i :| 0 <= i < |g.edges| &&
          ((g.edges[i].source == h && Absorbs(g.nodes[g.edges[i].target], fp))
           || (g.edges[i].target == h && Absorbs(g.nodes[g.edges[i].source], fp)));
        assert rg.edges[i] == Edge(g.edges[i].target, g.edges[i].source);
      }
      if ConverterNeighbour(rg, h, fp) {
        var i :| 0 <= i < |rg.edges| &&
          ((rg.edges[i].source == h && Absorbs(rg.nodes[rg.edges[i].target], fp))
           || (rg.edges[i].target == h && Absorbs(rg.nodes[rg.edges[i].source], fp)));
        assert rg.edges[i] == Edge(g.edges[i].target, g.edges[i].source);
      }
    }
  }

  /** A context over the given graph and function index that consults no
      override and gives every own renderer the same text. */
  function PlainContext(g: Graph, externs: map<PgExternEntity, nat>): PgxSql
  {
    PgxSql(g, externs, map[], (h: nat) => "",
           (c: ToSqlConfigEntity, e: SqlGraphEntity) => None,
           (e: SqlGraphEntity) => Ok("CREATE FUNCTION ..."))
  }

  /** A type `Json` whose input function is `json_in`, joined to the
      `json_in` function: the function is not rendered on its own. */
  lemma JsonInIsAbsorbed()
    ensures var ids := Identifiers("", "", None, None);
            var json := PostgresTypeEntity("json_in", "ext::json", "json_out", "ext::json", ToSqlConfigEntity(0), ids);
            var jsonIn := PgExternEntity("ext::json::json_in", ToSqlConfigEntity(1), ids);
            var g := Graph([Type(json), Function(jsonIn)], [Edge(1, 0)]);
            ToSql(Function(jsonIn), PlainContext(g, map[jsonIn := 1])) == Ok("")
  {
    var ids := Identifiers("", "", None, None);
    var json := PostgresTypeEntity("json_in", "ext::json", "json_out", "ext::json", ToSqlConfigEntity(0), ids);
    var jsonIn := PgExternEntity("ext::json::json_in", ToSqlConfigEntity(1), ids);
    var g := Graph([Type(json), Function(jsonIn)], [Edge(1, 0)]);
    var fp := jsonIn.fullPath;
    assert fp[..|"ext::json"|] == "ext::json";
    assert fp[|fp| - |"json_in"|..] == "json_in";
    assert Absorbs(g.nodes[0], fp);
    FunctionAbsorption(jsonIn, PlainContext(g, map[jsonIn := 1]));
    assert Adjacent(g.edges[0], 1, 0);
  }

  /** The match is by prefix and suffix only: a function in the same module
      whose name merely ends with the input function's name, and that is
      joined to the type (say, it takes the type as an argument), is
      absorbed as well. */
  lemma SuffixMatchAbsorbsLookalike()
    ensures var ids := Identifiers("", "", None, None);
            var foo := PostgresTypeEntity("foo_in", "ext", "foo_out", "ext", ToSqlConfigEntity(0), ids);
            var lookalike := PgExternEntity("ext::not_foo_in", ToSqlConfigEntity(1), ids);
            var g := Graph([Type(foo), Function(lookalike)], [Edge(1, 0)]);
            ToSql(Function(lookalike), PlainContext(g, map[lookalike := 1])) == Ok("")
  {
    var ids := Identifiers("", "", None, None);
    var foo := PostgresTypeEntity("foo_in", "ext", "foo_out", "ext", ToSqlConfigEntity(0), ids);
    var lookalike := PgExternEntity("ext::not_foo_in", ToSqlConfigEntity(1), ids);
    var g := Graph([Type(foo), Function(lookalike)], [Edge(1, 0)]);
    var fp := lookalike.fullPath;
    assert fp[..|"ext"|] == "ext";
    assert fp[|fp| - |"foo_in"|..] == "foo_in";
    assert Absorbs(g.nodes[0], fp);
    FunctionAbsorption(lookalike, PlainContext(g, map[lookalike := 1]));
    assert Adjacent(g.edges[0], 1, 0);
  }

  // ---------------------------------------------------------------------
  // Identifier length

  /** PostgreSQL's identifier limit as the macros check it (roughly
      `NAMEDATALEN`). */
  const PostgresIdentifierMaxLen: nat := 64

  /** `ident_is_acceptable_to_postgres`: an identifier whose UTF-8 byte
      length reaches 64 is refused, with the identifier and its length. */
  function IdentIsAcceptableToPostgres(ident: string): (r: Outcome)
    ensures r.Fail? <==> Utf8Len(ident) >= PostgresIdentifierMaxLen
    ensures r.Fail? ==> r.error == IdentifierTooLong(ident, Utf8Len(ident))
  {
    var len := Utf8Len(ident);
    if len >= PostgresIdentifierMaxLen then Fail(IdentifierTooLong(ident, len)) else Pass
  }

  /** Any identifier of 64 characters or more is refused, and an ASCII
      identifier is accepted exactly when it has fewer than 64 characters. */
  lemma IdentifierLengthLimit(ident: string)
    ensures |ident| >= 64 ==> IdentIsAcceptableToPostgres(ident).Fail?
    ensures IsAscii(ident) ==> (IdentIsAcceptableToPostgres(ident).Pass? <==> |ident| < 64)
  {
  }

  /** The btree and hash support functions derived for one type never share
      a name. */
  lemma SupportFunctionNamesDistinct(o: OrdEntity.PostgresOrdEntity, h: HashEntity.PostgresHashEntity)
    requires o.name == h.name
    ensures HashEntity.FnName(h) !in OrdEntity.HelperNames(o)
  {
  }
}
