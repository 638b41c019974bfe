/** `#[derive(PostgresEnum)]` on the macro side: the guarded construction of
    the parsed item, the rejection of non-enum input, the generic-parameter
    remapping used for inventory submission, and the name of the generated
    entity function. */
module PostgresEnum {
  import opened Common
  import opened Strings
  import SqlGraph

  /** One generic parameter of the derived type, as far as the remapping
      looks at it. */
  datatype GenericParam =
    | TypeParam(ident: string, bounds: seq<string>)
    | LifetimeParam(lifetime: string, bounds: seq<string>)
    | ConstParam(ident: string, ty: string)

  /** `syn::Generics`: the parameter list and the where clause. */
  datatype Generics = Generics(params: seq<GenericParam>, whereClause: seq<string>)

  /** One enum variant, as its source text. */
  datatype Variant = Variant(text: string)

  /** An outer attribute on the derived item. */
  datatype Attribute = Attribute(text: string)

  /** The body of a `syn::DeriveInput`. */
  datatype Data = DataEnum(variants: seq<Variant>) | DataStruct | DataUnion

  /** `syn::DeriveInput`. */
  datatype DeriveInput = DeriveInput(attrs: seq<Attribute>, ident: string, generics: Generics, data: Data)

  /** `syn::ItemEnum`. */
  datatype ItemEnum = ItemEnum(attrs: seq<Attribute>, ident: string, generics: Generics, variants: seq<Variant>)

  /** The macro-side `ToSqlConfig`, kept opaque. */
  datatype ToSqlConfig = ToSqlConfig(token: nat)

  /** The parts of `ToSqlConfig` whose code is not part of this model:
      reading it from attributes, its default, and whether it replaces the
      default SQL. */
  datatype ConfigOps = ConfigOps(
    fromAttributes: seq<Attribute> -> Result<Option<ToSqlConfig>>,
    defaultConfig: ToSqlConfig,
    overridesDefault: ToSqlConfig -> bool)

  /** `PostgresEnum`: the parsed derive. */
  datatype PostgresEnum = PostgresEnum(name: string, generics: Generics, variants: seq<Variant>, toSqlConfig: ToSqlConfig)

  /** `PostgresEnum::new`: unless the configuration replaces the default
      SQL, the type name must be acceptable to PostgreSQL; the parts are
      then stored as given. */
  function New(name: string, generics: Generics, variants: seq<Variant>, config: ToSqlConfig, ops: ConfigOps): (r: Result<PostgresEnum>)
    ensures r.Err? <==> !ops.overridesDefault(config) && Utf8Len(name) >= 64
    ensures r.Err? ==> r.error == IdentifierTooLong(name, Utf8Len(name))
    ensures r.Ok? ==> r.value == PostgresEnum(name, generics, variants, config)
  {
    if !ops.overridesDefault(config) && SqlGraph.IdentIsAcceptableToPostgres(name).Fail? then
      Err(SqlGraph.IdentIsAcceptableToPostgres(name).error)
    else
      Ok(PostgresEnum(name, generics, variants, config))
  }

  /** An overriding configuration accepts any name, however long. */
  lemma OverrideSkipsLengthCheck(name: string, generics: Generics, variants: seq<Variant>, config: ToSqlConfig, ops: ConfigOps)
    requires ops.overridesDefault(config)
    ensures New(name, generics, variants, config, ops) == Ok(PostgresEnum(name, generics, variants, config))
  {
  }

  /** `ToSqlConfig::from_attributes(..)?.unwrap_or_default()`. */
  function ResolveConfig(attrs: seq<Attribute>, ops: ConfigOps): (r: Result<ToSqlConfig>)
    ensures r.Err? <==> ops.fromAttributes(attrs).Err?
    ensures r.Err? ==> r.error == ops.fromAttributes(attrs).error
    ensures r.Ok? && ops.fromAttributes(attrs).value.None? ==> r.value == ops.defaultConfig
    ensures r.Ok? && ops.fromAttributes(attrs).value.Some? ==> r.value == ops.fromAttributes(attrs).value.value
  {
    match ops.fromAttributes(attrs)
    case Err(e) => Err(e)
    case Ok(None) => Ok(ops.defaultConfig)
    case Ok(Some(config)) => Ok(config)
  }

  /** `PostgresEnum::from_derive_input`: a configuration error comes first,
      then anything but an enum is refused with "expected enum", and an
      enum goes through `New`. */
  function FromDeriveInput(input: DeriveInput, ops: ConfigOps): (r: Result<PostgresEnum>)
    ensures ops.fromAttributes(input.attrs).Err? ==> r == Err(ops.fromAttributes(input.attrs).error)
    ensures ops.fromAttributes(input.attrs).Ok? && !input.data.DataEnum? ==> r == Err(ExpectedEnum(input.ident))
    ensures r.Ok? ==> input.data.DataEnum?
                      && r.value.name == input.ident
                      && r.value.generics == input.generics
                      && r.value.variants == input.data.variants
    ensures ops.fromAttributes(input.attrs).Ok? && input.data.DataEnum? ==>
              (r.Err? <==> !ops.overridesDefault(ResolveConfig(input.attrs, ops).value) && Utf8Len(input.ident) >= 64)
    ensures ops.fromAttributes(input.attrs).Ok? && input.data.DataEnum? ==>
              r == New(input.ident, input.generics, input.data.variants, ResolveConfig(input.attrs, ops).value, ops)
  {
    match ResolveConfig(input.attrs, ops)
    case Err(e) => Err(e)
    case Ok(config) =>
      match input.data
      case DataEnum(variants) => New(input.ident, input.generics, variants, config, ops)
      case _ => Err(ExpectedEnum(input.ident))
  }

  /** `Parse for CodeEnrichment<PostgresEnum>`: an already-parsed enum item
      goes through the same configuration and `New`. */
  function Parse(item: ItemEnum, ops: ConfigOps): (r: Result<PostgresEnum>)
    ensures ops.fromAttributes(item.attrs).Err? ==> r == Err(ops.fromAttributes(item.attrs).error)
    ensures r.Ok? ==> r.value.name == item.ident && r.value.variants == item.variants
  {
    match ResolveConfig(item.attrs, ops)
    case Err(e) => Err(e)
    case Ok(config) => New(item.ident, item.generics, item.variants, config, ops)
  }

  /** Parsing an enum item and deriving from the same enum agree. */
  lemma ParseAgreesWithDerive(item: ItemEnum, ops: ConfigOps)
    ensures Parse(item, ops) == FromDeriveInput(DeriveInput(item.attrs, item.ident, item.generics, DataEnum(item.variants)), ops)
  {
  }

  // ---------------------------------------------------------------------
  // Generic-parameter remapping

  /** One parameter of the "static" list: a lifetime is renamed `static`,
      keeping its bounds; type and const parameters pass through. */
  function StaticParam(p: GenericParam): GenericParam
  {
    match p
    case LifetimeParam(_, bounds) => LifetimeParam("static", bounds)
    case _ => p
  }

  /** The "static" parameter list: the input, in order, with every
      lifetime renamed `static`. */
  function StaticParams(ps: seq<GenericParam>): (r: seq<GenericParam>)
    ensures |r| == |ps|
    ensures forall i :: 0 <= i < |ps| ==> (r[i].LifetimeParam? <==> ps[i].LifetimeParam?)
    ensures forall i :: 0 <= i < |ps| && ps[i].LifetimeParam? ==> r[i] == LifetimeParam("static", ps[i].bounds)
    ensures forall i :: 0 <= i < |ps| && !ps[i].LifetimeParam? ==> r[i] == ps[i]
  {
    if |ps| == 0 then [] else [StaticParam(ps[0])] + StaticParams(ps[1..])
  }

  /** The "staticless" filter: the type and const parameters, in order. */
  function StaticlessParams(ps: seq<GenericParam>): (r: seq<GenericParam>)
    ensures |r| <= |ps|
    ensures forall p :: p in r <==> p in ps && !p.LifetimeParam?
  {
    if |ps| == 0 then []
    else (if ps[0].LifetimeParam? then [] else [ps[0]]) + StaticlessParams(ps[1..])
  }

  /** The staticless filter keeps order: filtering a concatenation is
      concatenating the filtered parts. */
  lemma {:induction false} StaticlessDistributes(a: seq<GenericParam>, b: seq<GenericParam>)
    ensures StaticlessParams(a + b) == StaticlessParams(a) + StaticlessParams(b)
    decreases |a|
  {
    if |a| > 0 {
      assert (a + b)[1..] == a[1..] + b;
      StaticlessDistributes(a[1..], b);
    } else {
      assert a + b == b;
    }
  }

  /** Number of lifetime parameters. */
  function LifetimeCount(ps: seq<GenericParam>): (n: nat)
    ensures n <= |ps|
  {
    if |ps| == 0 then 0 else (if ps[0].LifetimeParam? then 1 else 0) + LifetimeCount(ps[1..])
  }

  /** Exactly the lifetimes are dropped. */
  lemma {:induction false} StaticlessLength(ps: seq<GenericParam>)
    ensures |StaticlessParams(ps)| == |ps| - LifetimeCount(ps)
    decreases |ps|
  {
    if |ps| > 0 {
      StaticlessLength(ps[1..]);
    }
  }

  /** Computing the staticless list from the static one, as the macro does,
      gives the same list as filtering the original parameters. */
  lemma {:induction false} StaticlessOfStatic(ps: seq<GenericParam>)
    ensures StaticlessParams(StaticParams(ps)) == StaticlessParams(ps)
    decreases |ps|
  {
    if |ps| > 0 {
      var s := StaticParams(ps);
      assert s[1..] == StaticParams(ps[1..]);
      StaticlessOfStatic(ps[1..]);
    }
  }

  /** Remapping to `static` a second time changes nothing. */
  lemma StaticIdempotent(ps: seq<GenericParam>)
    ensures StaticParams(StaticParams(ps)) == StaticParams(ps)
  {
  }

  /** Without lifetimes both lists are the input itself. */
  lemma {:induction false} NoLifetimesUnchanged(ps: seq<GenericParam>)
    requires forall i :: 0 <= i < |ps| ==> !ps[i].LifetimeParam?
    ensures StaticParams(ps) == ps
    ensures StaticlessParams(ps) == ps
    decreases |ps|
  {
    if |ps| > 0 {
      NoLifetimesUnchanged(ps[1..]);
    }
  }

  /** The generics with the static parameter list; the where clause is
      kept. */
  function StaticGenerics(g: Generics): (r: Generics)
    ensures r.whereClause == g.whereClause
    ensures r.params == StaticParams(g.params)
  {
    g.(params := StaticParams(g.params))
  }

  /** The generics with the staticless parameter list, computed from the
      static list; the where clause is the original one. */
  function StaticlessGenerics(g: Generics): (r: Generics)
    ensures r.whereClause == g.whereClause
    ensures r.params == StaticlessParams(g.params)
  {
    StaticlessOfStatic(g.params);
    g.(params := StaticlessParams(StaticParams(g.params)))
  }

  /** The entity function the derive generates. */
  function EntityFnName(e: PostgresEnum): string
  {
    "__pgx_internals_enum_" + e.name
  }

  /** Distinct type names give distinct entity functions, and every one
      carries the reserved prefix. */
  lemma EntityFnNameInjective(a: PostgresEnum, b: PostgresEnum)
    ensures StartsWith(EntityFnName(a), "__pgx_internals_enum_")
    ensures EntityFnName(a) == EntityFnName(b) <==> a.name == b.name
  {
    PrependPrefixInjective("__pgx_internals_enum_", a.name, b.name);
    assert EntityFnName(a)[..|"__pgx_internals_enum_"|] == "__pgx_internals_enum_";
  }
}
