# pgx SQL entity graph: SQL emission core

This project models the part of `pgx-sql-entity-graph` that turns the entity
graph of a pgx extension into SQL. It covers four things.

- **The dispatch.** `SqlGraphEntity` is the closed union of entity kinds
  (extension root, schema, custom SQL, function, type, builtin type, enum,
  ord, hash, aggregate, trigger). Its `to_sql` applies a fixed per-kind rule:
  - schemas `public` and `pg_catalog` render nothing;
  - a builtin type renders nothing;
  - most kinds first ask their `to_sql_config` for an override;
  - a function that is the input or output function of a neighbouring type
    is *absorbed* and renders nothing.
- **Identifiers.** The same file gives each entity its anchor comment and
  its identifiers. It also holds the identifier-length check, which refuses
  identifiers PostgreSQL would truncate.
- **Three default renderers.** The enum descriptor renders
  `CREATE TYPE … AS ENUM`. The ord descriptor renders a btree operator family
  and class wired to `<name>_cmp`. The hash descriptor renders a hash
  operator family and class wired to `<name>_hash`. Each descriptor also has
  its derived names, identifiers, hash and ordering.
- **The enum derive's macro-side checks.** These are the guarded
  constructor, the "expected enum" rejection, the remapping of generic
  lifetimes to `'static` for inventory submission, and the name of the
  generated entity function.

Everything in the core is pure, so the model is datatypes, functions and
lemmas. Modules:

- `Common`: `Option`, `Result`, the errors, `u32`, and the opaque
  `ToSqlConfigEntity`.
- `Strings`: ASCII lower-casing, UTF-8 byte length, decimal display, `join`,
  `starts_with`/`ends_with`, and the provenance header the renderers share.
- `Ordering`: `std::cmp::Ordering`, string order, `then_with`, and the
  location order.
- `EnumEntity`, `OrdEntity`, `HashEntity`: the three descriptors.
- `SqlGraph`: the union, the graph, the rendering context, the dispatch and
  the identifier check.
- `PostgresEnum`: the derive.

The graph is a sequence of nodes and a list of directed edges. The
collaborators whose code is not part of the model are function-valued
fields of the rendering context `SqlGraph.PgxSql`:
- the other kinds' own renderers;
- the override hook `ToSqlConfigEntity::to_sql`;
- `schema_prefix_for`.

## Model

| member | source | states |
|---|---|---|
| SqlGraph.ToSql | pgx-sql-entity-graph/src/lib.rs:192-252 | For every kind that consults its configuration, an override answer is the result. A builtin type renders `Ok("")`. An enum, ord or hash node without an override always renders `Ok`. |
| SqlGraph.SchemaDefaultElided | pgx-sql-entity-graph/src/lib.rs:196-202 | `public` and `pg_catalog` render the empty string. Any other schema renders exactly its own renderer's result. |
| SqlGraph.OverrideNotConsulted | pgx-sql-entity-graph/src/lib.rs:196-203 | For schema, custom SQL, extension root and builtin type, replacing the override hook changes neither renderability nor the result. |
| SqlGraph.DefaultRendering | pgx-sql-entity-graph/src/lib.rs:230-249 | Without an override, enum/ord/hash use their modelled renderers (the enum with the context's schema prefix). Type, aggregate, trigger, custom SQL and extension root use their own renderer. |
| SqlGraph.FunctionAbsorption | pgx-sql-entity-graph/src/lib.rs:204-228 | Without an override, a function renders `""` iff some edge in either direction joins it to a `Type` whose input or output function it is (path starts with the module path and ends with the name). Otherwise it renders with its own renderer. |
| SqlGraph.FunctionAbsorbedIff | pgx-sql-entity-graph/src/lib.rs:208-225 | The `.any` over undirected neighbours is equivalent to the declarative "some incident edge reaches an absorbing type". |
| SqlGraph.NonConverterNeighboursNeverAbsorb | pgx-sql-entity-graph/src/lib.rs:208-222 | If no neighbour is a type the function converts for, the function is rendered by its own renderer. Non-`Type` nodes never absorb. |
| SqlGraph.EdgeDirectionIrrelevant | pgx-sql-entity-graph/src/lib.rs:208 | Turning every edge round changes neither renderability nor the rendering of any function. |
| SqlGraph.NeighborsUndirected | pgx-sql-entity-graph/src/lib.rs:208 | A handle is a neighbour iff some edge joins it to the node, in either direction. |
| SqlGraph.NeighboursInRange | pgx-sql-entity-graph/src/lib.rs:208-209 | In a well-formed graph every neighbour handle indexes a node, so `graph[neighbor]` is defined. |
| SqlGraph.AnyNeighbourAbsorbs | pgx-sql-entity-graph/src/lib.rs:208-225 | True iff some listed neighbour absorbs the function's full path. |
| SqlGraph.JsonInIsAbsorbed | pgx-sql-entity-graph/src/lib.rs:211-220 | A concrete graph: a type with input function `ext::json::json_in`, joined to that function, suppresses the function's SQL. |
| SqlGraph.SuffixMatchAbsorbsLookalike | pgx-sql-entity-graph/src/lib.rs:212 | A concrete graph: `ext::not_foo_in` joined to a type whose input function is `foo_in` in `ext` is absorbed too, because the match is by prefix and suffix only. |
| SqlGraph.AnchorComment | pgx-sql-entity-graph/src/lib.rs:109-123 | For every kind: when file and line are both known, the comment is exactly `-- {file}:{line}\n-- {rust_identifier}`. When either is unknown, it is exactly `-- {rust_identifier}`. |
| SqlGraph.BuiltinTypeAnchorComment | pgx-sql-entity-graph/src/lib.rs:143-187 | A builtin type has no file or line, so its anchor is `-- ` followed by its name. |
| SqlGraph.DerivedAnchorComment | pgx-sql-entity-graph/src/lib.rs:109-123 | Enum/ord/hash nodes always have file and line. Their anchor is the location line then `-- {full_path}`, and it is exactly the header their renderers open with. |
| SqlGraph.DerivedRenderingOpensWithAnchor | pgx-sql-entity-graph/src/lib.rs:234-242 | Without an override, an enum/ord/hash node renders `Ok` text starting with a newline, its anchor comment and a newline. |
| SqlGraph.DerivedDotIdentifiersDistinct | pgx-sql-entity-graph/src/lib.rs:127-156 | Enum/ord/hash dot identifiers are equal iff the kinds agree and the full paths agree. Their Rust identifier is the full path. |
| SqlGraph.IdentIsAcceptableToPostgres | pgx-sql-entity-graph/src/lib.rs:263-282 | Fails iff the UTF-8 byte length is at least 64, with the identifier and its byte length. Passes otherwise. |
| SqlGraph.IdentifierLengthLimit | pgx-sql-entity-graph/src/lib.rs:267-270 | Any identifier of 64 or more characters is refused. An ASCII identifier passes iff it has fewer than 64 characters. |
| SqlGraph.SupportFunctionNamesDistinct | pgx-sql-entity-graph/src/postgres_hash/entity.rs:36-38 | For one type name, the hash support function's name differs from all six btree helper names. |
| EnumEntity.ToSql | pgx-sql-entity-graph/src/postgres_enum/entity.rs:86-113 | Always `Ok`. The text is exactly the provenance header (`\n-- file:line\n-- full_path\n`) followed by `CREATE TYPE {prefix}{name} AS ENUM (\n{labels});`, with the prefix the context gives this enum's own node. |
| EnumEntity.VariantsBlockIsLines | pgx-sql-entity-graph/src/postgres_enum/entity.rs:103-109 | The label list is one `\t'label'` line per variant in declared order, every line but the last ending in a comma. An empty enum gives a single `\n`. |
| EnumEntity.VariantsBlockBounds | pgx-sql-entity-graph/src/postgres_enum/entity.rs:103-109 | The label list always ends in a newline. For a non-empty enum it starts with the first declared label. |
| EnumEntity.QuotedVariants | pgx-sql-entity-graph/src/postgres_enum/entity.rs:104-106 | One quoted, tab-indented label per variant, in order. |
| EnumEntity.AnyMappingHasId | pgx-sql-entity-graph/src/postgres_enum/entity.rs:59 | The `.any` search over the mapping set (test one mapping, then search the rest) is true iff some mapping carries the candidate type id. |
| EnumEntity.IdMatches | pgx-sql-entity-graph/src/postgres_enum/entity.rs:57-61 | True iff some mapping carries the candidate type id. |
| EnumEntity.HashDependsOnlyOnFullPath | pgx-sql-entity-graph/src/postgres_enum/entity.rs:39-43 | Descriptors with equal full paths hash alike. |
| EnumEntity.Cmp | pgx-sql-entity-graph/src/postgres_enum/entity.rs:45-49 | The result is the comparison of the files alone. It is `Equal` iff the files are equal. |
| EnumEntity.PartialCmp | pgx-sql-entity-graph/src/postgres_enum/entity.rs:51-55 | Always `Some`, and agrees with `Cmp`. |
| EnumEntity.CmpAntisymmetric | pgx-sql-entity-graph/src/postgres_enum/entity.rs:45-49 | Swapping the arguments reverses the answer. |
| EnumEntity.CmpIgnoresLine | pgx-sql-entity-graph/src/postgres_enum/entity.rs:47 | Any two enums in one file at different lines compare `Equal` both ways, although they are different values, where the location order says `Less`. |
| EnumEntity.CmpCorrected | pgx-sql-entity-graph/src/postgres_enum/entity.rs:45-49 | Order by file, then line. It is `Equal` iff file and line agree, and agrees with `Cmp` where the files differ. |
| OrdEntity.ToSql | pgx-sql-entity-graph/src/postgres_ord/entity.rs:96-119 | Always `Ok`, ignores the context, adds no schema prefix. The text is exactly the provenance header followed by the btree family-and-class block. |
| OrdEntity.BtreeOpsFollowStrategies | pgx-sql-entity-graph/src/postgres_ord/entity.rs:102-109 | The block is the family `{name}_btree_ops`, then the default class for `{name}` in it, then one `OPERATOR` line per btree strategy (1 `<` … 5 `>`), then `FUNCTION 1 {cmp_fn_name}({name}, {name});`. |
| OrdEntity.BtreeOperatorLines | pgx-sql-entity-graph/src/postgres_ord/entity.rs:104-108 | The five operator lines are the btree strategy table rendered in strategy order. |
| OrdEntity.HelperNamesDistinct | pgx-sql-entity-graph/src/postgres_ord/entity.rs:36-58 | The six helper names are pairwise distinct, and each is the lower-cased name, `_`, and its own suffix. |
| OrdEntity.CmpFnNameCaseInsensitive | pgx-sql-entity-graph/src/postgres_ord/entity.rs:36-38 | Two types get the same `_cmp` name iff their names agree up to ASCII case. |
| OrdEntity.Cmp | pgx-sql-entity-graph/src/postgres_ord/entity.rs:61-65 | The comparison of the files alone. It is `Equal` iff the files are equal. |
| OrdEntity.PartialCmp | pgx-sql-entity-graph/src/postgres_ord/entity.rs:67-71 | Always `Some`, and agrees with `Cmp`. |
| OrdEntity.CmpIgnoresLine | pgx-sql-entity-graph/src/postgres_ord/entity.rs:63 | Same file with different lines compares `Equal` both ways, where the location order says `Less`. |
| OrdEntity.CmpCorrected | pgx-sql-entity-graph/src/postgres_ord/entity.rs:61-65 | Order by file, then line. It is `Equal` iff file and line agree, and agrees with `Cmp` where the files differ. |
| HashEntity.ToSql | pgx-sql-entity-graph/src/postgres_hash/entity.rs:76-95 | Always `Ok`, ignores the context, adds no schema prefix. The text is exactly the provenance header followed by the hash family-and-class block. |
| HashEntity.FnNameShape | pgx-sql-entity-graph/src/postgres_hash/entity.rs:36-38 | The name ends with `_hash` and is five characters longer than the type name. Two types share it iff their names agree up to ASCII case. |
| HashEntity.Cmp | pgx-sql-entity-graph/src/postgres_hash/entity.rs:41-45 | The comparison of the files alone. It is `Equal` iff the files are equal. |
| HashEntity.PartialCmp | pgx-sql-entity-graph/src/postgres_hash/entity.rs:47-51 | Always `Some`, and agrees with `Cmp`. |
| HashEntity.CmpIgnoresLine | pgx-sql-entity-graph/src/postgres_hash/entity.rs:43 | Same file with different lines compares `Equal` both ways, where the location order says `Less`. |
| HashEntity.CmpCorrected | pgx-sql-entity-graph/src/postgres_hash/entity.rs:41-45 | Order by file, then line. It is `Equal` iff file and line agree, and agrees with `Cmp` where the files differ. |
| PostgresEnum.New | pgx-sql-entity-graph/src/postgres_enum/mod.rs:59-70 | Fails iff the configuration does not override the default and the name's UTF-8 length is at least 64, with the name and that length. On success it stores name, generics, variants and configuration unchanged. |
| PostgresEnum.OverrideSkipsLengthCheck | pgx-sql-entity-graph/src/postgres_enum/mod.rs:65-67 | An overriding configuration accepts any name. |
| PostgresEnum.ResolveConfig | pgx-sql-entity-graph/src/postgres_enum/mod.rs:75-76 | An attribute error propagates. No configuration gives the default, and a configuration read from the attributes is used as is. |
| PostgresEnum.FromDeriveInput | pgx-sql-entity-graph/src/postgres_enum/mod.rs:72-84 | Configuration errors come first. A struct or union is refused with "expected enum" on its identifier. An enum is exactly `New` applied to its identifier, generics, variants and the resolved configuration (the attributes' one, else the default). So it fails iff `New`'s length condition holds, with `IdentifierTooLong`, and success stores all four parts. |
| PostgresEnum.Parse | pgx-sql-entity-graph/src/postgres_enum/mod.rs:172-178 | Configuration errors propagate. Success keeps the item's identifier and variants. |
| PostgresEnum.ParseAgreesWithDerive | pgx-sql-entity-graph/src/postgres_enum/mod.rs:172-178 | Parsing an enum item equals deriving from the same enum. |
| PostgresEnum.StaticParams | pgx-sql-entity-graph/src/postgres_enum/mod.rs:91-105 | Same length and order. Every lifetime becomes `static` with its bounds kept. Type and const parameters are unchanged. |
| PostgresEnum.StaticlessParams | pgx-sql-entity-graph/src/postgres_enum/mod.rs:106-117 | A parameter is in the list iff it is in the input and is not a lifetime. |
| PostgresEnum.StaticlessDistributes | pgx-sql-entity-graph/src/postgres_enum/mod.rs:106-117 | The filter keeps order: filtering `a + b` is filtering `a`, then filtering `b`. |
| PostgresEnum.StaticlessLength | pgx-sql-entity-graph/src/postgres_enum/mod.rs:111-116 | Exactly the lifetimes are dropped. |
| PostgresEnum.StaticlessOfStatic | pgx-sql-entity-graph/src/postgres_enum/mod.rs:106-117 | Filtering the static list, as the macro does, equals filtering the original parameters. |
| PostgresEnum.StaticIdempotent | pgx-sql-entity-graph/src/postgres_enum/mod.rs:100-103 | Remapping twice equals remapping once. |
| PostgresEnum.NoLifetimesUnchanged | pgx-sql-entity-graph/src/postgres_enum/mod.rs:91-117 | Without lifetimes, both lists are the input. |
| PostgresEnum.StaticGenerics | pgx-sql-entity-graph/src/postgres_enum/mod.rs:91-105 | The static parameter list, with the where clause kept. |
| PostgresEnum.StaticlessGenerics | pgx-sql-entity-graph/src/postgres_enum/mod.rs:106-117 | The staticless parameter list, with the original where clause. |
| PostgresEnum.EntityFnNameInjective | pgx-sql-entity-graph/src/postgres_enum/mod.rs:124-125 | Every entity function name starts with `__pgx_internals_enum_`. Two are equal iff the type names are. |
| Strings.Utf8Len | pgx-sql-entity-graph/src/lib.rs:269-270 | The byte length lies between the character count and four times it, and equals the character count iff the string is ASCII. |
| Strings.Lower | pgx-sql-entity-graph/src/postgres_ord/entity.rs:37 | Length is kept and no ASCII capital remains. Each character is kept or is the lower-case form of a capital. |
| Strings.NatToString | pgx-sql-entity-graph/src/lib.rs:111 | A line number displays as a non-empty string of digits without a leading zero (unless it is zero). |
| Strings.ParseNatToString | pgx-sql-entity-graph/src/lib.rs:111 | The displayed line number reads back as the number. |

## Left out

- The renderers of schema, custom SQL, function, type, aggregate, trigger and extension root are not part of this model. Nor are `ToSqlConfigEntity::to_sql` and `PgxSql::schema_prefix_for`. All of them are function-valued fields of `SqlGraph.PgxSql`, so every property holds for any behaviour of theirs.
- `ToSqlConfig::from_attributes`, `ToSqlConfig::default` and `overrides_default` are supplied as `PostgresEnum.ConfigOps`.
- `PgxSql` graph construction, and the `externs` and `enums` indexes, are inputs. The graph library's neighbour visiting order is not modelled; only membership is, and `.any` does not observe order.
- The `quote!` output of `to_entity_graph_tokens` and the `syn`/`proc_macro2` parsing are not modelled. Only the generic remapping and the entity-function name are. Parsed items are plain datatypes, and raw identifiers (`r#…`) are not distinguished.
- `tracing` instrumentation and trace events are logging only.
- Error payloads keep only the identifier and its length. Spans and message texts are dropped.
- Strings.Lower: lower-cases ASCII letters only, not the full Unicode `to_lowercase`.
- `TypeId` is a natural number, and the `HashSet<RustSqlMapping>` is a `set`.
- The panics of `externs.get(..).unwrap()` and `enums[self]` become preconditions (`SqlGraph.Renderable`, `EnumEntity.ToSql`).
- EnumEntity.HashDependsOnlyOnFullPath: models what is fed to the hasher, not the hasher itself.

## Findings

| source | as written | input that shows it | evidently intended | confidence | as-written member | corrected member |
|---|---|---|---|---|---|---|
| pgx-sql-entity-graph/src/postgres_enum/entity.rs:47 | `cmp` compares `file`, then in `then_with` compares `file` again. Line never decides, and `Equal` disagrees with the derived `Eq`. | two enums in `src/lib.rs` at lines 10 and 20 compare `Equal` | file first, then line | medium; not executed | EnumEntity.CmpIgnoresLine | EnumEntity.CmpCorrected |
| pgx-sql-entity-graph/src/postgres_ord/entity.rs:63 | the same repeated `file` comparison | two ord descriptors in one file at different lines compare `Equal` | file first, then line | medium; not executed | OrdEntity.CmpIgnoresLine | OrdEntity.CmpCorrected |
| pgx-sql-entity-graph/src/postgres_hash/entity.rs:43 | the same repeated `file` comparison | two hash descriptors in one file at different lines compare `Equal` | file first, then line | medium; not executed | HashEntity.CmpIgnoresLine | HashEntity.CmpCorrected |
