/** `PostgresEnumEntity`: the descriptor `#[derive(PostgresEnum)]` submits,
    and its rendering as `CREATE TYPE ... AS ENUM`. */
module EnumEntity {
  import opened Common
  import opened Strings
  import opened Ordering

  /** `core::any::TypeId`, kept opaque. */
  type TypeId = nat

  /** A `RustSqlMapping`; only its type id is used by the core. */
  datatype RustSqlMapping = RustSqlMapping(id: TypeId)

  datatype PostgresEnumEntity = PostgresEnumEntity(
    name: string,
    file: string,
    line: U32,
    fullPath: string,
    modulePath: string,
    mappings: set<RustSqlMapping>,
    variants: seq<string>,
    toSqlConfig: ToSqlConfigEntity)

  /** What `Hash::hash` feeds the hasher: the full path and nothing else. */
  function HashKey(e: PostgresEnumEntity): string
  {
    e.fullPath
  }

  /** Two enum descriptors with the same full path hash alike, whatever
      their other fields. */
  lemma HashDependsOnlyOnFullPath(a: PostgresEnumEntity, b: PostgresEnumEntity)
    requires a.fullPath == b.fullPath
    ensures HashKey(a) == HashKey(b)
  {
  }

  /** `Ord::cmp`. The `then_with` tie-breaker compares the file a second
      time, so the result is the comparison of the files alone. */
  function Cmp(a: PostgresEnumEntity, b: PostgresEnumEntity): (r: Ordering)
    ensures r == CmpStr(a.file, b.file)
    ensures r == Equal <==> a.file == b.file
  {
    CmpStr(a.file, b.file).ThenWith(CmpStr(a.file, b.file))
  }

  /** `PartialOrd::partial_cmp`: always defined, and agrees with `Cmp`. */
  function PartialCmp(a: PostgresEnumEntity, b: PostgresEnumEntity): (r: Option<Ordering>)
    ensures r.Some? && r.value == Cmp(a, b)
  {
    Some(Cmp(a, b))
  }

  /** `Cmp` is antisymmetric. */
  lemma CmpAntisymmetric(a: PostgresEnumEntity, b: PostgresEnumEntity)
    ensures Cmp(b, a) == Cmp(a, b).Reverse()
  {
    CmpStrAntisymmetric(a.file, b.file);
  }

  /** As written, two different enums declared in the same file compare
      `Equal` however far apart their lines are, although the derived `Eq`
      tells them apart, where the location order `CmpLocation` puts the
      earlier line first. */
  lemma CmpIgnoresLine(a: PostgresEnumEntity, b: PostgresEnumEntity)
    requires a.file == b.file && a.line < b.line
    ensures Cmp(a, b) == Equal && Cmp(b, a) == Equal && a != b
    ensures CmpLocation(a.file, a.line, b.file, b.line) == Less
  {
  }

  /** `mappings.iter().any(..)`: take some mapping of the set, test it, and
      search the rest if it does not match. */
  ghost function AnyMappingHasId(ms: set<RustSqlMapping>, candidate: TypeId): (r: bool)
    ensures r <==> exists m :: m in ms && m.id == candidate
    decreases ms
  {
    if ms == {} then false
    else
      var m :| m in ms;
      m.id == candidate || AnyMappingHasId(ms - {m}, candidate)
  }

  /** `id_matches`: some mapping carries the candidate type id. */
  ghost function IdMatches(e: PostgresEnumEntity, candidate: TypeId): (r: bool)
    ensures r <==> exists m :: m in e.mappings && m.id == candidate
  {
    AnyMappingHasId(e.mappings, candidate)
  }

  /** The order `cmp` evidently means to give: by file, then by line. It
      ties only descriptors at the same location, and where the files
      differ it agrees with `Cmp` as written. */
  function CmpCorrected(a: PostgresEnumEntity, b: PostgresEnumEntity): (r: Ordering)
    ensures r == Equal <==> a.file == b.file && a.line == b.line
    ensures a.file != b.file ==> r == Cmp(a, b)
    ensures a.file == b.file ==> (r == Less <==> a.line < b.line)
  {
    CmpLocationProperties(a.file, a.line, b.file, b.line);
    CmpLocation(a.file, a.line, b.file, b.line)
  }

  /** `dot_identifier`. */
  function DotIdentifier(e: PostgresEnumEntity): string
  {
    "enum " + e.fullPath
  }

  /** `rust_identifier`. */
  function RustIdentifier(e: PostgresEnumEntity): string
  {
    e.fullPath
  }

  /** `file`: always known. */
  function File(e: PostgresEnumEntity): Option<string>
  {
    Some(e.file)
  }

  /** `line`: always known. */
  function Line(e: PostgresEnumEntity): Option<U32>
  {
    Some(e.line)
  }

  /** One variant as it appears in the label list: tab, quoted label. */
  function QuotedVariant(v: string): string
  {
    "\t'" + v + "'"
  }

  function QuotedVariants(vs: seq<string>): (r: seq<string>)
    ensures |r| == |vs| && forall i :: 0 <= i < |vs| ==> r[i] == QuotedVariant(vs[i])
  {
    seq(|vs|, i requires 0 <= i < |vs| => QuotedVariant(vs[i]))
  }

  /** The label list: quoted variants joined by `",\n"`, then one newline. */
  function VariantsBlock(vs: seq<string>): string
  {
    Join(QuotedVariants(vs), ",\n") + "\n"
  }

  /** The `i`-th line of the label list, read line by line: every label but
      the last is followed by a comma. */
  function VariantLine(vs: seq<string>, i: nat): string
    requires i < |vs|
  {
    QuotedVariant(vs[i]) + (if i + 1 < |vs| then ",\n" else "\n")
  }

  function VariantLines(vs: seq<string>): (r: seq<string>)
    ensures |r| == |vs| && forall i :: 0 <= i < |vs| ==> r[i] == VariantLine(vs, i)
  {
    seq(|vs|, i requires 0 <= i < |vs| => VariantLine(vs, i))
  }

  /** The label list is one line per variant, in declared order, every
      line but the last ending in a comma; an enum without variants gets a
      single empty line. */
  lemma {:induction false} VariantsBlockIsLines(vs: seq<string>)
    ensures VariantsBlock(vs) == if |vs| == 0 then "\n" else Concat(VariantLines(vs))
    decreases |vs|
  {
    if |vs| >= 2 {
      var rest := vs[1..];
      VariantsBlockIsLines(rest);
      assert QuotedVariants(vs)[1..] == QuotedVariants(rest);
      assert VariantLines(vs)[1..] == VariantLines(rest) by {
        forall i | 0 <= i < |rest|
          ensures VariantLines(vs)[1..][i] == VariantLines(rest)[i]
        {
          assert VariantLine(vs, i + 1) == VariantLine(rest, i);
        }
      }
      calc {
        VariantsBlock(vs);
        QuotedVariant(vs[0]) + ",\n" + Join(QuotedVariants(rest), ",\n") + "\n";
        (QuotedVariant(vs[0]) + ",\n") + VariantsBlock(rest);
        VariantLine(vs, 0) + Concat(VariantLines(rest));
      }
    }
  }

  /** The label list always ends in a newline and, for a non-empty enum,
      starts with the first declared label. */
  lemma VariantsBlockBounds(vs: seq<string>)
    ensures var b := VariantsBlock(vs); |b| >= 1 && b[|b| - 1] == '\n'
    ensures |vs| > 0 ==> StartsWith(VariantsBlock(vs), QuotedVariant(vs[0]))
  {
    if |vs| > 1 {
      assert VariantsBlock(vs) == QuotedVariant(vs[0]) + (",\n" + Join(QuotedVariants(vs)[1..], ",\n") + "\n");
    }
  }

  /** The statement after the provenance comments: `CREATE TYPE` with the
      schema prefix, then the label list and the closing parenthesis. */
  function CreateTypeSql(e: PostgresEnumEntity, schemaPrefix: string): string
  {
    "CREATE TYPE " + schemaPrefix + e.name + " AS ENUM (\n" + VariantsBlock(e.variants) + ");"
  }

  /** `to_sql`: the provenance comments, then `CREATE TYPE` qualified with
      the schema prefix the context gives this entity's own node.
      `enums` and `schemaPrefixFor` are the two parts of the context the
      renderer reads; indexing `enums` panics for an unknown entity, hence
      the precondition. Rendering never fails. */
  function ToSql(e: PostgresEnumEntity, enums: map<PostgresEnumEntity, nat>, schemaPrefixFor: nat -> string): (r: Result<string>)
    requires e in enums
    ensures r.Ok?
    ensures StartsWith(r.value, ProvenanceHeader(e.file, e.line, e.fullPath))
    ensures |r.value| == |ProvenanceHeader(e.file, e.line, e.fullPath)| + |CreateTypeSql(e, schemaPrefixFor(enums[e]))|
    ensures EndsWith(r.value, CreateTypeSql(e, schemaPrefixFor(enums[e])))
  {
    var selfIndex := enums[e];
    var header := ProvenanceHeader(e.file, e.line, e.fullPath);
    var body := CreateTypeSql(e, schemaPrefixFor(selfIndex));
    assert (header + body)[..|header|] == header;
    Ok(header + body)
  }
}
