/** `PostgresHashEntity`: the descriptor `#[derive(PostgresHash)]` submits, its
    derived hash-function name, and its rendering as a hash operator family
    with a default operator class. */
module HashEntity {
  import opened Common
  import opened Strings
  import opened Ordering

  datatype PostgresHashEntity = PostgresHashEntity(
    name: string,
    file: string,
    line: U32,
    fullPath: string,
    modulePath: string,
    id: nat,
    toSqlConfig: ToSqlConfigEntity)

  /** `fn_name`: the hash support function. */
  function FnName(e: PostgresHashEntity): string
  {
    Lower(e.name) + "_hash"
  }

  /** The hash function name is the type name, lower-cased, with `_hash`
      appended; two types share it exactly when their names agree up to
      ASCII case. */
  lemma FnNameShape(a: PostgresHashEntity, b: PostgresHashEntity)
    ensures EndsWith(FnName(a), "_hash") && |FnName(a)| == |a.name| + 5
    ensures FnName(a) == FnName(b) <==> Lower(a.name) == Lower(b.name)
  {
    AppendSuffixInjective(Lower(a.name), Lower(b.name), "_hash");
  }

  /** `Ord::cmp`: as written it compares the file twice, so only the file
      decides. */
  function Cmp(a: PostgresHashEntity, b: PostgresHashEntity): (r: Ordering)
    ensures r == CmpStr(a.file, b.file)
    ensures r == Equal <==> a.file == b.file
  {
    CmpStr(a.file, b.file).ThenWith(CmpStr(a.file, b.file))
  }

  /** `PartialOrd::partial_cmp`: always defined, and agrees with `Cmp`. */
  function PartialCmp(a: PostgresHashEntity, b: PostgresHashEntity): (r: Option<Ordering>)
    ensures r.Some? && r.value == Cmp(a, b)
  {
    Some(Cmp(a, b))
  }

  /** As written, two hash descriptors in the same file compare `Equal`
      whatever their lines. */
  lemma CmpIgnoresLine(a: PostgresHashEntity, b: PostgresHashEntity)
    requires a.file == b.file && a.line < b.line
    ensures Cmp(a, b) == Equal && Cmp(b, a) == Equal
    ensures CmpLocation(a.file, a.line, b.file, b.line) == Less
  {
  }

  /** The order `cmp` evidently means to give: by file, then by line. It
      ties only descriptors at the same location, and where the files
      differ it agrees with `Cmp` as written. */
  function CmpCorrected(a: PostgresHashEntity, b: PostgresHashEntity): (r: Ordering)
    ensures r == Equal <==> a.file == b.file && a.line == b.line
    ensures a.file != b.file ==> r == Cmp(a, b)
    ensures a.file == b.file ==> (r == Less <==> a.line < b.line)
  {
    CmpLocationProperties(a.file, a.line, b.file, b.line);
    CmpLocation(a.file, a.line, b.file, b.line)
  }

  /** `dot_identifier`. */
  function DotIdentifier(e: PostgresHashEntity): string
  {
    "hash " + e.fullPath
  }

  /** `rust_identifier`. */
  function RustIdentifier(e: PostgresHashEntity): string
  {
    e.fullPath
  }

  /** `file`: always known. */
  function File(e: PostgresHashEntity): Option<string>
  {
    Some(e.file)
  }

  /** `line`: always known. */
  function Line(e: PostgresHashEntity): Option<U32>
  {
    Some(e.line)
  }

  /** `{name}_hash_ops`, the operator family and class name. */
  function FamilyName(e: PostgresHashEntity): string
  {
    e.name + "_hash_ops"
  }

  /** The hash class's support-function line, the last line of the block. */
  function SupportFunctionLine(e: PostgresHashEntity): string
  {
    "\tFUNCTION    1   " + FnName(e) + "(" + e.name + ");"
  }

  /** The statements after the provenance comments: the operator family,
      then the default operator class for the type in that family, with
      equality as strategy 1 and `FnName` as support function 1. */
  function HashOpsSql(e: PostgresHashEntity): string
  {
    "CREATE OPERATOR FAMILY " + FamilyName(e) + " USING hash;\n"
    + "CREATE OPERATOR CLASS " + FamilyName(e) + " DEFAULT FOR TYPE " + e.name
    + " USING hash FAMILY " + FamilyName(e) + " AS\n"
    + "\tOPERATOR    1   =  (" + e.name + ", " + e.name + "),\n"
    + SupportFunctionLine(e)
  }

  /** `to_sql`: provenance comments, then the operator family and class.
      The context is not read (the source's parameter is `_context`), no
      schema prefix is added, and rendering never fails. */
  function ToSql(e: PostgresHashEntity): (r: Result<string>)
    ensures r.Ok?
    ensures StartsWith(r.value, ProvenanceHeader(e.file, e.line, e.fullPath))
    ensures |r.value| == |ProvenanceHeader(e.file, e.line, e.fullPath)| + |HashOpsSql(e)|
    ensures EndsWith(r.value, HashOpsSql(e))
  {
    var header := ProvenanceHeader(e.file, e.line, e.fullPath);
    var body := HashOpsSql(e);
    assert (header + body)[..|header|] == header;
    assert (header + body)[|header|..] == body;
    Ok(header + body)
  }

  /** The hash block closes with the support-function line. */
  lemma OpsEndWithSupportFunction(e: PostgresHashEntity)
    ensures EndsWith(HashOpsSql(e), SupportFunctionLine(e))
  {
  }
}
