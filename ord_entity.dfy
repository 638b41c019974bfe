/** `PostgresOrdEntity`: the descriptor `#[derive(PostgresOrd)]` submits, its
    derived comparison-function names, and its rendering as a btree operator
    family with a default operator class. */
module OrdEntity {
  import opened Common
  import opened Strings
  import opened Ordering

  datatype PostgresOrdEntity = PostgresOrdEntity(
    name: string,
    file: string,
    line: U32,
    fullPath: string,
    modulePath: string,
    id: nat,
    toSqlConfig: ToSqlConfigEntity)

  /** `cmp_fn_name`: the three-way comparison support function. */
  function CmpFnName(e: PostgresOrdEntity): string
  {
    Lower(e.name) + "_cmp"
  }

  /** `lt_fn_name`. */
  function LtFnName(e: PostgresOrdEntity): string
  {
    Lower(e.name) + "_lt"
  }

  /** `le_fn_name`. */
  function LeFnName(e: PostgresOrdEntity): string
  {
    Lower(e.name) + "_le"
  }

  /** `eq_fn_name`. */
  function EqFnName(e: PostgresOrdEntity): string
  {
    Lower(e.name) + "_eq"
  }

  /** `gt_fn_name`. */
  function GtFnName(e: PostgresOrdEntity): string
  {
    Lower(e.name) + "_gt"
  }

  /** `ge_fn_name`. */
  function GeFnName(e: PostgresOrdEntity): string
  {
    Lower(e.name) + "_ge"
  }

  /** The six derived names, in the order the source declares them. */
  function HelperNames(e: PostgresOrdEntity): seq<string>
  {
    [CmpFnName(e), LtFnName(e), LeFnName(e), EqFnName(e), GtFnName(e), GeFnName(e)]
  }

  /** The six derived function names never collide with one another, and
      each is the lower-cased type name followed by its own suffix. */
  lemma HelperNamesDistinct(e: PostgresOrdEntity)
    ensures var names := HelperNames(e);
            forall i, j :: 0 <= i < j < |names| ==> names[i] != names[j]
    ensures forall n :: n in HelperNames(e) ==> StartsWith(n, Lower(e.name) + "_")
  {
    var p := Lower(e.name) + "_";
    var sfx := ["cmp", "lt", "le", "eq", "gt", "ge"];
    var names := HelperNames(e);
    forall i | 0 <= i < |names|
      ensures names[i] == p + sfx[i]
    {
    }
    forall i, j | 0 <= i < j < |names|
      ensures names[i] != names[j]
    {
      if |sfx[i]| == |sfx[j]| {
        SameLengthSuffixesDiffer(p, sfx[i], sfx[j]);
      }
    }
  }

  /** Two types get the same comparison function exactly when their names
      agree up to ASCII case. */
  lemma CmpFnNameCaseInsensitive(a: PostgresOrdEntity, b: PostgresOrdEntity)
    ensures CmpFnName(a) == CmpFnName(b) <==> Lower(a.name) == Lower(b.name)
  {
    AppendSuffixInjective(Lower(a.name), Lower(b.name), "_cmp");
  }

  /** `Ord::cmp`: as written it compares the file twice, so only the file
      decides. */
  function Cmp(a: PostgresOrdEntity, b: PostgresOrdEntity): (r: Ordering)
    ensures r == CmpStr(a.file, b.file)
    ensures r == Equal <==> a.file == b.file
  {
    CmpStr(a.file, b.file).ThenWith(CmpStr(a.file, b.file))
  }

  /** `PartialOrd::partial_cmp`: always defined, and agrees with `Cmp`. */
  function PartialCmp(a: PostgresOrdEntity, b: PostgresOrdEntity): (r: Option<Ordering>)
    ensures r.Some? && r.value == Cmp(a, b)
  {
    Some(Cmp(a, b))
  }

  /** As written, two ord descriptors in the same file compare `Equal`
      whatever their lines. */
  lemma CmpIgnoresLine(a: PostgresOrdEntity, b: PostgresOrdEntity)
    requires a.file == b.file && a.line < b.line
    ensures Cmp(a, b) == Equal && Cmp(b, a) == Equal
    ensures CmpLocation(a.file, a.line, b.file, b.line) == Less
  {
  }

  /** The order `cmp` evidently means to give: by file, then by line. It
      ties only descriptors at the same location, and where the files
      differ it agrees with `Cmp` as written. */
  function CmpCorrected(a: PostgresOrdEntity, b: PostgresOrdEntity): (r: Ordering)
    ensures r == Equal <==> a.file == b.file && a.line == b.line
    ensures a.file != b.file ==> r == Cmp(a, b)
    ensures a.file == b.file ==> (r == Less <==> a.line < b.line)
  {
    CmpLocationProperties(a.file, a.line, b.file, b.line);
    CmpLocation(a.file, a.line, b.file, b.line)
  }

  /** `dot_identifier`. */
  function DotIdentifier(e: PostgresOrdEntity): string
  {
    "ord " + e.fullPath
  }

  /** `rust_identifier`. */
  function RustIdentifier(e: PostgresOrdEntity): string
  {
    e.fullPath
  }

  /** `file`: always known. */
  function File(e: PostgresOrdEntity): Option<string>
  {
    Some(e.file)
  }

  /** `line`: always known. */
  function Line(e: PostgresOrdEntity): Option<U32>
  {
    Some(e.line)
  }

  /** `{name}_btree_ops`, the operator family and class name. */
  function FamilyName(e: PostgresOrdEntity): string
  {
    e.name + "_btree_ops"
  }

  /** The statements after the provenance comments: the operator family,
      then the default operator class for the type in that family, wiring
      the five comparison operators and `CmpFnName` as support function 1. */
  function BtreeOpsSql(e: PostgresOrdEntity): string
  {
    "CREATE OPERATOR FAMILY " + FamilyName(e) + " USING btree;\n"
    + "CREATE OPERATOR CLASS " + FamilyName(e) + " DEFAULT FOR TYPE " + e.name
    + " USING btree FAMILY " + FamilyName(e) + " AS\n"
    + ("\tOPERATOR 1 <,\n" + "\tOPERATOR 2 <=,\n" + "\tOPERATOR 3 =,\n" + "\tOPERATOR 4 >=,\n" + "\tOPERATOR 5 >,\n")
    + SupportFunctionLine(e)
  }

  /** The btree class's support-function line, the last line of the block. */
  function SupportFunctionLine(e: PostgresOrdEntity): string
  {
    "\tFUNCTION 1 " + CmpFnName(e) + "(" + e.name + ", " + e.name + ");"
  }

  /** `to_sql`: provenance comments, then the operator family and class.
      The context is not read (the source's parameter is `_context`), no
      schema prefix is added, and rendering never fails. */
  function ToSql(e: PostgresOrdEntity): (r: Result<string>)
    ensures r.Ok?
    ensures StartsWith(r.value, ProvenanceHeader(e.file, e.line, e.fullPath))
    ensures |r.value| == |ProvenanceHeader(e.file, e.line, e.fullPath)| + |BtreeOpsSql(e)|
    ensures EndsWith(r.value, BtreeOpsSql(e))
  {
    var header := ProvenanceHeader(e.file, e.line, e.fullPath);
    var body := BtreeOpsSql(e);
    assert (header + body)[..|header|] == header;
    assert (header + body)[|header|..] == body;
    Ok(header + body)
  }

  /** The btree block closes with the support-function line. */
  lemma OpsEndWithSupportFunction(e: PostgresOrdEntity)
    ensures EndsWith(BtreeOpsSql(e), SupportFunctionLine(e))
  {
  }

  /** PostgreSQL's btree strategy numbers (the "Index Method Strategies"
      section of the PostgreSQL manual): 1 less, 2 less-or-equal,
      3 equal, 4 greater-or-equal, 5 greater. */
  const BtreeStrategies: seq<(nat, string)> := [(1, "<"), (2, "<="), (3, "="), (4, ">="), (5, ">")]

  /** One `OPERATOR` line of an operator class. */
  function OperatorLine(strategy: (nat, string)): string
  {
    "\tOPERATOR " + NatToString(strategy.0) + " " + strategy.1 + ",\n"
  }

  function OperatorLines(strategies: seq<(nat, string)>): string
  {
    if |strategies| == 0 then "" else OperatorLine(strategies[0]) + OperatorLines(strategies[1..])
  }

  /** The statement block, read against the btree strategy table: the
      family, then the default class for the type in that family, one
      operator line per btree strategy in strategy order, and support
      function 1 named `CmpFnName`. */
  lemma BtreeOpsFollowStrategies(e: PostgresOrdEntity)
    ensures BtreeOpsSql(e) ==
      "CREATE OPERATOR FAMILY " + FamilyName(e) + " USING btree;\n"
      + "CREATE OPERATOR CLASS " + FamilyName(e) + " DEFAULT FOR TYPE " + e.name
      + " USING btree FAMILY " + FamilyName(e) + " AS\n"
      + OperatorLines(BtreeStrategies)
      + SupportFunctionLine(e)
  {
    BtreeOperatorLines();
  }

  /** The five btree operator lines, spelled out. */
  lemma BtreeOperatorLines()
    ensures OperatorLines(BtreeStrategies) == "\tOPERATOR 1 <,\n" + "\tOPERATOR 2 <=,\n" + "\tOPERATOR 3 =,\n" + "\tOPERATOR 4 >=,\n" + "\tOPERATOR 5 >,\n"
  {
  }
}
