/** Shared value types of the SQL entity graph: optional values, results,
    the error kinds the core reports, and the fixed-width line number. */
module Common {

  /** Rust's `Option`. */
  datatype Option<+T> = None | Some(value: T)

  /** The errors the modelled core can report. The payloads keep only what the
      model needs: the offending identifier, and its length where it is too long. */
  datatype Error =
    | IdentifierTooLong(ident: string, length: nat)
    | ExpectedEnum(ident: string)

  /** `eyre::Result` / `Result<_, syn::Error>`. */
  datatype Result<+T> = Ok(value: T) | Err(error: Error)

  /** `Result<(), syn::Error>`: a check that passes or fails. */
  datatype Outcome = Pass | Fail(error: Error)

  /** Rust's `u32`, the type of `line!()`. */
  type U32 = n: nat | n < 0x1_0000_0000

  /** A per-entity `ToSqlConfigEntity`. Its fields and its `to_sql` hook are
      not part of this model; the hook's answer is supplied by the rendering
      context (see `SqlGraph.PgxSql.configToSql`), so the configuration is
      kept only as an opaque token that the hook is applied to. */
  datatype ToSqlConfigEntity = ToSqlConfigEntity(token: nat)
}
