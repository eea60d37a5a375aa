/**
 * The Sequelize values the compiler produces: where-clause objects keyed by
 * field names or `Op` symbols, `sequelize.literal` fragments, include
 * descriptors, `sequelize.fn`/`sequelize.col` aggregates and the
 * `findAll` options object itself. They are opaque to the compiler: it only
 * builds them.
 */
module Sequelize {
  import opened Wrappers
  import opened Json
  import opened Operators

  /** A where-object key: a field name (possibly `$alias.field$`) or an `Op` symbol. */
  datatype Key = Name(name: string) | Sym(op: Op)

  /** A compiled condition. */
  datatype Expr =
    | Pass(value: Value)                  // a request value copied through unchanged
    | Record(entries: seq<(Key, Expr)>)   // a fresh object, in insertion order
    | List(items: seq<Expr>)              // a fresh array
    | Literal(sql: string)                // `sequelize.literal(sql)`

  /** An entry of `findAll`'s `include` list. `required` is absent on includes the projection adds; `nested` is the include's own `include` list. */
  datatype Include = Include(
    model: string,
    alias: string,
    required: Option<bool>,
    attributes: seq<string>,
    nested: seq<Include>)

  /** `[sequelize.fn(fn, sequelize.col(column)), alias]`. */
  datatype Aggregate = Aggregate(fn: string, column: Value, alias: string)

  /** An entry of the `attributes` list: a column name or an aliased aggregate. */
  datatype Attr = Column(name: string) | Aggregated(aggregate: Aggregate)

  /** `{ alias, subquery }`. */
  datatype SubqueryEntry = SubqueryEntry(alias: string, subquery: Expr)

  /** The caller's transaction, threaded through untouched. */
  datatype TransactionHandle = TransactionHandle(id: nat)

  /**
   * The options object `buildQuery` hands to `findAll`. An absent member
   * (`undefined`) is `None`; `limit`, `offset` and `subqueries` are absent
   * unless set.
   */
  datatype Plan = Plan(
    attributes: Option<seq<Attr>>,
    whereClause: Expr,
    includes: seq<Include>,
    order: seq<(Option<Value>, Option<Value>)>,
    group: seq<string>,
    having: Option<Expr>,
    transaction: Option<TransactionHandle>,
    limit: Option<Value>,
    offset: Option<Value>,
    subqueries: Option<seq<SubqueryEntry>>)
}
