/**
 * The operator table: the request's `__`-prefixed operator tokens and the
 * Sequelize `Op` symbols they stand for.
 */
module Operators {
  import opened Wrappers
  import opened Collections

  /** A Sequelize operator symbol `Op.<name>`. */
  datatype Op = Op(name: string)

  const And := Op("and")
  const Or := Op("or")
  const Like := Op("like")
  const ILike := Op("iLike")

  /** The names of the 30 operators the table maps, in its order. */
  const OperatorNames: seq<string> := [
    "eq", "ne", "gt", "lt", "gte", "lte",
    "like", "notLike", "iLike", "notILike", "startsWith", "endsWith", "substring",
    "regexp", "notRegexp", "iRegexp", "notIRegexp",
    "between", "notBetween", "in", "notIn",
    "overlap", "contains", "contained", "any", "all",
    "and", "or", "not", "col"]

  /** An operator the table maps to. */
  predicate Known(op: Op) {
    op.name in OperatorNames
  }

  /** The token a request writes for an operator: its name behind `__`. */
  function Token(op: Op): (t: string)
    ensures |t| == |op.name| + 2 && t[..2] == "__" && t[2..] == op.name
  {
    "__" + op.name
  }

  /** `operatorMap[token]`: the operator a token stands for, if it is one of the table's keys. */
  function OperatorOf(token: string): (r: Option<Op>)
    ensures r.Some? ==> Known(r.value) && Token(r.value) == token
    ensures r.None? ==> forall op | Known(op) :: Token(op) != token
  {
    if |token| > 2 && token[..2] == "__" && token[2..] in OperatorNames then Some(Op(token[2..])) else None
  }

  /** Every operator of the table is reached from its own token. */
  lemma TokenRoundTrip(op: Op)
    requires Known(op)
    ensures OperatorOf(Token(op)) == Some(op)
  {
  }

  /** The table holds exactly 30 distinct operators. */
  lemma OperatorTable()
    ensures |OperatorNames| == 30
    ensures NoDup(OperatorNames)
  {
  }

  /** No two operators share a token. */
  lemma TokenInjective(a: Op, b: Op)
    requires Token(a) == Token(b)
    ensures a == b
  {
  }
}
