/**
 * `buildConditionObject`: the leaf compiler turning `{ "__gte": 18, ... }`
 * into `{ [Op.gte]: 18, ... }`.
 */
module ConditionObject {
  import opened Wrappers
  import opened Errors
  import opened Collections
  import opened Json
  import opened Operators
  import opened Sequelize

  /**
   * Compiles an operator object. `null` passes the `typeof` test and then
   * fails inside `Object.entries`; any other non-object, and any array, is
   * refused.
   */
  function BuildConditionObject(conditions: Value, globalSearch: bool): (r: Outcome<Expr>)
    ensures r.Ok? ==> r.value.Record?
    ensures conditions.Null? ==> r == Err(TypeError)
    ensures !conditions.Null? && !conditions.Object? ==> r == Err(ConditionsNotObject)
    decreases conditions, 2
  {
    match conditions
    case Null => Err(TypeError)
    case Object(props) => CompileOperators(conditions, props, globalSearch, [])
    case _ => Err(ConditionsNotObject)
  }

  /** The `for ... of Object.entries(conditions)` loop, with `acc` the object built so far. */
  function CompileOperators(ghost parent: Value, props: seq<(string, Value)>, globalSearch: bool, acc: seq<(Key, Expr)>): (r: Outcome<Expr>)
    requires forall i | 0 <= i < |props| :: props[i].1 < parent
    ensures r.Ok? ==> r.value.Record?
    decreases parent, 1, |props|
  {
    if props == [] then Ok(Record(acc))
    else
      var (token, value) := props[0];
      match OperatorOf(token)
      case None => Err(UnsupportedOperator(token))
      case Some(op) =>
        match CompileOperand(op, value, globalSearch)
        case Err(e) => Err(e)
        case Ok(c) => CompileOperators(parent, props[1..], globalSearch, Put(acc, Sym(op), c))
  }

  /**
   * The value stored under one operator: `and`/`or` lists are compiled
   * element by element (`.map` on a non-array throws), `like`/`iLike` under
   * global search become `%value%`, and everything else is copied through.
   */
  function CompileOperand(op: Op, value: Value, globalSearch: bool): (r: Outcome<Expr>)
    ensures (op == And || op == Or) && !value.Array? ==> r == Err(TypeError)
    ensures (op == And || op == Or) && r.Ok? ==> r.value.List? && |r.value.items| == |value.items|
    ensures op != And && op != Or && globalSearch && (op == Like || op == ILike) ==>
      r == Ok(Pass(Str("%" + Text(value) + "%")))
    ensures op != And && op != Or && !(globalSearch && (op == Like || op == ILike)) ==> r == Ok(Pass(value))
    decreases value, 3
  {
    if op == And || op == Or then
      match value
      case Array(items) => CompileEach(value, items, globalSearch, [])
      case _ => Err(TypeError)
    else if globalSearch && (op == Like || op == ILike) then
      Ok(Pass(Str("%" + Text(value) + "%")))
    else
      Ok(Pass(value))
  }

  /** `value.map(cond => buildConditionObject(cond, globalSearch))`, with `acc` the elements mapped so far. */
  function CompileEach(ghost parent: Value, items: seq<Value>, globalSearch: bool, acc: seq<Expr>): (r: Outcome<Expr>)
    requires forall i | 0 <= i < |items| :: items[i] < parent
    ensures r.Ok? ==> r.value.List? && |r.value.items| == |acc| + |items|
    decreases parent, 1, |items|
  {
    if items == [] then Ok(List(acc))
    else
      match BuildConditionObject(items[0], globalSearch)
      case Err(e) => Err(e)
      case Ok(c) => CompileEach(parent, items[1..], globalSearch, acc + [c])
  }

  /**
   * The mapped list keeps what came before it and then holds, position by
   * position, each element compiled on its own.
   */
  lemma {:induction false} CompileEachItems(parent: Value, items: seq<Value>, globalSearch: bool, acc: seq<Expr>)
    requires forall i | 0 <= i < |items| :: items[i] < parent
    requires CompileEach(parent, items, globalSearch, acc).Ok?
    ensures var out := CompileEach(parent, items, globalSearch, acc).value.items;
      |out| == |acc| + |items| && out[..|acc|] == acc && CompiledItems(items, globalSearch, out[|acc|..])
    decreases |items|
  {
    if items != [] {
      var c := CompileEachStep(parent, items, globalSearch, acc);
      CompileEachItems(parent, items[1..], globalSearch, acc + [c]);
      var out := CompileEach(parent, items, globalSearch, acc).value.items;
      assert out[..|acc|] == out[..|acc| + 1][..|acc|];
      var tail := out[|acc|..];
      assert tail[1..] == out[|acc| + 1..];
      CompiledItemsCons(items, globalSearch, tail);
    }
  }

  /** `outs` holds, position by position, the elements of `items` compiled each on its own. */
  predicate CompiledItems(items: seq<Value>, globalSearch: bool, outs: seq<Expr>) {
    |outs| == |items| && forall i | 0 <= i < |items| :: BuildConditionObject(items[i], globalSearch) == Ok(outs[i])
  }

  lemma CompiledItemsCons(items: seq<Value>, globalSearch: bool, outs: seq<Expr>)
    requires |items| > 0 && |outs| > 0
    requires BuildConditionObject(items[0], globalSearch) == Ok(outs[0])
    requires CompiledItems(items[1..], globalSearch, outs[1..])
    ensures CompiledItems(items, globalSearch, outs)
  {
    forall i | 1 <= i < |items|
      ensures BuildConditionObject(items[i], globalSearch) == Ok(outs[i])
    {
      assert items[i] == items[1..][i - 1] && outs[i] == outs[1..][i - 1];
    }
  }

  /** One turn of the map: the first element compiles, and the rest is mapped after it. */
  lemma CompileEachStep(parent: Value, items: seq<Value>, globalSearch: bool, acc: seq<Expr>) returns (c: Expr)
    requires |items| > 0
    requires forall i | 0 <= i < |items| :: items[i] < parent
    requires CompileEach(parent, items, globalSearch, acc).Ok?
    ensures BuildConditionObject(items[0], globalSearch) == Ok(c)
    ensures CompileEach(parent, items, globalSearch, acc) == CompileEach(parent, items[1..], globalSearch, acc + [c])
  {
    c := BuildConditionObject(items[0], globalSearch).value;
  }

  /**
   * An `and`/`or` operand compiles to the list of its elements, each compiled
   * by `buildConditionObject` with the same `globalSearch`.
   */
  lemma CompileOperandItems(op: Op, value: Value, globalSearch: bool)
    requires op == And || op == Or
    requires CompileOperand(op, value, globalSearch).Ok?
    ensures value.Array?
    ensures var out := CompileOperand(op, value, globalSearch).value;
      out.List? && CompiledItems(value.items, globalSearch, out.items)
  {
    CompileEachItems(value, value.items, globalSearch, []);
    assert CompileOperand(op, value, globalSearch).value.items[0..] == CompileOperand(op, value, globalSearch).value.items;
  }

  /** An independent statement of which operator objects compile: a recursive validity predicate. */
  predicate ValidCondition(v: Value)
    decreases v, 2
  {
    v.Object? && forall i | 0 <= i < |v.props| :: ValidOperand(v.props[i].0, v.props[i].1)
  }

  /** A known operator token, and for `__and`/`__or` an array of valid operator objects. */
  predicate ValidOperand(token: string, value: Value)
    decreases value, 3
  {
    match OperatorOf(token)
    case None => false
    case Some(op) =>
      (op == And || op == Or) ==>
        value.Array? && forall j | 0 <= j < |value.items| :: ValidCondition(value.items[j])
  }

  /** Compilation succeeds exactly on valid operator objects, whatever `globalSearch` is. */
  lemma {:induction false} BuildConditionObjectOk(conditions: Value, globalSearch: bool)
    ensures BuildConditionObject(conditions, globalSearch).Ok? <==> ValidCondition(conditions)
    decreases conditions, 2
  {
    if conditions.Object? {
      CompileOperatorsOk(conditions, conditions.props, globalSearch, []);
    }
  }

  lemma {:induction false} CompileOperatorsOk(parent: Value, props: seq<(string, Value)>, globalSearch: bool, acc: seq<(Key, Expr)>)
    requires forall i | 0 <= i < |props| :: props[i].1 < parent
    ensures CompileOperators(parent, props, globalSearch, acc).Ok? <==>
      forall i | 0 <= i < |props| :: ValidOperand(props[i].0, props[i].1)
    decreases parent, 1, |props|
  {
    if props != [] {
      var (token, value) := props[0];
      match OperatorOf(token)
      case None =>
      case Some(op) =>
        CompileOperandOk(op, token, value, globalSearch);
        match CompileOperand(op, value, globalSearch)
        case Err(_) =>
        case Ok(c) =>
          CompileOperatorsOk(parent, props[1..], globalSearch, Put(acc, Sym(op), c));
          assert forall i | 1 <= i < |props| :: props[i] == props[1..][i - 1];
    }
  }

  lemma {:induction false} CompileOperandOk(op: Op, token: string, value: Value, globalSearch: bool)
    requires OperatorOf(token) == Some(op)
    ensures CompileOperand(op, value, globalSearch).Ok? <==> ValidOperand(token, value)
    decreases value, 3
  {
    if (op == And || op == Or) && value.Array? {
      CompileEachOk(value, value.items, globalSearch, []);
    }
  }

  lemma {:induction false} CompileEachOk(parent: Value, items: seq<Value>, globalSearch: bool, acc: seq<Expr>)
    requires forall i | 0 <= i < |items| :: items[i] < parent
    ensures CompileEach(parent, items, globalSearch, acc).Ok? <==>
      forall i | 0 <= i < |items| :: ValidCondition(items[i])
    decreases parent, 1, |items|
  {
    if items != [] {
      BuildConditionObjectOk(items[0], globalSearch);
      match BuildConditionObject(items[0], globalSearch)
      case Err(_) =>
      case Ok(c) =>
        CompileEachOk(parent, items[1..], globalSearch, acc + [c]);
        assert forall i | 1 <= i < |items| :: items[i] == items[1..][i - 1];
    }
  }

  /** An entry of a compiled object for the property `prop`: the symbol whose token is the key, and its compiled operand. */
  predicate CompiledEntry(entry: (Key, Expr), prop: (string, Value), globalSearch: bool) {
    entry.0.Sym? && Token(entry.0.op) == prop.0 &&
    CompileOperand(entry.0.op, prop.1, globalSearch) == Ok(entry.1)
  }

  /** `entries` holds, position by position, the compiled entry for each property of `props`. */
  predicate CompiledEntries(entries: seq<(Key, Expr)>, props: seq<(string, Value)>, globalSearch: bool) {
    |entries| == |props| && forall i | 0 <= i < |props| :: CompiledEntry(entries[i], props[i], globalSearch)
  }

  /**
   * A compiled operator object holds exactly one entry per input operator,
   * in input order: the operator's symbol and its compiled operand.
   */
  lemma BuildConditionObjectEntries(conditions: Value, globalSearch: bool)
    requires conditions.Object? && DistinctKeys(conditions.props)
    requires BuildConditionObject(conditions, globalSearch).Ok?
    ensures CompiledEntries(BuildConditionObject(conditions, globalSearch).value.entries, conditions.props, globalSearch)
  {
    CompileOperatorsEntries(conditions, conditions.props, globalSearch, []);
    var entries := BuildConditionObject(conditions, globalSearch).value.entries;
    assert entries[0..] == entries;
  }

  /** The operators of `props` are new to `acc`. */
  predicate FreshOperators(props: seq<(string, Value)>, acc: seq<(Key, Expr)>) {
    forall i | 0 <= i < |props| :: OperatorOf(props[i].0).Some? ==> Sym(OperatorOf(props[i].0).value) !in KeysOf(acc)
  }

  lemma FreshOperatorsStep(props: seq<(string, Value)>, acc: seq<(Key, Expr)>, op: Op, c: Expr)
    requires |props| > 0 && DistinctKeys(props) && FreshOperators(props, acc)
    requires OperatorOf(props[0].0) == Some(op)
    ensures DistinctKeys(props[1..])
    ensures FreshOperators(props[1..], acc + [(Sym(op), c)])
  {
    var rest := props[1..];
    var acc' := acc + [(Sym(op), c)];
    assert KeysOf(acc') == KeysOf(acc) + [Sym(op)];
    assert forall i | 0 <= i < |rest| :: KeysOf(rest)[i] == KeysOf(props)[i + 1];
    forall i | 0 <= i < |rest| && OperatorOf(rest[i].0).Some?
      ensures Sym(OperatorOf(rest[i].0).value) !in KeysOf(acc')
    {
      assert rest[i] == props[i + 1];
      assert KeysOf(props)[0] != KeysOf(props)[i + 1];
    }
  }

  lemma {:induction false} CompileOperatorsEntries(parent: Value, props: seq<(string, Value)>, globalSearch: bool, acc: seq<(Key, Expr)>)
    requires forall i | 0 <= i < |props| :: props[i].1 < parent
    requires DistinctKeys(props) && FreshOperators(props, acc)
    requires CompileOperators(parent, props, globalSearch, acc).Ok?
    ensures var entries := CompileOperators(parent, props, globalSearch, acc).value.entries;
      |acc| <= |entries| && entries[..|acc|] == acc && CompiledEntries(entries[|acc|..], props, globalSearch)
    decreases |props|
  {
    var entries := CompileOperators(parent, props, globalSearch, acc).value.entries;
    if props == [] {
      assert entries == acc;
    } else {
      var op, c := CompileOperatorsStep(parent, props, globalSearch, acc);
      PutFresh(acc, Sym(op), c);
      var acc' := acc + [(Sym(op), c)];
      FreshOperatorsStep(props, acc, op, c);
      CompileOperatorsEntries(parent, props[1..], globalSearch, acc');
      CompiledEntriesCons(entries, acc, (Sym(op), c), props, globalSearch);
    }
  }

  /** One turn of the loop: the first property names an operator and its operand compiles. */
  lemma CompileOperatorsStep(parent: Value, props: seq<(string, Value)>, globalSearch: bool, acc: seq<(Key, Expr)>)
    returns (op: Op, c: Expr)
    requires |props| > 0
    requires forall i | 0 <= i < |props| :: props[i].1 < parent
    requires CompileOperators(parent, props, globalSearch, acc).Ok?
    ensures OperatorOf(props[0].0) == Some(op) && Token(op) == props[0].0
    ensures CompileOperand(op, props[0].1, globalSearch) == Ok(c)
    ensures CompileOperators(parent, props, globalSearch, acc) == CompileOperators(parent, props[1..], globalSearch, Put(acc, Sym(op), c))
  {
    op := OperatorOf(props[0].0).value;
    c := CompileOperand(op, props[0].1, globalSearch).value;
  }

  lemma CompiledEntriesCons(entries: seq<(Key, Expr)>, acc: seq<(Key, Expr)>, entry: (Key, Expr), props: seq<(string, Value)>, globalSearch: bool)
    requires |props| > 0
    requires |acc + [entry]| <= |entries| && entries[..|acc + [entry]|] == acc + [entry]
    requires CompiledEntry(entry, props[0], globalSearch)
    requires CompiledEntries(entries[|acc + [entry]|..], props[1..], globalSearch)
    ensures |acc| <= |entries| && entries[..|acc|] == acc
    ensures CompiledEntries(entries[|acc|..], props, globalSearch)
  {
    var n := |acc|;
    assert entries[..n] == (acc + [entry])[..n] == acc;
    assert entries[n] == entry;
    var es := entries[n..];
    forall i | 1 <= i < |props|
      ensures CompiledEntry(es[i], props[i], globalSearch)
    {
      assert es[i] == entries[n + 1..][i - 1];
      assert props[i] == props[1..][i - 1];
    }
  }
}
