/**
 * `buildConditions` and `buildGlobalSearchConditions`: the where-clause
 * compiler. Each filter key is either a logical group (`__and`/`__or`), a
 * field carrying a raw subquery, a column of the model, or a column of an
 * associated model (qualified as `$alias.field$` under `Op.and`); any other
 * key is dropped.
 */
module Filters {
  import opened Wrappers
  import opened Errors
  import opened Collections
  import opened Json
  import opened Catalog
  import opened Operators
  import opened Sequelize
  import opened ConditionObject

  /** `typeof v === "object" && v.subquery`: an object whose `subquery` member is truthy. */
  predicate IsSubqueryMarker(v: Value) {
    Member(v, "subquery").Some? && Truthy(Member(v, "subquery").value)
  }

  /** `sequelize.literal(`(${v.subquery})`)`. */
  function SubqueryLiteral(v: Value): (r: Expr)
    requires IsSubqueryMarker(v)
    ensures r.Literal? && |r.sql| >= 2 && r.sql[0] == '(' && r.sql[|r.sql| - 1] == ')'
  {
    Literal("(" + Text(Member(v, "subquery").value) + ")")
  }

  /** `{ [Op.like]: `%${v}%` }`: the condition global search builds for one filter value. */
  function LikeAny(v: Value): (r: Expr)
    ensures r.Record? && |r.entries| == 1 && r.entries[0].0 == Sym(Like) && r.entries[0].1.Pass?
    ensures var pattern := r.entries[0].1.value;
      pattern.Str? && |pattern.s| == |Text(v)| + 2 && pattern.s[0] == '%' && pattern.s[|pattern.s| - 1] == '%' &&
      pattern.s[1..|pattern.s| - 1] == Text(v)
  {
    Record([(Sym(Like), Pass(Str("%" + Text(v) + "%")))])
  }

  /** The key `$alias.field$` under which a condition on an associated model's column is filed. */
  function Qualified(alias: string, field: string): (k: string)
    ensures |k| == |alias| + |field| + 3 && k[0] == '$' && k[|k| - 1] == '$'
  {
    "$" + alias + "." + field + "$"
  }

  /** The conditions already listed under `Op.and`, or none. */
  function AndItems(where: seq<(Key, Expr)>): seq<Expr> {
    var listed := Lookup(where, Sym(And));
    if listed.Some? && listed.value.List? then listed.value.items else []
  }

  /** The result of `buildGlobalSearchConditions`: one `like` condition per filter value, in order. */
  function GlobalSearch(props: seq<(string, Value)>): (r: seq<Expr>)
    ensures |r| == |props|
  {
    if props == [] then [] else GlobalSearch(props[..|props| - 1]) + [LikeAny(props[|props| - 1].1)]
  }

  /**
   * `buildConditions(filters, model, globalSearch)`. `null` passes the
   * `typeof` test and then fails in `Object.entries`; any other non-object,
   * and any array, is refused.
   */
  function Conditions(cat: Catalog, filters: Value, e: Entity, globalSearch: bool): (r: Outcome<Expr>)
    ensures r.Ok? ==> r.value.Record?
    ensures filters.Null? ==> r == Err(TypeError)
    ensures !filters.Null? && !filters.Object? ==> r == Err(FiltersNotObject)
    decreases filters, 2
  {
    match filters
    case Null => Err(TypeError)
    case Object(props) =>
      if globalSearch then Ok(Record([(Sym(Or), List(GlobalSearch(props)))]))
      else
        (match FilterFold(cat, filters, props, e, [])
         case Ok(where) => Ok(Record(where))
         case Err(err) => Err(err))
    case _ => Err(FiltersNotObject)
  }

  /** The `for ... of Object.entries(filters)` loop, with `where` the object built so far. */
  function FilterFold(cat: Catalog, ghost parent: Value, props: seq<(string, Value)>, e: Entity, where: seq<(Key, Expr)>): (r: Outcome<seq<(Key, Expr)>>)
    requires forall i | 0 <= i < |props| :: props[i].1 < parent
    decreases parent, 1, |props|
  {
    if props == [] then Ok(where)
    else
      match FilterStep(cat, props[0].0, props[0].1, e, where)
      case Err(err) => Err(err)
      case Ok(where') => FilterFold(cat, parent, props[1..], e, where')
  }

  /** One turn of the loop: what the filter `field: value` does to `where`. */
  function FilterStep(cat: Catalog, field: string, value: Value, e: Entity, where: seq<(Key, Expr)>): (r: Outcome<seq<(Key, Expr)>>)
    decreases value, 3
  {
    if field == "__and" || field == "__or" then
      var op := if field == "__and" then And else Or;
      match value
      case Array(items) =>
        (match ConditionsEach(cat, value, items, e, [])
         case Ok(children) => Ok(Put(where, Sym(op), List(children)))
         case Err(err) => Err(err))
      case _ => Err(TypeError)
    else if value.Null? then Err(TypeError)
    else if IsSubqueryMarker(value) then Ok(Put(where, Name(field), SubqueryLiteral(value)))
    else if HasAttribute(e, field) then
      match BuildConditionObject(value, false)
      case Ok(c) => Ok(Put(where, Name(field), c))
      case Err(err) => Err(err)
    else
      match FindAssociationHolding(cat, e, field)
      case None => Ok(where)
      case Some(a) =>
        match BuildConditionObject(value, false)
        case Ok(c) =>
          Ok(Put(where, Sym(And), List(AndItems(where) + [Record([(Name(Qualified(a.alias, field)), c)])])))
        case Err(err) => Err(err)
  }

  /** `conditions.map(cond => buildConditions(cond, model, globalSearch))` inside a logical group. */
  function ConditionsEach(cat: Catalog, ghost parent: Value, items: seq<Value>, e: Entity, acc: seq<Expr>): (r: Outcome<seq<Expr>>)
    requires forall i | 0 <= i < |items| :: items[i] < parent
    ensures r.Ok? ==> |r.value| == |acc| + |items|
    decreases parent, 1, |items|
  {
    if items == [] then Ok(acc)
    else
      match Conditions(cat, items[0], e, false)
      case Err(err) => Err(err)
      case Ok(c) => ConditionsEach(cat, parent, items[1..], e, acc + [c])
  }

  /** `buildGlobalSearchConditions(filters)`, for an object's properties. */
  method BuildGlobalSearchConditions(props: seq<(string, Value)>) returns (conditions: seq<Expr>)
    ensures conditions == GlobalSearch(props)
  {
    conditions := [];
    var i := 0;
    while i < |props|
      invariant 0 <= i <= |props|
      invariant conditions == GlobalSearch(props[..i])
    {
      assert props[..i + 1][..i] == props[..i];
      conditions := conditions + [LikeAny(props[i].1)];
      i := i + 1;
    }
    assert props[..i] == props;
  }

  /** `buildConditions(filters, model, globalSearch)`, filling `where` key by key. */
  method BuildConditions(cat: Catalog, filters: Value, e: Entity, globalSearch: bool) returns (r: Outcome<Expr>)
    ensures r == Conditions(cat, filters, e, globalSearch)
    decreases filters, 2
  {
    if filters.Null? {
      return Err(TypeError);
    }
    if !filters.Object? {
      return Err(FiltersNotObject);
    }
    var props := filters.props;
    if globalSearch {
      var conditions := BuildGlobalSearchConditions(props);
      return Ok(Record([(Sym(Or), List(conditions))]));
    }
    var where: seq<(Key, Expr)> := [];
    var i := 0;
    while i < |props|
      invariant 0 <= i <= |props|
      invariant FilterFold(cat, filters, props, e, []) == FilterFold(cat, filters, props[i..], e, where)
    {
      var (field, value) := props[i];
      assert props[i..][0] == (field, value) && props[i..][1..] == props[i + 1..];
      var stepped := ApplyFilter(cat, field, value, e, where);
      if stepped.Err? {
        return Err(stepped.error);
      }
      where := stepped.value;
      i := i + 1;
    }
    return Ok(Record(where));
  }

  /** The body of the loop over the filters, for the entry `field: value`. */
  method ApplyFilter(cat: Catalog, field: string, value: Value, e: Entity, where: seq<(Key, Expr)>) returns (r: Outcome<seq<(Key, Expr)>>)
    ensures r == FilterStep(cat, field, value, e, where)
    decreases value, 3
  {
    if field == "__and" || field == "__or" {
      if !value.Array? {
        return Err(TypeError);
      }
      var children := BuildEach(cat, value, value.items, e);
      if children.Err? {
        return Err(children.error);
      }
      var op := if field == "__and" then And else Or;
      return Ok(Put(where, Sym(op), List(children.value)));
    }
    if value.Null? {
      return Err(TypeError);
    }
    if IsSubqueryMarker(value) {
      return Ok(Put(where, Name(field), SubqueryLiteral(value)));
    }
    if HasAttribute(e, field) {
      var c := BuildConditionObject(value, false);
      if c.Err? {
        return Err(c.error);
      }
      return Ok(Put(where, Name(field), c.value));
    }
    var association := FindAssociationHolding(cat, e, field);
    if association.None? {
      return Ok(where);
    }
    var c := BuildConditionObject(value, false);
    if c.Err? {
      return Err(c.error);
    }
    var qualified := Record([(Name(Qualified(association.value.alias, field)), c.value)]);
    return Ok(Put(where, Sym(And), List(AndItems(where) + [qualified])));
  }

  /** `conditions.map(cond => buildConditions(cond, model, globalSearch))` for a logical group. */
  method BuildEach(cat: Catalog, ghost parent: Value, items: seq<Value>, e: Entity) returns (r: Outcome<seq<Expr>>)
    requires forall i | 0 <= i < |items| :: items[i] < parent
    ensures r == ConditionsEach(cat, parent, items, e, [])
    decreases parent, 1
  {
    var children: seq<Expr> := [];
    var j := 0;
    while j < |items|
      invariant 0 <= j <= |items|
      invariant ConditionsEach(cat, parent, items, e, []) == ConditionsEach(cat, parent, items[j..], e, children)
    {
      assert items[j..][0] == items[j] && items[j..][1..] == items[j + 1..];
      var c := BuildConditions(cat, items[j], e, false);
      if c.Err? {
        return Err(c.error);
      }
      children := children + [c.value];
      j := j + 1;
    }
    return Ok(children);
  }

  // ----- Which filters compile -----

  /** An independent statement of which filter objects compile. */
  predicate ValidFilter(cat: Catalog, filters: Value, e: Entity, globalSearch: bool)
    decreases filters, 2
  {
    filters.Object? &&
    (globalSearch || forall i | 0 <= i < |filters.props| :: ValidFilterEntry(cat, filters.props[i].0, filters.props[i].1, e))
  }

  /**
   * A logical group needs an array of valid filter objects; any other key
   * needs a non-null value, and a condition object that compiles when the
   * key names a column of the model or of an associated model.
   */
  predicate ValidFilterEntry(cat: Catalog, field: string, value: Value, e: Entity)
    decreases value, 3
  {
    if field == "__and" || field == "__or" then
      value.Array? && forall j | 0 <= j < |value.items| :: ValidFilter(cat, value.items[j], e, false)
    else
      !value.Null? &&
      (IsSubqueryMarker(value) ||
       ((HasAttribute(e, field) || FindAssociationHolding(cat, e, field).Some?) ==> ValidCondition(value)))
  }

  /** `buildConditions` succeeds exactly on valid filter objects. */
  lemma {:induction false} ConditionsOk(cat: Catalog, filters: Value, e: Entity, globalSearch: bool)
    ensures Conditions(cat, filters, e, globalSearch).Ok? <==> ValidFilter(cat, filters, e, globalSearch)
    decreases filters, 2
  {
    if filters.Object? && !globalSearch {
      FilterFoldOk(cat, filters, filters.props, e, []);
    }
  }

  lemma {:induction false} FilterFoldOk(cat: Catalog, parent: Value, props: seq<(string, Value)>, e: Entity, where: seq<(Key, Expr)>)
    requires forall i | 0 <= i < |props| :: props[i].1 < parent
    ensures FilterFold(cat, parent, props, e, where).Ok? <==>
      forall i | 0 <= i < |props| :: ValidFilterEntry(cat, props[i].0, props[i].1, e)
    decreases parent, 1, |props|
  {
    if props != [] {
      FilterStepOk(cat, props[0].0, props[0].1, e, where);
      match FilterStep(cat, props[0].0, props[0].1, e, where)
      case Err(_) =>
      case Ok(where') =>
        FilterFoldOk(cat, parent, props[1..], e, where');
        assert forall i | 1 <= i < |props| :: props[i] == props[1..][i - 1];
    }
  }

  lemma {:induction false} FilterStepOk(cat: Catalog, field: string, value: Value, e: Entity, where: seq<(Key, Expr)>)
    ensures FilterStep(cat, field, value, e, where).Ok? <==> ValidFilterEntry(cat, field, value, e)
    decreases value, 3
  {
    if field == "__and" || field == "__or" {
      if value.Array? {
        ConditionsEachOk(cat, value, value.items, e, []);
      }
    } else if !value.Null? && !IsSubqueryMarker(value) {
      BuildConditionObjectOk(value, false);
    }
  }

  lemma {:induction false} ConditionsEachOk(cat: Catalog, parent: Value, items: seq<Value>, e: Entity, acc: seq<Expr>)
    requires forall i | 0 <= i < |items| :: items[i] < parent
    ensures ConditionsEach(cat, parent, items, e, acc).Ok? <==>
      forall i | 0 <= i < |items| :: ValidFilter(cat, items[i], e, false)
    decreases parent, 1, |items|
  {
    if items != [] {
      ConditionsOk(cat, items[0], e, false);
      match Conditions(cat, items[0], e, false)
      case Err(_) =>
      case Ok(c) =>
        ConditionsEachOk(cat, parent, items[1..], e, acc + [c]);
        assert forall i | 1 <= i < |items| :: items[i] == items[1..][i - 1];
    }
  }

  // ----- The fold, piece by piece -----

  /** The loop's result does not depend on which object its entries are ranked under. */
  lemma {:induction false} FilterFoldParent(cat: Catalog, p: Value, q: Value, props: seq<(string, Value)>, e: Entity, where: seq<(Key, Expr)>)
    requires forall i | 0 <= i < |props| :: props[i].1 < p
    requires forall i | 0 <= i < |props| :: props[i].1 < q
    ensures FilterFold(cat, p, props, e, where) == FilterFold(cat, q, props, e, where)
    decreases |props|
  {
    if props != [] {
      match FilterStep(cat, props[0].0, props[0].1, e, where)
      case Err(_) =>
      case Ok(where') => FilterFoldParent(cat, p, q, props[1..], e, where');
    }
  }

  /** Running the loop over `a + b` runs it over `a`, then over `b` from where it stopped. */
  lemma {:induction false} FilterFoldAppend(cat: Catalog, parent: Value, a: seq<(string, Value)>, b: seq<(string, Value)>, e: Entity, where: seq<(Key, Expr)>)
    requires forall i | 0 <= i < |a| :: a[i].1 < parent
    requires forall i | 0 <= i < |b| :: b[i].1 < parent
    ensures forall i | 0 <= i < |a + b| :: (a + b)[i].1 < parent
    ensures FilterFold(cat, parent, a + b, e, where) ==
      match FilterFold(cat, parent, a, e, where)
      case Ok(where') => FilterFold(cat, parent, b, e, where')
      case Err(err) => Err(err)
    decreases |a|
  {
    assert forall i | 0 <= i < |a + b| :: (a + b)[i] == if i < |a| then a[i] else b[i - |a|];
    if a == [] {
      assert a + b == b;
    } else {
      assert (a + b)[0] == a[0] && (a + b)[1..] == a[1..] + b;
      match FilterStep(cat, a[0].0, a[0].1, e, where)
      case Err(_) =>
      case Ok(where') => FilterFoldAppend(cat, parent, a[1..], b, e, where');
    }
  }

  /** A key that is no logical group, no subquery, and no column of the model or an associated model. */
  predicate Unknown(cat: Catalog, field: string, value: Value, e: Entity) {
    field != "__and" && field != "__or" && !value.Null? && !IsSubqueryMarker(value) &&
    !HasAttribute(e, field) && FindAssociationHolding(cat, e, field).None?
  }

  /** An unknown filter key contributes nothing to `where` and raises no error. */
  lemma UnknownFieldDropped(cat: Catalog, before: seq<(string, Value)>, field: string, value: Value, after: seq<(string, Value)>, e: Entity)
    requires Unknown(cat, field, value, e)
    ensures Conditions(cat, Object(before + [(field, value)] + after), e, false) ==
            Conditions(cat, Object(before + after), e, false)
  {
    var with := Object(before + [(field, value)] + after);
    var without := Object(before + after);
    SplicedBelow(before, field, value, after);
    FilterFoldDropsUnknown(cat, with, without, before, field, value, after, e);
  }

  /** The values around a spliced-in entry are below both filter objects. */
  lemma SplicedBelow(before: seq<(string, Value)>, field: string, value: Value, after: seq<(string, Value)>)
    ensures value < Object(before + [(field, value)] + after)
    ensures forall i | 0 <= i < |before| :: before[i].1 < Object(before + [(field, value)] + after) && before[i].1 < Object(before + after)
    ensures forall i | 0 <= i < |after| :: after[i].1 < Object(before + [(field, value)] + after) && after[i].1 < Object(before + after)
  {
    var with := before + [(field, value)] + after;
    var without := before + after;
    assert (field, value) in with;
    assert forall i | 0 <= i < |before| :: before[i] in with && before[i] in without;
    assert forall i | 0 <= i < |after| :: after[i] in with && after[i] in without;
  }

  lemma FilterFoldDropsUnknown(cat: Catalog, with: Value, without: Value, before: seq<(string, Value)>, field: string, value: Value, after: seq<(string, Value)>, e: Entity)
    requires Unknown(cat, field, value, e)
    requires value < with
    requires forall i | 0 <= i < |before| :: before[i].1 < with && before[i].1 < without
    requires forall i | 0 <= i < |after| :: after[i].1 < with && after[i].1 < without
    ensures forall i | 0 <= i < |before + [(field, value)] + after| :: (before + [(field, value)] + after)[i].1 < with
    ensures forall i | 0 <= i < |before + after| :: (before + after)[i].1 < without
    ensures FilterFold(cat, with, before + [(field, value)] + after, e, []) == FilterFold(cat, without, before + after, e, [])
  {
    var rest := [(field, value)] + after;
    assert before + [(field, value)] + after == before + rest;
    FilterFoldAppend(cat, with, before, rest, e, []);
    FilterFoldAppend(cat, without, before, after, e, []);
    FilterFoldParent(cat, with, without, before, e, []);
    match FilterFold(cat, with, before, e, [])
    case Err(_) =>
    case Ok(where) =>
      assert rest[0] == (field, value) && rest[1..] == after;
      assert FilterFold(cat, with, rest, e, where) == FilterFold(cat, with, after, e, where);
      FilterFoldParent(cat, with, without, after, e, where);
  }

  // ----- What lands under a field's own name -----

  /** A step for another key leaves the entry under `Name(field)` alone. */
  lemma FilterStepKeepsName(cat: Catalog, key: string, value: Value, e: Entity, where: seq<(Key, Expr)>, field: string)
    requires key != field
    requires FilterStep(cat, key, value, e, where).Ok?
    ensures Lookup(FilterStep(cat, key, value, e, where).value, Name(field)) == Lookup(where, Name(field))
  {
    var r := FilterStep(cat, key, value, e, where).value;
    if key == "__and" || key == "__or" {
      var op := if key == "__and" then And else Or;
      assert r == Put(where, Sym(op), List(ConditionsEach(cat, value, value.items, e, []).value));
    } else if IsSubqueryMarker(value) {
      assert r == Put(where, Name(key), SubqueryLiteral(value));
    } else if HasAttribute(e, key) {
      assert r == Put(where, Name(key), BuildConditionObject(value, false).value);
    } else if FindAssociationHolding(cat, e, key).Some? {
      var a := FindAssociationHolding(cat, e, key).value;
      var c := BuildConditionObject(value, false).value;
      assert r == Put(where, Sym(And), List(AndItems(where) + [Record([(Name(Qualified(a.alias, key)), c)])]));
    }
  }

  lemma {:induction false} FilterFoldKeepsName(cat: Catalog, parent: Value, props: seq<(string, Value)>, e: Entity, where: seq<(Key, Expr)>, field: string)
    requires forall i | 0 <= i < |props| :: props[i].1 < parent
    requires field !in KeysOf(props)
    requires FilterFold(cat, parent, props, e, where).Ok?
    ensures Lookup(FilterFold(cat, parent, props, e, where).value, Name(field)) == Lookup(where, Name(field))
    decreases |props|
  {
    if props != [] {
      assert KeysOf(props)[0] == props[0].0;
      assert KeysOf(props[1..]) == KeysOf(props)[1..];
      FilterStepKeepsName(cat, props[0].0, props[0].1, e, where, field);
      FilterFoldKeepsName(cat, parent, props[1..], e, FilterStep(cat, props[0].0, props[0].1, e, where).value, field);
    }
  }

  /** What `where[field]` holds once the filter `field: value` has been compiled, given what it held before. */
  function NamedEntry(cat: Catalog, field: string, value: Value, e: Entity, before: Option<Expr>): Option<Expr> {
    if IsSubqueryMarker(value) then Some(SubqueryLiteral(value))
    else if HasAttribute(e, field) && BuildConditionObject(value, false).Ok? then Some(BuildConditionObject(value, false).value)
    else before
  }

  lemma FilterStepSetsName(cat: Catalog, field: string, value: Value, e: Entity, where: seq<(Key, Expr)>)
    requires field != "__and" && field != "__or"
    requires FilterStep(cat, field, value, e, where).Ok?
    ensures Lookup(FilterStep(cat, field, value, e, where).value, Name(field)) ==
      NamedEntry(cat, field, value, e, Lookup(where, Name(field)))
  {
  }

  /** The mapped children of a logical group are the children compiled one by one, in order, after `acc`. */
  lemma {:induction false} ConditionsEachItems(cat: Catalog, parent: Value, items: seq<Value>, e: Entity, acc: seq<Expr>)
    requires forall i | 0 <= i < |items| :: items[i] < parent
    requires ConditionsEach(cat, parent, items, e, acc).Ok?
    ensures var r := ConditionsEach(cat, parent, items, e, acc).value;
      r[..|acc|] == acc && forall j | 0 <= j < |items| :: Conditions(cat, items[j], e, false) == Ok(r[|acc| + j])
    decreases |items|
  {
    if items != [] {
      var c := Conditions(cat, items[0], e, false).value;
      ConditionsEachItems(cat, parent, items[1..], e, acc + [c]);
      var r := ConditionsEach(cat, parent, items, e, acc).value;
      assert r[..|acc|] == r[..|acc| + 1][..|acc|];
      forall j | 1 <= j < |items|
        ensures Conditions(cat, items[j], e, false) == Ok(r[|acc| + j])
      {
        assert items[j] == items[1..][j - 1];
      }
    }
  }

  /**
   * A `__and` or `__or` key stores, under its operator, the list of its
   * children each compiled by `buildConditions` without global search, in
   * order; it needs an array.
   */
  lemma LogicalGroupEntry(cat: Catalog, field: string, value: Value, e: Entity, where: seq<(Key, Expr)>)
    requires field == "__and" || field == "__or"
    requires FilterStep(cat, field, value, e, where).Ok?
    ensures value.Array?
    ensures var group := Lookup(FilterStep(cat, field, value, e, where).value, Sym(if field == "__and" then And else Or));
      group.Some? && group.value.List? && |group.value.items| == |value.items| &&
      forall j | 0 <= j < |value.items| :: Conditions(cat, value.items[j], e, false) == Ok(group.value.items[j])
  {
    ConditionsEachItems(cat, value, value.items, e, []);
  }

  /**
   * In a compiled filter object, a key carrying a subquery holds its
   * literal, a column of the model holds its compiled condition object, and
   * no other key (logical group, associated column, unknown) is stored
   * under its own name.
   */
  lemma FieldEntry(cat: Catalog, props: seq<(string, Value)>, i: nat, e: Entity)
    requires DistinctKeys(props) && i < |props|
    requires props[i].0 != "__and" && props[i].0 != "__or"
    requires Conditions(cat, Object(props), e, false).Ok?
    ensures Lookup(Conditions(cat, Object(props), e, false).value.entries, Name(props[i].0)) ==
      NamedEntry(cat, props[i].0, props[i].1, e, None)
  {
    var parent := Object(props);
    var (field, value) := props[i];
    var a, b := props[..i], props[i + 1..];
    DistinctKeysAround(props, i);
    FieldEntrySplit(cat, parent, props, a, field, value, b, e);
  }

  lemma FieldEntrySplit(cat: Catalog, parent: Value, props: seq<(string, Value)>, a: seq<(string, Value)>, field: string, value: Value, b: seq<(string, Value)>, e: Entity)
    requires field != "__and" && field != "__or"
    requires field !in KeysOf(a) && field !in KeysOf(b)
    requires props == a + ([(field, value)] + b)
    requires forall j | 0 <= j < |props| :: props[j].1 < parent
    requires FilterFold(cat, parent, props, e, []).Ok?
    ensures Lookup(FilterFold(cat, parent, props, e, []).value, Name(field)) == NamedEntry(cat, field, value, e, None)
  {
    var rest := [(field, value)] + b;
    assert forall j | 0 <= j < |a| :: a[j] == props[j];
    assert forall j | 0 <= j < |rest| :: rest[j] == props[|a| + j];
    FilterFoldAppend(cat, parent, a, rest, e, []);
    var w1 := FilterFold(cat, parent, a, e, []).value;
    FilterFoldKeepsName(cat, parent, a, e, [], field);
    assert rest[0] == (field, value) && rest[1..] == b;
    var w2 := FilterStep(cat, field, value, e, w1).value;
    FilterStepSetsName(cat, field, value, e, w1);
    FilterFoldKeepsName(cat, parent, b, e, w2, field);
  }

  // ----- The `Op.and` list of associated-column conditions -----

  /** The condition a filter on an associated model's column contributes to `Op.and`, if any. */
  function AssociationItem(cat: Catalog, field: string, value: Value, e: Entity): seq<Expr> {
    if field == "__and" || field == "__or" || value.Null? || IsSubqueryMarker(value) || HasAttribute(e, field) then []
    else
      match FindAssociationHolding(cat, e, field)
      case None => []
      case Some(a) =>
        match BuildConditionObject(value, false)
        case Ok(c) => [Record([(Name(Qualified(a.alias, field)), c)])]
        case Err(_) => []
  }

  /** The associated-column conditions of a filter object, in key order. */
  function AssociationItems(cat: Catalog, props: seq<(string, Value)>, e: Entity): seq<Expr> {
    if props == [] then []
    else AssociationItem(cat, props[0].0, props[0].1, e) + AssociationItems(cat, props[1..], e)
  }

  /** One turn of the loop, when the whole loop succeeds. */
  lemma FilterFoldStep(cat: Catalog, parent: Value, props: seq<(string, Value)>, e: Entity, where: seq<(Key, Expr)>)
    returns (where': seq<(Key, Expr)>)
    requires props != []
    requires forall i | 0 <= i < |props| :: props[i].1 < parent
    requires FilterFold(cat, parent, props, e, where).Ok?
    ensures FilterStep(cat, props[0].0, props[0].1, e, where) == Ok(where')
    ensures FilterFold(cat, parent, props, e, where) == FilterFold(cat, parent, props[1..], e, where')
  {
    where' := FilterStep(cat, props[0].0, props[0].1, e, where).value;
  }

  /** `where[Op.and]` is the list `items`, and absent while that list is empty. */
  predicate AndListIs(where: seq<(Key, Expr)>, items: seq<Expr>) {
    Lookup(where, Sym(And)) == if items == [] then None else Some(List(items))
  }

  lemma FilterStepAndList(cat: Catalog, field: string, value: Value, e: Entity, where: seq<(Key, Expr)>, items: seq<Expr>)
    requires field != "__and"
    requires AndListIs(where, items)
    requires FilterStep(cat, field, value, e, where).Ok?
    ensures AndListIs(FilterStep(cat, field, value, e, where).value, items + AssociationItem(cat, field, value, e))
  {
    if AssociationItem(cat, field, value, e) == [] {
      assert items + [] == items;
    }
  }

  lemma {:induction false} FilterFoldAndList(cat: Catalog, parent: Value, props: seq<(string, Value)>, e: Entity, where: seq<(Key, Expr)>, items: seq<Expr>)
    requires forall i | 0 <= i < |props| :: props[i].1 < parent
    requires "__and" !in KeysOf(props)
    requires AndListIs(where, items)
    requires FilterFold(cat, parent, props, e, where).Ok?
    ensures AndListIs(FilterFold(cat, parent, props, e, where).value, items + AssociationItems(cat, props, e))
    decreases |props|
  {
    if props == [] {
      assert items + [] == items;
    } else {
      assert KeysOf(props)[0] == props[0].0;
      assert KeysOf(props[1..]) == KeysOf(props)[1..];
      var item := AssociationItem(cat, props[0].0, props[0].1, e);
      var where' := FilterFoldStep(cat, parent, props, e, where);
      FilterStepAndList(cat, props[0].0, props[0].1, e, where, items);
      FilterFoldAndList(cat, parent, props[1..], e, where', items + item);
      AppendAssociative(items, item, AssociationItems(cat, props[1..], e));
    }
  }

  /**
   * Without an explicit `__and` group, `where[Op.and]` lists exactly the
   * conditions on associated models' columns, each under `$alias.field$`,
   * in filter order, and is absent when there are none.
   */
  lemma AssociationConditions(cat: Catalog, props: seq<(string, Value)>, e: Entity)
    requires "__and" !in KeysOf(props)
    requires Conditions(cat, Object(props), e, false).Ok?
    ensures AndListIs(Conditions(cat, Object(props), e, false).value.entries, AssociationItems(cat, props, e))
  {
    FilterFoldAndList(cat, Object(props), props, e, [], []);
    assert [] + AssociationItems(cat, props, e) == AssociationItems(cat, props, e);
  }

  // ----- Global search -----

  lemma {:induction false} GlobalSearchItems(props: seq<(string, Value)>)
    ensures forall i | 0 <= i < |props| :: GlobalSearch(props)[i] == LikeAny(props[i].1)
  {
    if props != [] {
      var init := props[..|props| - 1];
      GlobalSearchItems(init);
      assert forall i | 0 <= i < |init| :: init[i] == props[i];
    }
  }

  /**
   * Under global search the where object is a single `Op.or` list holding
   * one `like %value%` condition per filter entry, in entry order: the
   * field names, the catalog and the model play no part, and nothing fails.
   */
  lemma GlobalSearchShape(cat: Catalog, props: seq<(string, Value)>, e: Entity)
    ensures Conditions(cat, Object(props), e, true).Ok?
    ensures var entries := Conditions(cat, Object(props), e, true).value.entries;
      |entries| == 1 && entries[0].0 == Sym(Or) && entries[0].1.List? &&
      |entries[0].1.items| == |props| &&
      forall i | 0 <= i < |props| :: entries[0].1.items[i] == LikeAny(props[i].1)
  {
    GlobalSearchItems(props);
  }
}
