/**
 * `buildSubqueries`: the subquery list of the plan. A filter value carrying
 * a raw `subquery` becomes `{ alias: field, subquery: literal }`, with the
 * same literal the where clause files under that field. A field of an
 * associated model becomes an `IN (SELECT DISTINCT ...)` literal over the
 * target model; its text embeds the compiled where object as JavaScript
 * renders an object, `[object Object]`.
 */
module Subqueries {
  import opened Wrappers
  import opened Errors
  import opened Collections
  import opened Json
  import opened Catalog
  import opened Sequelize
  import opened Filters
  import opened Includes

  /** The literal text for a subquery over the model `name`; `joined` when the sub-filter implies includes. */
  function SubqueryText(name: string, joined: bool): (sql: string)
    ensures var head := "(" + name + ".id IN (SELECT DISTINCT " + name + ".id FROM " + name;
      |head| + 2 <= |sql| && sql[..|head|] == head && sql[|sql| - 2..] == "))"
    ensures !joined ==> |sql| == 3 * |name| + 36
    ensures joined ==> |sql| >= 24 && sql[|sql| - 24..] == " WHERE [object Object]))"
  {
    "(" + name + ".id IN (SELECT DISTINCT " + name + ".id FROM " + name +
    (if joined then " AS " + name + " WHERE [object Object]" else "") + "))"
  }

  /** `conditions[field] || {}`: the sub-filter an association field carries. */
  function SubFilter(conditions: Value, field: string): Value {
    match Member(conditions, field)
    case Some(v) => if Truthy(v) then v else Object([])
    case None => Object([])
  }

  /** `buildSubqueries(filters, model, joinOptions)`. */
  function Subqueries(cat: Catalog, filters: Value, e: Entity, joinOptions: Option<Value>): (r: Outcome<seq<SubqueryEntry>>)
    ensures filters.Null? ==> r == Err(TypeError)
    ensures r.Ok? ==> forall s | s in r.value :: s.alias in Keys(filters) && s.subquery.Literal?
  {
    if filters.Null? then Err(TypeError)
    else
      SubqueryFoldAliases(cat, Entries(filters), e, joinOptions, []);
      SubqueryFold(cat, Entries(filters), e, joinOptions, [])
  }

  /** The loop over the entries of the filters, with `acc` the subqueries pushed so far. */
  function SubqueryFold(cat: Catalog, props: seq<(string, Value)>, e: Entity, joinOptions: Option<Value>, acc: seq<SubqueryEntry>): (r: Outcome<seq<SubqueryEntry>>)
  {
    if props == [] then Ok(acc)
    else
      match SubqueryFor(cat, props[0].0, props[0].1, e, joinOptions)
      case Err(err) => Err(err)
      case Ok(None) => SubqueryFold(cat, props[1..], e, joinOptions, acc)
      case Ok(Some(entry)) => SubqueryFold(cat, props[1..], e, joinOptions, acc + [entry])
  }

  /** The subquery one filter entry pushes, if any. */
  function SubqueryFor(cat: Catalog, field: string, conditions: Value, e: Entity, joinOptions: Option<Value>): (r: Outcome<Option<SubqueryEntry>>)
    ensures r.Ok? && r.value.Some? ==> r.value.value.alias == field && r.value.value.subquery.Literal?
    ensures IsSubqueryMarker(conditions) ==> r == Ok(Some(SubqueryEntry(field, SubqueryLiteral(conditions))))
  {
    if conditions.Null? then Err(TypeError)
    else if IsSubqueryMarker(conditions) then Ok(Some(SubqueryEntry(field, SubqueryLiteral(conditions))))
    else
      match FindAssociationHolding(cat, e, field)
      case None => Ok(None)
      case Some(a) =>
        var t := TargetOf(cat, a);
        var sub := SubFilter(conditions, field);
        match ExtractIncludes(cat, sub, t, joinOptions)
        case Err(err) => Err(err)
        case Ok(subqueryIncludes) =>
          match Conditions(cat, sub, t, false)
          case Err(err) => Err(err)
          case Ok(_) => Ok(Some(SubqueryEntry(field, Literal(SubqueryText(t.name, |subqueryIncludes| > 0)))))
  }

  /** `buildSubqueries`, pushing onto its list entry by entry. */
  method BuildSubqueries(cat: Catalog, filters: Value, e: Entity, joinOptions: Option<Value>) returns (r: Outcome<seq<SubqueryEntry>>)
    ensures r == Subqueries(cat, filters, e, joinOptions)
  {
    if filters.Null? {
      return Err(TypeError);
    }
    var props := Entries(filters);
    var subqueries: seq<SubqueryEntry> := [];
    var i := 0;
    assert props[0..] == props;
    while i < |props|
      invariant 0 <= i <= |props|
      invariant FoldedUpTo(cat, props, e, joinOptions, i, subqueries)
    {
      var (field, conditions) := props[i];
      FoldNext(cat, props, e, joinOptions, i, subqueries);
      var pushed := BuildSubquery(cat, field, conditions, e, joinOptions);
      if pushed.Err? {
        return Err(pushed.error);
      }
      if pushed.value.Some? {
        subqueries := subqueries + [pushed.value.value];
      }
      i := i + 1;
    }
    assert props[i..] == [];
    return Ok(subqueries);
  }

  /** `acc` is what the fold has pushed after the first `i` entries of `props`. */
  predicate FoldedUpTo(cat: Catalog, props: seq<(string, Value)>, e: Entity, joinOptions: Option<Value>, i: nat, acc: seq<SubqueryEntry>)
    requires i <= |props|
  {
    SubqueryFold(cat, props, e, joinOptions, []) == SubqueryFold(cat, props[i..], e, joinOptions, acc)
  }

  /** One more entry of the loop. */
  lemma FoldNext(cat: Catalog, props: seq<(string, Value)>, e: Entity, joinOptions: Option<Value>, i: nat, acc: seq<SubqueryEntry>)
    requires i < |props| && FoldedUpTo(cat, props, e, joinOptions, i, acc)
    ensures SubqueryFor(cat, props[i].0, props[i].1, e, joinOptions).Err? ==>
      SubqueryFold(cat, props, e, joinOptions, []) == Err(SubqueryFor(cat, props[i].0, props[i].1, e, joinOptions).error)
    ensures SubqueryFor(cat, props[i].0, props[i].1, e, joinOptions).Ok? ==>
      var pushed := SubqueryFor(cat, props[i].0, props[i].1, e, joinOptions).value;
      FoldedUpTo(cat, props, e, joinOptions, i + 1, if pushed.Some? then acc + [pushed.value] else acc)
  {
    assert props[i..][0] == props[i] && props[i..][1..] == props[i + 1..];
  }

  /** The body of the loop, for one filter entry. */
  method BuildSubquery(cat: Catalog, field: string, conditions: Value, e: Entity, joinOptions: Option<Value>) returns (r: Outcome<Option<SubqueryEntry>>)
    ensures r == SubqueryFor(cat, field, conditions, e, joinOptions)
  {
    if conditions.Null? {
      return Err(TypeError);
    }
    if IsSubqueryMarker(conditions) {
      return Ok(Some(SubqueryEntry(field, SubqueryLiteral(conditions))));
    }
    var association := FindAssociationHolding(cat, e, field);
    if association.None? {
      return Ok(None);
    }
    var t := TargetOf(cat, association.value);
    var sub := SubFilter(conditions, field);
    var subqueryIncludes := BuildIncludes(cat, sub, t, joinOptions);
    if subqueryIncludes.Err? {
      return Err(subqueryIncludes.error);
    }
    var subqueryWhere := BuildConditions(cat, sub, t, false);
    if subqueryWhere.Err? {
      return Err(subqueryWhere.error);
    }
    return Ok(Some(SubqueryEntry(field, Literal(SubqueryText(t.name, |subqueryIncludes.value| > 0)))));
  }

  /** A successful fold moves on to the rest of the entries, having pushed at most one entry for the first. */
  lemma SubqueryFoldStep(cat: Catalog, props: seq<(string, Value)>, e: Entity, joinOptions: Option<Value>, acc: seq<SubqueryEntry>)
    returns (acc': seq<SubqueryEntry>, pushed: Option<SubqueryEntry>)
    requires props != [] && SubqueryFold(cat, props, e, joinOptions, acc).Ok?
    ensures SubqueryFold(cat, props, e, joinOptions, acc) == SubqueryFold(cat, props[1..], e, joinOptions, acc')
    ensures acc' == if pushed.Some? then acc + [pushed.value] else acc
    ensures pushed.Some? ==> pushed.value.alias == props[0].0 && pushed.value.subquery.Literal?
    ensures IsSubqueryMarker(props[0].1) ==> pushed == Some(SubqueryEntry(props[0].0, SubqueryLiteral(props[0].1)))
  {
    pushed := SubqueryFor(cat, props[0].0, props[0].1, e, joinOptions).value;
    acc' := if pushed.Some? then acc + [pushed.value] else acc;
  }

  /** A successful fold keeps what it started from, at the front. */
  lemma {:induction false} SubqueryFoldKeeps(cat: Catalog, props: seq<(string, Value)>, e: Entity, joinOptions: Option<Value>, acc: seq<SubqueryEntry>)
    requires SubqueryFold(cat, props, e, joinOptions, acc).Ok?
    ensures |acc| <= |SubqueryFold(cat, props, e, joinOptions, acc).value|
    ensures SubqueryFold(cat, props, e, joinOptions, acc).value[..|acc|] == acc
  {
    if props != [] {
      var acc', pushed := SubqueryFoldStep(cat, props, e, joinOptions, acc);
      SubqueryFoldKeeps(cat, props[1..], e, joinOptions, acc');
      assert acc'[..|acc|] == acc;
    }
  }

  /** Everything the fold pushes is a literal filed under one of the entries' keys. */
  lemma {:induction false} SubqueryFoldAliases(cat: Catalog, props: seq<(string, Value)>, e: Entity, joinOptions: Option<Value>, acc: seq<SubqueryEntry>)
    ensures SubqueryFold(cat, props, e, joinOptions, acc).Ok? ==>
      forall s | s in SubqueryFold(cat, props, e, joinOptions, acc).value :: s in acc || (s.alias in KeysOf(props) && s.subquery.Literal?)
  {
    if props != [] && SubqueryFold(cat, props, e, joinOptions, acc).Ok? {
      var acc', pushed := SubqueryFoldStep(cat, props, e, joinOptions, acc);
      SubqueryFoldAliases(cat, props[1..], e, joinOptions, acc');
      assert KeysOf(props) == [props[0].0] + KeysOf(props[1..]);
    }
  }

  /** Every filter value carrying a raw subquery is in the list, under its field, with its literal. */
  lemma {:induction false} SubqueryFoldMarkers(cat: Catalog, props: seq<(string, Value)>, e: Entity, joinOptions: Option<Value>, acc: seq<SubqueryEntry>)
    requires SubqueryFold(cat, props, e, joinOptions, acc).Ok?
    ensures forall p | p in props && IsSubqueryMarker(p.1) ::
      SubqueryEntry(p.0, SubqueryLiteral(p.1)) in SubqueryFold(cat, props, e, joinOptions, acc).value
  {
    if props != [] {
      var r := SubqueryFold(cat, props, e, joinOptions, acc).value;
      var acc', pushed := SubqueryFoldStep(cat, props, e, joinOptions, acc);
      SubqueryFoldMarkers(cat, props[1..], e, joinOptions, acc');
      if IsSubqueryMarker(props[0].1) {
        SubqueryFoldKeeps(cat, props[1..], e, joinOptions, acc');
        assert r[..|acc'|][|acc|] == pushed.value;
      }
      assert forall p | p in props :: p == props[0] || p in props[1..] by {
        assert props == [props[0]] + props[1..];
      }
    }
  }

  /**
   * A field whose value carries a raw subquery gets the same literal in the
   * where clause and in the subquery list.
   */
  lemma MarkerAgrees(cat: Catalog, props: seq<(string, Value)>, i: nat, e: Entity, joinOptions: Option<Value>)
    requires DistinctKeys(props) && i < |props|
    requires props[i].0 != "__and" && props[i].0 != "__or" && IsSubqueryMarker(props[i].1)
    requires Conditions(cat, Object(props), e, false).Ok?
    requires Subqueries(cat, Object(props), e, joinOptions).Ok?
    ensures Lookup(Conditions(cat, Object(props), e, false).value.entries, Name(props[i].0)) == Some(SubqueryLiteral(props[i].1))
    ensures SubqueryEntry(props[i].0, SubqueryLiteral(props[i].1)) in Subqueries(cat, Object(props), e, joinOptions).value
  {
    FieldEntry(cat, props, i, e);
    SubqueryFoldMarkers(cat, props, e, joinOptions, []);
    assert props[i] in props;
  }
}
