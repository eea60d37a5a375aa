/**
 * `extractIncludes`: the join list a filter object implies. A key naming an
 * association (bare, or as the first segment of a dotted path) becomes an
 * include of that association's target, joined INNER when the join options
 * say so for that alias and LEFT otherwise; `and`/`or` keys contribute the
 * includes of each of their sub-filters.
 */
module Includes {
  import opened Wrappers
  import opened Errors
  import opened Collections
  import opened Json
  import opened Paths
  import opened Catalog
  import opened Sequelize
  import opened Projection

  /**
   * Whether the join options make the join on `alias` an INNER join:
   * `(joinOptions && joinOptions[alias]) === "INNER"`, which is also what
   * the `joinType` default of `"LEFT"` comes to.
   */
  predicate Inner(joinOptions: Option<Value>, alias: string) {
    joinOptions.Some? && Member(joinOptions.value, alias) == Some(Str("INNER"))
  }

  /** `extractIncludes(filters, model, joinOptions)`. */
  function ExtractIncludes(cat: Catalog, filters: Value, e: Entity, joinOptions: Option<Value>): (r: Outcome<seq<Include>>)
    ensures !Truthy(filters) ==> r == Ok([])
    decreases filters, 3, 0
  {
    if !Truthy(filters) then Ok([])
    else KeysFold(cat, filters, Entries(filters), e, joinOptions, [])
  }

  /** The loop over `Object.keys(filters)`, with `acc` the include list pushed so far. */
  function KeysFold(cat: Catalog, ghost parent: Value, props: seq<(string, Value)>, e: Entity, joinOptions: Option<Value>, acc: seq<Include>): (r: Outcome<seq<Include>>)
    requires forall i | 0 <= i < |props| :: props[i].1 < parent
    decreases parent, 2, |props|
  {
    if props == [] then Ok(acc)
    else
      match IncludesForKey(cat, props[0].0, props[0].1, e, joinOptions)
      case Err(err) => Err(err)
      case Ok(found) => KeysFold(cat, parent, props[1..], e, joinOptions, acc + found)
  }

  /**
   * The includes one key `field` with value `x` pushes. A dotted key
   * recurses on `{ [rest]: x }`, which is the key `rest` with the same value
   * (`SingleKeyObject` shows the two agree).
   */
  function IncludesForKey(cat: Catalog, field: string, x: Value, e: Entity, joinOptions: Option<Value>): (r: Outcome<seq<Include>>)
    decreases x, 4, |field|
  {
    if field == "and" || field == "or" then
      if x.Array? then EachIncludes(cat, x, x.items, e, joinOptions, []) else Err(TypeError)
    else if Dotted(field) then
      var associationName := Split(field)[0];
      match FindAssociation(e, associationName)
      case None => Ok([])
      case Some(a) =>
        var t := TargetOf(cat, a);
        DottedDecomposition(field);
        match IncludesForKey(cat, Rest(field), x, t, joinOptions)
        case Err(err) => Err(err)
        case Ok(nested) => Ok([Include(t.name, a.alias, Some(Inner(joinOptions, associationName)), [], nested)])
    else
      match FindAssociation(e, field)
      case None => Ok([])
      case Some(a) =>
        if a.associationType.Other? then Err(UnsupportedAssociationType(TypeName(a.associationType)))
        else
          var t := TargetOf(cat, a);
          match ExtractIncludes(cat, x, t, joinOptions)
          case Err(err) => Err(err)
          case Ok(nested) =>
            if x.Null? then Err(TypeError)
            else
              match Project(cat, t, Some(Keys(x)), [])
              case Err(err) => Err(err)
              case Ok(p) => Ok([Include(t.name, a.alias, Some(Inner(joinOptions, field)), p.attributes.value, nested)])
  }

  /** `filters[field].forEach(sub => include.push(...extractIncludes(sub, ...)))`. */
  function EachIncludes(cat: Catalog, ghost parent: Value, items: seq<Value>, e: Entity, joinOptions: Option<Value>, acc: seq<Include>): (r: Outcome<seq<Include>>)
    requires forall i | 0 <= i < |items| :: items[i] < parent
    decreases parent, 1, |items|
  {
    if items == [] then Ok(acc)
    else
      match ExtractIncludes(cat, items[0], e, joinOptions)
      case Err(err) => Err(err)
      case Ok(found) => EachIncludes(cat, parent, items[1..], e, joinOptions, acc + found)
  }

  /** `extractIncludes`, pushing onto its `include` list key by key. */
  method BuildIncludes(cat: Catalog, filters: Value, e: Entity, joinOptions: Option<Value>) returns (r: Outcome<seq<Include>>)
    ensures r == ExtractIncludes(cat, filters, e, joinOptions)
    decreases filters, 3, 0
  {
    var pushed: seq<Include> := [];
    if Truthy(filters) {
      var props := Entries(filters);
      var i := 0;
      assert props[0..] == props;
      while i < |props|
        invariant 0 <= i <= |props|
        invariant KeysFoldedUpTo(cat, filters, props, e, joinOptions, i, pushed)
      {
        var (field, x) := props[i];
        KeysNext(cat, filters, props, e, joinOptions, i, pushed);
        var found := IncludesFor(cat, field, x, e, joinOptions);
        if found.Err? {
          return Err(found.error);
        }
        pushed := pushed + found.value;
        i := i + 1;
      }
      assert props[i..] == [];
    }
    return Ok(pushed);
  }

  /** `acc` is what the loop over keys has pushed after the first `i` entries of `props`. */
  predicate KeysFoldedUpTo(cat: Catalog, parent: Value, props: seq<(string, Value)>, e: Entity, joinOptions: Option<Value>, i: nat, acc: seq<Include>)
    requires i <= |props| && forall k | 0 <= k < |props| :: props[k].1 < parent
  {
    KeysFold(cat, parent, props, e, joinOptions, []) == KeysFold(cat, parent, props[i..], e, joinOptions, acc)
  }

  /** One more key of the loop. */
  lemma KeysNext(cat: Catalog, parent: Value, props: seq<(string, Value)>, e: Entity, joinOptions: Option<Value>, i: nat, acc: seq<Include>)
    requires i < |props| && forall k | 0 <= k < |props| :: props[k].1 < parent
    requires KeysFoldedUpTo(cat, parent, props, e, joinOptions, i, acc)
    ensures IncludesForKey(cat, props[i].0, props[i].1, e, joinOptions).Err? ==>
      KeysFold(cat, parent, props, e, joinOptions, []) == Err(IncludesForKey(cat, props[i].0, props[i].1, e, joinOptions).error)
    ensures IncludesForKey(cat, props[i].0, props[i].1, e, joinOptions).Ok? ==>
      KeysFoldedUpTo(cat, parent, props, e, joinOptions, i + 1, acc + IncludesForKey(cat, props[i].0, props[i].1, e, joinOptions).value)
  {
    assert props[i..][0] == props[i] && props[i..][1..] == props[i + 1..];
  }

  /** `filters[field].forEach(...)` for an `and`/`or` key whose value is the array `x`. */
  method BuildEachIncludes(cat: Catalog, x: Value, e: Entity, joinOptions: Option<Value>) returns (r: Outcome<seq<Include>>)
    requires x.Array?
    ensures r == EachIncludes(cat, x, x.items, e, joinOptions, [])
    decreases x, 2
  {
    var items := x.items;
    var pushed: seq<Include> := [];
    var j := 0;
    assert items[0..] == items;
    while j < |items|
      invariant 0 <= j <= |items|
      invariant EachFoldedUpTo(cat, x, items, e, joinOptions, j, pushed)
    {
      EachNext(cat, x, items, e, joinOptions, j, pushed);
      var found := BuildIncludes(cat, items[j], e, joinOptions);
      if found.Err? {
        return Err(found.error);
      }
      pushed := pushed + found.value;
      j := j + 1;
    }
    assert items[j..] == [];
    return Ok(pushed);
  }

  /** `acc` is what the loop over sub-filters has pushed after the first `j` of `items`. */
  predicate EachFoldedUpTo(cat: Catalog, parent: Value, items: seq<Value>, e: Entity, joinOptions: Option<Value>, j: nat, acc: seq<Include>)
    requires j <= |items| && forall k | 0 <= k < |items| :: items[k] < parent
  {
    EachIncludes(cat, parent, items, e, joinOptions, []) == EachIncludes(cat, parent, items[j..], e, joinOptions, acc)
  }

  /** One more sub-filter of the loop. */
  lemma EachNext(cat: Catalog, parent: Value, items: seq<Value>, e: Entity, joinOptions: Option<Value>, j: nat, acc: seq<Include>)
    requires j < |items| && forall k | 0 <= k < |items| :: items[k] < parent
    requires EachFoldedUpTo(cat, parent, items, e, joinOptions, j, acc)
    ensures ExtractIncludes(cat, items[j], e, joinOptions).Err? ==>
      EachIncludes(cat, parent, items, e, joinOptions, []) == Err(ExtractIncludes(cat, items[j], e, joinOptions).error)
    ensures ExtractIncludes(cat, items[j], e, joinOptions).Ok? ==>
      EachFoldedUpTo(cat, parent, items, e, joinOptions, j + 1, acc + ExtractIncludes(cat, items[j], e, joinOptions).value)
  {
    assert items[j..][0] == items[j] && items[j..][1..] == items[j + 1..];
  }

  /** The body of the loop over keys, for one key `field` with value `x`. */
  method IncludesFor(cat: Catalog, field: string, x: Value, e: Entity, joinOptions: Option<Value>) returns (r: Outcome<seq<Include>>)
    ensures r == IncludesForKey(cat, field, x, e, joinOptions)
    decreases x, 4, |field|
  {
    if field == "and" || field == "or" {
      if !x.Array? {
        return Err(TypeError);
      }
      r := BuildEachIncludes(cat, x, e, joinOptions);
      return;
    } else if Dotted(field) {
      var associationName := Split(field)[0];
      var association := FindAssociation(e, associationName);
      if association.None? {
        return Ok([]);
      }
      var a := association.value;
      var t := TargetOf(cat, a);
      DottedDecomposition(field);
      var nested := IncludesFor(cat, Rest(field), x, t, joinOptions);
      if nested.Err? {
        return Err(nested.error);
      }
      return Ok([Include(t.name, a.alias, Some(Inner(joinOptions, associationName)), [], nested.value)]);
    } else {
      var association := FindAssociation(e, field);
      if association.None? {
        return Ok([]);
      }
      var a := association.value;
      if a.associationType.Other? {
        return Err(UnsupportedAssociationType(TypeName(a.associationType)));
      }
      var t := TargetOf(cat, a);
      var nested := BuildIncludes(cat, x, t, joinOptions);
      if nested.Err? {
        return Err(nested.error);
      }
      if x.Null? {
        return Err(TypeError);
      }
      var scratch := new IncludeList([]);
      var attributes := BuildAttributes(cat, t, Some(Keys(x)), scratch);
      if attributes.Err? {
        return Err(attributes.error);
      }
      return Ok([Include(t.name, a.alias, Some(Inner(joinOptions, field)), attributes.value.value, nested.value)]);
    }
  }

  // ---- The dotted-key recursion ----

  /** Extracting from `{ [field]: x }` is extracting for the one key `field`. */
  lemma SingleKeyObject(cat: Catalog, field: string, x: Value, e: Entity, joinOptions: Option<Value>)
    ensures ExtractIncludes(cat, Object([(field, x)]), e, joinOptions) == IncludesForKey(cat, field, x, e, joinOptions)
  {
    var v := Object([(field, x)]);
    assert Entries(v) == [(field, x)];
    assert Entries(v)[1..] == [];
    match IncludesForKey(cat, field, x, e, joinOptions)
    case Err(_) =>
    case Ok(found) =>
      assert KeysFold(cat, v, [], e, joinOptions, [] + found) == Ok([] + found);
      assert [] + found == found;
  }

  /**
   * A dotted key `alias.rest` whose first segment is an association alias
   * pushes exactly one include: that association's target, required exactly
   * when the join options mark the alias INNER, with no attributes, and
   * holding the includes of `{ [rest]: x }` on the target.
   */
  lemma DottedKeyInclude(cat: Catalog, field: string, x: Value, e: Entity, joinOptions: Option<Value>)
    requires field != "and" && field != "or" && Dotted(field)
    requires FindAssociation(e, Split(field)[0]).Some?
    requires ExtractIncludes(cat, Object([(field, x)]), e, joinOptions).Ok?
    ensures var a := FindAssociation(e, Split(field)[0]).value;
      var nested := ExtractIncludes(cat, Object([(Rest(field), x)]), TargetOf(cat, a), joinOptions);
      nested.Ok? &&
      ExtractIncludes(cat, Object([(field, x)]), e, joinOptions) ==
        Ok([Include(a.target, a.alias, Some(Inner(joinOptions, a.alias)), [], nested.value)])
  {
    var a := FindAssociation(e, Split(field)[0]).value;
    SingleKeyObject(cat, field, x, e, joinOptions);
    SingleKeyObject(cat, Rest(field), x, TargetOf(cat, a), joinOptions);
  }

  /**
   * A bare key naming an association of a supported type pushes exactly one
   * include: the target, required exactly when the join options mark the
   * alias INNER (LEFT otherwise), selecting the undotted keys of the
   * sub-filter, and holding the sub-filter's own includes.
   */
  lemma BareKeyInclude(cat: Catalog, field: string, x: Value, e: Entity, joinOptions: Option<Value>)
    requires field != "and" && field != "or" && !Dotted(field)
    requires FindAssociation(e, field).Some? && !FindAssociation(e, field).value.associationType.Other?
    requires ExtractIncludes(cat, Object([(field, x)]), e, joinOptions).Ok?
    ensures var a := FindAssociation(e, field).value;
      var nested := ExtractIncludes(cat, x, TargetOf(cat, a), joinOptions);
      nested.Ok? &&
      ExtractIncludes(cat, Object([(field, x)]), e, joinOptions) ==
        Ok([Include(a.target, a.alias, Some(Inner(joinOptions, a.alias)), Undotted(Keys(x)), nested.value)])
  {
    SingleKeyObject(cat, field, x, e, joinOptions);
  }

  /** A bare key naming an association of any other type is refused, naming the type. */
  lemma UnsupportedAssociationRejected(cat: Catalog, field: string, x: Value, e: Entity, joinOptions: Option<Value>)
    requires field != "and" && field != "or" && !Dotted(field)
    requires FindAssociation(e, field).Some? && FindAssociation(e, field).value.associationType.Other?
    ensures ExtractIncludes(cat, Object([(field, x)]), e, joinOptions) ==
      Err(UnsupportedAssociationType(FindAssociation(e, field).value.associationType.typeName))
  {
    SingleKeyObject(cat, field, x, e, joinOptions);
  }

  // ---- Every include is a well-formed join ----

  /**
   * `inc` joins the association registered under its alias on `e`: it
   * carries that association's target model, is required exactly when the
   * join options name its alias INNER, selects only undotted attributes, and
   * its nested includes are well-formed joins of the target.
   */
  predicate WellJoined(cat: Catalog, e: Entity, joinOptions: Option<Value>, inc: Include)
    decreases inc
  {
    FindAssociation(e, inc.alias).Some? &&
    inc.model == FindAssociation(e, inc.alias).value.target &&
    inc.required == Some(Inner(joinOptions, inc.alias)) &&
    (forall s | s in inc.attributes :: !Dotted(s)) &&
    forall j | 0 <= j < |inc.nested| :: WellJoined(cat, TargetOf(cat, FindAssociation(e, inc.alias).value), joinOptions, inc.nested[j])
  }

  predicate AllWellJoined(cat: Catalog, e: Entity, joinOptions: Option<Value>, items: seq<Include>) {
    forall i | 0 <= i < |items| :: WellJoined(cat, e, joinOptions, items[i])
  }

  lemma AllWellJoinedAppend(cat: Catalog, e: Entity, joinOptions: Option<Value>, a: seq<Include>, b: seq<Include>)
    requires AllWellJoined(cat, e, joinOptions, a) && AllWellJoined(cat, e, joinOptions, b)
    ensures AllWellJoined(cat, e, joinOptions, a + b)
  {
    assert forall i | |a| <= i < |a + b| :: (a + b)[i] == b[i - |a|];
  }

  /** Every include `extractIncludes` returns is a well-formed join of `e`. */
  lemma {:induction false} ExtractIncludesWellJoined(cat: Catalog, filters: Value, e: Entity, joinOptions: Option<Value>)
    requires ExtractIncludes(cat, filters, e, joinOptions).Ok?
    ensures AllWellJoined(cat, e, joinOptions, ExtractIncludes(cat, filters, e, joinOptions).value)
    decreases filters, 3, 0
  {
    if Truthy(filters) {
      KeysFoldWellJoined(cat, filters, Entries(filters), e, joinOptions, []);
    }
  }

  lemma {:induction false} KeysFoldWellJoined(cat: Catalog, parent: Value, props: seq<(string, Value)>, e: Entity, joinOptions: Option<Value>, acc: seq<Include>)
    requires forall i | 0 <= i < |props| :: props[i].1 < parent
    requires AllWellJoined(cat, e, joinOptions, acc)
    requires KeysFold(cat, parent, props, e, joinOptions, acc).Ok?
    ensures AllWellJoined(cat, e, joinOptions, KeysFold(cat, parent, props, e, joinOptions, acc).value)
    decreases parent, 2, |props|
  {
    if props != [] {
      var found := IncludesForKey(cat, props[0].0, props[0].1, e, joinOptions).value;
      IncludesForKeyWellJoined(cat, props[0].0, props[0].1, e, joinOptions);
      AllWellJoinedAppend(cat, e, joinOptions, acc, found);
      KeysFoldWellJoined(cat, parent, props[1..], e, joinOptions, acc + found);
    }
  }

  lemma {:induction false} IncludesForKeyWellJoined(cat: Catalog, field: string, x: Value, e: Entity, joinOptions: Option<Value>)
    requires IncludesForKey(cat, field, x, e, joinOptions).Ok?
    ensures AllWellJoined(cat, e, joinOptions, IncludesForKey(cat, field, x, e, joinOptions).value)
    decreases x, 4, |field|, 1
  {
    if field == "and" || field == "or" {
      EachWellJoined(cat, x, x.items, e, joinOptions, []);
    } else if Dotted(field) {
      DottedKeyWellJoined(cat, field, x, e, joinOptions);
    } else {
      PlainKeyWellJoined(cat, field, x, e, joinOptions);
    }
  }

  /** A dotted key joins its first segment's association, with the rest of the path nested inside. */
  lemma {:induction false} DottedKeyWellJoined(cat: Catalog, field: string, x: Value, e: Entity, joinOptions: Option<Value>)
    requires field != "and" && field != "or" && Dotted(field)
    requires IncludesForKey(cat, field, x, e, joinOptions).Ok?
    ensures AllWellJoined(cat, e, joinOptions, IncludesForKey(cat, field, x, e, joinOptions).value)
    decreases x, 4, |field|, 0
  {
    var associationName := Split(field)[0];
    if FindAssociation(e, associationName).Some? {
      var a := FindAssociation(e, associationName).value;
      var t := TargetOf(cat, a);
      DottedDecomposition(field);
      IncludesForKeyWellJoined(cat, Rest(field), x, t, joinOptions);
      var nested := IncludesForKey(cat, Rest(field), x, t, joinOptions).value;
      assert IncludesForKey(cat, field, x, e, joinOptions).value ==
        [Include(t.name, a.alias, Some(Inner(joinOptions, associationName)), [], nested)];
    }
  }

  /** An undotted key joins its association, selecting the sub-filter's keys and nesting its includes. */
  lemma {:induction false} PlainKeyWellJoined(cat: Catalog, field: string, x: Value, e: Entity, joinOptions: Option<Value>)
    requires field != "and" && field != "or" && !Dotted(field)
    requires IncludesForKey(cat, field, x, e, joinOptions).Ok?
    ensures AllWellJoined(cat, e, joinOptions, IncludesForKey(cat, field, x, e, joinOptions).value)
    decreases x, 4, |field|, 0
  {
    if FindAssociation(e, field).Some? {
      var a := FindAssociation(e, field).value;
      var t := TargetOf(cat, a);
      ExtractIncludesWellJoined(cat, x, t, joinOptions);
      var nested := ExtractIncludes(cat, x, t, joinOptions).value;
      var p := Project(cat, t, Some(Keys(x)), []).value;
      assert IncludesForKey(cat, field, x, e, joinOptions).value ==
        [Include(t.name, a.alias, Some(Inner(joinOptions, field)), p.attributes.value, nested)];
    }
  }

  lemma {:induction false} EachWellJoined(cat: Catalog, parent: Value, items: seq<Value>, e: Entity, joinOptions: Option<Value>, acc: seq<Include>)
    requires forall i | 0 <= i < |items| :: items[i] < parent
    requires AllWellJoined(cat, e, joinOptions, acc)
    requires EachIncludes(cat, parent, items, e, joinOptions, acc).Ok?
    ensures AllWellJoined(cat, e, joinOptions, EachIncludes(cat, parent, items, e, joinOptions, acc).value)
    decreases parent, 1, |items|
  {
    if items != [] {
      var found := ExtractIncludes(cat, items[0], e, joinOptions).value;
      ExtractIncludesWellJoined(cat, items[0], e, joinOptions);
      AllWellJoinedAppend(cat, e, joinOptions, acc, found);
      EachWellJoined(cat, parent, items[1..], e, joinOptions, acc + found);
    }
  }

  // ---- Includes are concatenated, never merged ----

  /** The ghost bound on a fold's entries plays no part in what it computes. */
  lemma {:induction false} KeysFoldParent(cat: Catalog, p: Value, q: Value, props: seq<(string, Value)>, e: Entity, joinOptions: Option<Value>, acc: seq<Include>)
    requires forall i | 0 <= i < |props| :: props[i].1 < p
    requires forall i | 0 <= i < |props| :: props[i].1 < q
    ensures KeysFold(cat, p, props, e, joinOptions, acc) == KeysFold(cat, q, props, e, joinOptions, acc)
    decreases |props|
  {
    if props != [] && IncludesForKey(cat, props[0].0, props[0].1, e, joinOptions).Ok? {
      var found := IncludesForKey(cat, props[0].0, props[0].1, e, joinOptions).value;
      KeysFoldParent(cat, p, q, props[1..], e, joinOptions, acc + found);
    }
  }

  /** Folding from a non-empty list only prefixes what folding from nothing gives. */
  lemma {:induction false} KeysFoldAcc(cat: Catalog, parent: Value, props: seq<(string, Value)>, e: Entity, joinOptions: Option<Value>, acc: seq<Include>)
    requires forall i | 0 <= i < |props| :: props[i].1 < parent
    ensures KeysFold(cat, parent, props, e, joinOptions, acc).Ok? == KeysFold(cat, parent, props, e, joinOptions, []).Ok?
    ensures KeysFold(cat, parent, props, e, joinOptions, acc).Err? ==>
      KeysFold(cat, parent, props, e, joinOptions, acc) == KeysFold(cat, parent, props, e, joinOptions, [])
    ensures KeysFold(cat, parent, props, e, joinOptions, acc).Ok? ==>
      KeysFold(cat, parent, props, e, joinOptions, acc).value == acc + KeysFold(cat, parent, props, e, joinOptions, []).value
    decreases |props|
  {
    if props == [] {
      assert acc + [] == acc;
    } else if IncludesForKey(cat, props[0].0, props[0].1, e, joinOptions).Ok? {
      var found := IncludesForKey(cat, props[0].0, props[0].1, e, joinOptions).value;
      KeysFoldAcc(cat, parent, props[1..], e, joinOptions, acc + found);
      KeysFoldAcc(cat, parent, props[1..], e, joinOptions, [] + found);
      assert [] + found == found;
      if KeysFold(cat, parent, props[1..], e, joinOptions, []).Ok? {
        AppendAssociative(acc, found, KeysFold(cat, parent, props[1..], e, joinOptions, []).value);
      }
    }
  }

  /** Folding over `a + b` folds over `a`, then over `b` from where `a` left off. */
  lemma {:induction false} KeysFoldAppend(cat: Catalog, parent: Value, a: seq<(string, Value)>, b: seq<(string, Value)>, e: Entity, joinOptions: Option<Value>, acc: seq<Include>)
    requires forall i | 0 <= i < |a + b| :: (a + b)[i].1 < parent
    requires forall i | 0 <= i < |a| :: a[i].1 < parent
    requires forall i | 0 <= i < |b| :: b[i].1 < parent
    ensures KeysFold(cat, parent, a + b, e, joinOptions, acc) ==
      match KeysFold(cat, parent, a, e, joinOptions, acc)
      case Err(err) => Err(err)
      case Ok(m) => KeysFold(cat, parent, b, e, joinOptions, m)
    decreases |a|
  {
    if a == [] {
      assert a + b == b;
    } else {
      assert (a + b)[0] == a[0] && (a + b)[1..] == a[1..] + b;
      if IncludesForKey(cat, a[0].0, a[0].1, e, joinOptions).Ok? {
        var found := IncludesForKey(cat, a[0].0, a[0].1, e, joinOptions).value;
        KeysFoldAppend(cat, parent, a[1..], b, e, joinOptions, acc + found);
      }
    }
  }

  /**
   * The includes of an object are those of its first entries followed by
   * those of the rest: an association filtered under two keys is joined
   * twice, and nothing is merged or de-duplicated.
   */
  lemma ExtractIncludesConcat(cat: Catalog, a: seq<(string, Value)>, b: seq<(string, Value)>, e: Entity, joinOptions: Option<Value>)
    requires ExtractIncludes(cat, Object(a), e, joinOptions).Ok?
    requires ExtractIncludes(cat, Object(b), e, joinOptions).Ok?
    ensures ExtractIncludes(cat, Object(a + b), e, joinOptions) ==
      Ok(ExtractIncludes(cat, Object(a), e, joinOptions).value + ExtractIncludes(cat, Object(b), e, joinOptions).value)
  {
    var v := Object(a + b);
    assert forall i | 0 <= i < |a| :: a[i] == (a + b)[i];
    assert forall i | 0 <= i < |b| :: b[i] == (a + b)[|a| + i];
    KeysFoldAppend(cat, v, a, b, e, joinOptions, []);
    KeysFoldParent(cat, v, Object(a), a, e, joinOptions, []);
    var m := KeysFold(cat, v, a, e, joinOptions, []).value;
    KeysFoldAcc(cat, v, b, e, joinOptions, m);
    KeysFoldParent(cat, v, Object(b), b, e, joinOptions, []);
  }

  /** A key with no dot is its own first segment. */
  lemma UndottedSplit(field: string)
    requires !Dotted(field)
    ensures Split(field) == [field]
  {
    SplitCount(field);
    JoinSplit(field);
  }

  /** A filter object none of whose keys is `and`, `or` or starts with an association alias implies no join. */
  lemma {:induction false} PlainFiltersNoIncludes(cat: Catalog, parent: Value, props: seq<(string, Value)>, e: Entity, joinOptions: Option<Value>)
    requires forall i | 0 <= i < |props| :: props[i].1 < parent
    requires forall i | 0 <= i < |props| :: props[i].0 != "and" && props[i].0 != "or" && FindAssociation(e, Split(props[i].0)[0]).None?
    ensures KeysFold(cat, parent, props, e, joinOptions, []) == Ok([])
    decreases |props|
  {
    if props != [] {
      var field := props[0].0;
      if !Dotted(field) {
        UndottedSplit(field);
      }
      assert IncludesForKey(cat, field, props[0].1, e, joinOptions) == Ok([]);
      var none: seq<Include> := [];
      assert none + none == none;
      PlainFiltersNoIncludes(cat, parent, props[1..], e, joinOptions);
    }
  }

  /** `extractIncludes` on such a filter object returns an empty include list. */
  lemma PlainObjectNoIncludes(cat: Catalog, props: seq<(string, Value)>, e: Entity, joinOptions: Option<Value>)
    requires forall i | 0 <= i < |props| :: props[i].0 != "and" && props[i].0 != "or" && FindAssociation(e, Split(props[i].0)[0]).None?
    ensures ExtractIncludes(cat, Object(props), e, joinOptions) == Ok([])
  {
    PlainFiltersNoIncludes(cat, Object(props), props, e, joinOptions);
  }
}
