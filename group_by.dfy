/**
 * `buildGroupBy`: the GROUP BY column list. Each requested column and then
 * each selected field is resolved to a storage column (a raw attribute of
 * the model, or `alias.column` for a field of an associated model) and added
 * to a `Set`, so the result lists each column once, in order of first
 * appearance.
 */
module GroupBy {
  import opened Wrappers
  import opened Errors
  import opened Collections
  import opened Paths
  import opened Catalog

  /** The column one group-by or select entry stands for. */
  function ResolveColumn(e: Entity, cat: Catalog, col: string): Outcome<string> {
    match FindAttribute(e, col)
    case Some(attr) => Ok(StorageColumn(attr))
    case None =>
      if Dotted(col) then
        SplitCount(col);
        var parts := Split(col);
        var assocAlias, nestedField := parts[0], parts[1];
        match FindAssociation(e, assocAlias)
        case Some(a) =>
          var column := match FindAttribute(TargetOf(cat, a), nestedField)
            case Some(attr) => StorageColumn(attr)
            case None => nestedField;
          Ok(a.alias + "." + column)
        case None => Err(AssociationNotFound(assocAlias, e.name))
      else Err(FieldNotFound(col, e.name))
  }

  /**
   * An entry resolves when it is a raw attribute (to its storage column) or
   * a dotted name whose first segment is an association alias (to a column
   * under that alias); otherwise the error names the missing association
   * or field.
   */
  lemma ResolveColumnSpec(e: Entity, cat: Catalog, col: string)
    ensures ResolveColumn(e, cat, col).Ok? <==> HasAttribute(e, col) || (Dotted(col) && FindAssociation(e, Split(col)[0]).Some?)
    ensures HasAttribute(e, col) ==> ResolveColumn(e, cat, col) == Ok(StorageColumn(FindAttribute(e, col).value))
    ensures ResolveColumn(e, cat, col).Ok? && !HasAttribute(e, col) ==>
      var alias := FindAssociation(e, Split(col)[0]).value.alias;
      |alias| < |ResolveColumn(e, cat, col).value| && ResolveColumn(e, cat, col).value[..|alias| + 1] == alias + "."
    ensures ResolveColumn(e, cat, col).Err? && Dotted(col) ==> ResolveColumn(e, cat, col).error == AssociationNotFound(Split(col)[0], e.name)
    ensures ResolveColumn(e, cat, col).Err? && !Dotted(col) ==> ResolveColumn(e, cat, col).error == FieldNotFound(col, e.name)
  {
    if !HasAttribute(e, col) && Dotted(col) {
      SplitCount(col);
      var parts := Split(col);
      match FindAssociation(e, parts[0])
      case Some(a) =>
        var column := match FindAttribute(TargetOf(cat, a), parts[1])
          case Some(attr) => StorageColumn(attr)
          case None => parts[1];
        assert (a.alias + "." + column)[..|a.alias| + 1] == a.alias + ".";
      case None =>
    }
  }

  /** Each entry resolved in order; the first that fails is the error. */
  function ResolveAll(e: Entity, cat: Catalog, cols: seq<string>): (r: Outcome<seq<string>>)
    ensures r.Ok? ==> |r.value| == |cols|
  {
    if cols == [] then Ok([])
    else
      match ResolveColumn(e, cat, cols[0])
      case Err(err) => Err(err)
      case Ok(c) => Prepend([c], ResolveAll(e, cat, cols[1..]))
  }

  /** The columns `prefix` resolved to, in front of the resolution of what follows. */
  function Prepend(prefix: seq<string>, r: Outcome<seq<string>>): Outcome<seq<string>> {
    match r
    case Err(err) => Err(err)
    case Ok(rest) => Ok(prefix + rest)
  }

  /** `buildGroupBy(model, groupByFields, selectFields)`. */
  function GroupColumns(e: Entity, cat: Catalog, groupBy: Option<seq<string>>, select: Option<seq<string>>): Outcome<seq<string>> {
    match ResolveAll(e, cat, groupBy.GetOr([]) + select.GetOr([]))
    case Err(err) => Err(err)
    case Ok(resolved) => Ok(Dedup(resolved))
  }

  /** `buildGroupBy`, with the `Set` as a set of seen columns beside the list of them in insertion order. */
  method BuildGroupBy(e: Entity, cat: Catalog, groupByFields: Option<seq<string>>, selectFields: Option<seq<string>>) returns (r: Outcome<seq<string>>)
    ensures r == GroupColumns(e, cat, groupByFields, selectFields)
  {
    var cols, selected := groupByFields.GetOr([]), selectFields.GetOr([]);
    ResolveAllAppend(e, cat, cols, selected);
    var added, seen := AddColumns(e, cat, cols, {}, [], []);
    if added.Err? {
      return added;
    }
    ghost var resolved := ResolveAll(e, cat, cols).value;
    assert [] + resolved == resolved;
    r, seen := AddColumns(e, cat, selected, seen, added.value, resolved);
  }

  /**
   * One `forEach` block: adds the columns of `cols` to the set `seen0` and
   * the list `groupBy0`, which hold the columns `resolved0` once each.
   */
  method AddColumns(e: Entity, cat: Catalog, cols: seq<string>, seen0: set<string>, groupBy0: seq<string>, ghost resolved0: seq<string>)
    returns (r: Outcome<seq<string>>, seen: set<string>)
    requires groupBy0 == Dedup(resolved0)
    requires forall c :: c in seen0 <==> c in groupBy0
    ensures r.Err? <==> ResolveAll(e, cat, cols).Err?
    ensures r.Err? ==> r == Err(ResolveAll(e, cat, cols).error)
    ensures r.Ok? ==> r.value == Dedup(resolved0 + ResolveAll(e, cat, cols).value)
    ensures r.Ok? ==> forall c :: c in seen <==> c in r.value
  {
    seen := seen0;
    var groupBy := groupBy0;
    ghost var resolved: seq<string> := [];
    var i := 0;
    assert resolved0 + resolved == resolved0 && cols[0..] == cols;
    if ResolveAll(e, cat, cols).Ok? {
      assert [] + ResolveAll(e, cat, cols).value == ResolveAll(e, cat, cols).value;
    }
    assert ResolvedUpTo(e, cat, cols, 0, resolved);
    while i < |cols|
      invariant 0 <= i <= |cols|
      invariant ResolvedUpTo(e, cat, cols, i, resolved)
      invariant groupBy == Dedup(resolved0 + resolved)
      invariant forall c :: c in seen <==> c in groupBy
    {
      var column := ResolveColumn(e, cat, cols[i]);
      ResolveStep(e, cat, cols, i, resolved, resolved0);
      if column.Err? {
        return Err(column.error), seen;
      }
      resolved := resolved + [column.value];
      if column.value !in seen {
        seen := seen + {column.value};
        groupBy := groupBy + [column.value];
      }
      i := i + 1;
    }
    assert cols[i..] == [];
    assert resolved + [] == resolved;
    assert ResolvedUpTo(e, cat, cols, i, resolved);
    return Ok(groupBy), seen;
  }

  /** `resolved` are the columns the first `i` entries of `cols` resolve to, and the rest are still to come. */
  predicate ResolvedUpTo(e: Entity, cat: Catalog, cols: seq<string>, i: nat, resolved: seq<string>)
    requires i <= |cols|
  {
    ResolveAll(e, cat, cols) == Prepend(resolved, ResolveAll(e, cat, cols[i..]))
  }

  /** One more entry of `cols` resolved, with its effect on the de-duplicated list. */
  lemma ResolveStep(e: Entity, cat: Catalog, cols: seq<string>, i: nat, resolved: seq<string>, resolved0: seq<string>)
    requires i < |cols| && ResolvedUpTo(e, cat, cols, i, resolved)
    ensures ResolveColumn(e, cat, cols[i]).Err? ==> ResolveAll(e, cat, cols) == Err(ResolveColumn(e, cat, cols[i]).error)
    ensures ResolveColumn(e, cat, cols[i]).Ok? ==>
      var c := ResolveColumn(e, cat, cols[i]).value;
      ResolvedUpTo(e, cat, cols, i + 1, resolved + [c]) &&
      Dedup(resolved0 + (resolved + [c])) ==
        if c in Dedup(resolved0 + resolved) then Dedup(resolved0 + resolved) else Dedup(resolved0 + resolved) + [c]
  {
    assert cols[i..][0] == cols[i] && cols[i..][1..] == cols[i + 1..];
    if ResolveColumn(e, cat, cols[i]).Ok? {
      var c := ResolveColumn(e, cat, cols[i]).value;
      PrependTwice(resolved, [c], ResolveAll(e, cat, cols[i + 1..]));
      DedupSnoc(resolved0 + resolved, c);
      AppendAssociative(resolved0, resolved, [c]);
    }
  }

  lemma PrependTwice(a: seq<string>, b: seq<string>, r: Outcome<seq<string>>)
    ensures Prepend(a, Prepend(b, r)) == Prepend(a + b, r)
  {
    if r.Ok? {
      AppendAssociative(a, b, r.value);
    }
  }

  /** Resolving `a + b` resolves `a` first: a failure there is the result, otherwise `b` follows. */
  lemma {:induction false} ResolveAllAppend(e: Entity, cat: Catalog, a: seq<string>, b: seq<string>)
    ensures ResolveAll(e, cat, a).Err? ==> ResolveAll(e, cat, a + b) == ResolveAll(e, cat, a)
    ensures ResolveAll(e, cat, a).Ok? ==> ResolveAll(e, cat, a + b) == Prepend(ResolveAll(e, cat, a).value, ResolveAll(e, cat, b))
  {
    if a == [] {
      assert a + b == b;
      if ResolveAll(e, cat, b).Ok? {
        assert [] + ResolveAll(e, cat, b).value == ResolveAll(e, cat, b).value;
      }
    } else {
      assert (a + b)[0] == a[0] && (a + b)[1..] == a[1..] + b;
      ResolveAllAppend(e, cat, a[1..], b);
      if ResolveColumn(e, cat, a[0]).Ok? && ResolveAll(e, cat, a[1..]).Ok? {
        PrependTwice([ResolveColumn(e, cat, a[0]).value], ResolveAll(e, cat, a[1..]).value, ResolveAll(e, cat, b));
      }
    }
  }

  /** The resolution succeeds exactly when every entry resolves, and then entry by entry. */
  lemma {:induction false} ResolveAllOk(e: Entity, cat: Catalog, cols: seq<string>)
    ensures ResolveAll(e, cat, cols).Ok? <==> forall c | c in cols :: ResolveColumn(e, cat, c).Ok?
    ensures ResolveAll(e, cat, cols).Ok? ==> forall i | 0 <= i < |cols| :: ResolveAll(e, cat, cols).value[i] == ResolveColumn(e, cat, cols[i]).value
  {
    if cols != [] {
      var rest := cols[1..];
      ResolveAllOk(e, cat, rest);
      var head := ResolveColumn(e, cat, cols[0]);
      assert ResolveAll(e, cat, cols) == if head.Err? then Err(head.error) else Prepend([head.value], ResolveAll(e, cat, rest));
      assert cols == [cols[0]] + rest;
      if ResolveAll(e, cat, cols).Ok? {
        forall i | 1 <= i < |cols|
          ensures ResolveAll(e, cat, cols).value[i] == ResolveColumn(e, cat, cols[i]).value
        {
          assert cols[i] == rest[i - 1];
        }
      } else if head.Ok? {
        var c :| c in rest && ResolveColumn(e, cat, c).Err?;
        assert c in cols;
      }
    }
  }

  /**
   * The GROUP BY list names each column once; it holds exactly the columns
   * the entries resolve to; and it fails exactly when some entry names
   * neither a raw attribute nor an association's field.
   */
  lemma GroupColumnsSpec(e: Entity, cat: Catalog, groupBy: Option<seq<string>>, select: Option<seq<string>>)
    ensures GroupColumns(e, cat, groupBy, select).Ok? <==>
      forall c | c in groupBy.GetOr([]) + select.GetOr([]) :: ResolveColumn(e, cat, c).Ok?
    ensures GroupColumns(e, cat, groupBy, select).Ok? ==> NoDup(GroupColumns(e, cat, groupBy, select).value)
    ensures GroupColumns(e, cat, groupBy, select).Ok? ==>
      forall x :: x in GroupColumns(e, cat, groupBy, select).value <==>
        exists c | c in groupBy.GetOr([]) + select.GetOr([]) :: ResolveColumn(e, cat, c) == Ok(x)
  {
    var cols := groupBy.GetOr([]) + select.GetOr([]);
    ResolveAllOk(e, cat, cols);
    if ResolveAll(e, cat, cols).Ok? {
      var resolved := ResolveAll(e, cat, cols).value;
      DedupNoDup(resolved);
      forall x
        ensures x in resolved <==> exists c | c in cols :: ResolveColumn(e, cat, c) == Ok(x)
      {
        if x in resolved {
          var i :| 0 <= i < |resolved| && resolved[i] == x;
          assert cols[i] in cols;
        }
        if exists c | c in cols :: ResolveColumn(e, cat, c) == Ok(x) {
          var c :| c in cols && ResolveColumn(e, cat, c) == Ok(x);
          var i :| 0 <= i < |cols| && cols[i] == c;
          assert resolved[i] == x;
        }
      }
    }
  }

  /** The explicit GROUP BY columns come first, in their own order, before any selected field. */
  lemma GroupColumnsFirst(e: Entity, cat: Catalog, groupBy: seq<string>, select: Option<seq<string>>)
    requires GroupColumns(e, cat, Some(groupBy), select).Ok?
    ensures ResolveAll(e, cat, groupBy).Ok?
    ensures |Dedup(ResolveAll(e, cat, groupBy).value)| <= |GroupColumns(e, cat, Some(groupBy), select).value|
    ensures GroupColumns(e, cat, Some(groupBy), select).value[..|Dedup(ResolveAll(e, cat, groupBy).value)|] == Dedup(ResolveAll(e, cat, groupBy).value)
  {
    ResolveAllAppend(e, cat, groupBy, select.GetOr([]));
    DedupPrefix(ResolveAll(e, cat, groupBy).value, ResolveAll(e, cat, select.GetOr([])).value);
  }
}
