/**
 * `buildQuery`: assembles the `findAll` options for a request. The model is
 * looked up first; then the where clause, the includes and the subqueries
 * are compiled from the filters, the projection extends the includes, and
 * the GROUP BY list, the HAVING clause, the order, pagination, aggregates
 * and subqueries complete the options object. `getTotalCount` strips
 * pagination from the same object before counting.
 */
module Query {
  import opened Wrappers
  import opened Errors
  import opened Json
  import opened Paths
  import opened Catalog
  import opened Sequelize
  import opened Filters
  import opened Includes
  import opened Projection
  import opened GroupBy
  import opened Aggregates
  import opened Subqueries

  /**
   * The options `buildQuery` destructures. An absent `filters`,
   * `pagination`, `sorting` or `having` is `Null`.
   */
  datatype Request = Request(
    modelName: string,
    filters: Value,
    pagination: Value,
    sorting: Value,
    groupBy: Option<seq<string>>,
    aggregates: Option<Value>,
    having: Value,
    joinOptions: Option<Value>,
    select: Option<seq<string>>,
    globalSearch: bool,
    transaction: Option<TransactionHandle>)

  /** The selected columns as `attributes` entries. */
  function Columns(names: seq<string>): (r: seq<Attr>)
    ensures |r| == |names| && forall i | 0 <= i < |r| :: r[i] == Column(names[i])
  {
    seq(|names|, i requires 0 <= i < |names| => Column(names[i]))
  }

  /** The aggregates as `attributes` entries. */
  function AggregateColumns(aggregates: seq<Aggregate>): (r: seq<Attr>)
    ensures |r| == |aggregates| && forall i | 0 <= i < |r| :: r[i] == Aggregated(aggregates[i])
  {
    seq(|aggregates|, i requires 0 <= i < |aggregates| => Aggregated(aggregates[i]))
  }

  /** `sorting ? [[sorting.field, sorting.direction]] : []`. */
  function Order(sorting: Value): (r: seq<(Option<Value>, Option<Value>)>)
    ensures |r| <= 1 && (|r| == 1 <==> Truthy(sorting))
    ensures |r| == 1 ==> r[0].0 == Member(sorting, "field") && r[0].1 == Member(sorting, "direction")
  {
    if Truthy(sorting) then [(Member(sorting, "field"), Member(sorting, "direction"))] else []
  }

  /** `buildQuery(options)`. */
  function Compile(cat: Catalog, req: Request): (r: Outcome<Plan>)
    ensures FindEntity(cat, req.modelName).None? ==> r == Err(ModelNotFound(req.modelName))
    ensures r.Ok? ==> r.value.order == Order(req.sorting) && r.value.transaction == req.transaction
  {
    match Assemble(cat, req)
    case Err(err) => Err(err)
    case Ok((base, subqueries)) => Complete(base, req, subqueries)
  }

  /**
   * The options object as `buildQuery` first creates it, with the
   * subqueries it adds at the end.
   */
  function Assemble(cat: Catalog, req: Request): (r: Outcome<(Plan, seq<SubqueryEntry>)>)
    ensures r.Ok? ==> r.value.0.order == Order(req.sorting) && r.value.0.transaction == req.transaction
    ensures r.Ok? ==> r.value.0.limit.None? && r.value.0.offset.None? && r.value.0.subqueries.None?
  {
    match FindEntity(cat, req.modelName)
    case None => Err(ModelNotFound(req.modelName))
    case Some(e) =>
      match Conditions(cat, req.filters, e, req.globalSearch)
      case Err(err) => Err(err)
      case Ok(where) =>
        match ExtractIncludes(cat, req.filters, e, req.joinOptions)
        case Err(err) => Err(err)
        case Ok(included) =>
          match Subqueries.Subqueries(cat, req.filters, e, req.joinOptions)
          case Err(err) => Err(err)
          case Ok(subqueries) =>
            match Project(cat, e, req.select, included)
            case Err(err) => Err(err)
            case Ok(projected) =>
              match GroupColumns(e, cat, req.groupBy, projected.attributes)
              case Err(err) => Err(err)
              case Ok(group) =>
                match BuildHavingConditions(req.having, req.aggregates)
                case Err(err) => Err(err)
                case Ok(having) =>
                  var attributes := if projected.attributes.Some? then Some(Columns(projected.attributes.value)) else None;
                  var base := Plan(attributes, where, projected.includes, Order(req.sorting), group, having, req.transaction, None, None, None);
                  Ok((base, subqueries))
  }

  /** The steps after the options object exists: pagination, aggregates, subqueries. */
  function Complete(base: Plan, req: Request, subqueries: seq<SubqueryEntry>): (r: Outcome<Plan>)
    ensures req.pagination.Null? ==> r == Err(TypeError)
    ensures r.Ok? ==> (r.value.whereClause == base.whereClause && r.value.includes == base.includes &&
      r.value.order == base.order && r.value.group == base.group && r.value.having == base.having &&
      r.value.transaction == base.transaction)
    ensures r.Ok? ==> r.value.subqueries == if |subqueries| > 0 then Some(subqueries) else base.subqueries
  {
    if req.pagination.Null? then Err(TypeError)
    else
      var paged := Paginate(base, req.pagination);
      match AppendAggregates(paged, req.aggregates)
      case Err(err) => Err(err)
      case Ok(aggregated) => Ok(if |subqueries| > 0 then aggregated.(subqueries := Some(subqueries)) else aggregated)
  }

  /** `limit` and `offset` are copied only when both are defined (a `null` counts as defined). */
  function Paginate(p: Plan, pagination: Value): (r: Plan)
    ensures r == p.(limit := r.limit, offset := r.offset)
    ensures Member(pagination, "limit").Some? && Member(pagination, "offset").Some? ==>
      r.limit == Member(pagination, "limit") && r.offset == Member(pagination, "offset")
    ensures Member(pagination, "limit").None? || Member(pagination, "offset").None? ==> r == p
  {
    var limit, offset := Member(pagination, "limit"), Member(pagination, "offset");
    if limit.Some? && offset.Some? then p.(limit := limit, offset := offset) else p
  }

  /** `if (aggregates) attributes.push(...buildAggregates(aggregates))`: a type error when there is no attribute list. */
  function AppendAggregates(p: Plan, aggregates: Option<Value>): (r: Outcome<Plan>)
    ensures r.Err? <==> aggregates.Some? && Truthy(aggregates.value) && p.attributes.None?
    ensures r.Ok? ==> r.value == p.(attributes := r.value.attributes)
    ensures r.Ok? && p.attributes.Some? ==> r.value.attributes.Some? && p.attributes.value <= r.value.attributes.value
  {
    if aggregates.None? || !Truthy(aggregates.value) then Ok(p)
    else if p.attributes.None? then Err(TypeError)
    else Ok(p.(attributes := Some(p.attributes.value + AggregateColumns(BuildAggregates(aggregates.value)))))
  }

  /** The mutable options object `buildQuery` returns and `getTotalCount` edits. */
  class QueryOptions {
    var attributes: Option<seq<Attr>>
    var whereClause: Expr
    var includes: seq<Include>
    var order: seq<(Option<Value>, Option<Value>)>
    var group: seq<string>
    var having: Option<Expr>
    var transaction: Option<TransactionHandle>
    var limit: Option<Value>
    var offset: Option<Value>
    var subqueries: Option<seq<SubqueryEntry>>

    /** The options as a value. */
    function View(): Plan
      reads this
    {
      Plan(attributes, whereClause, includes, order, group, having, transaction, limit, offset, subqueries)
    }

    /** `{ attributes, where, include, order, group, having, transaction }`. */
    constructor (p: Plan)
      ensures View() == p
    {
      attributes := p.attributes;
      whereClause := p.whereClause;
      includes := p.includes;
      order := p.order;
      group := p.group;
      having := p.having;
      transaction := p.transaction;
      limit := p.limit;
      offset := p.offset;
      subqueries := p.subqueries;
    }

    /** `if (pagination.limit !== undefined && pagination.offset !== undefined) { ... }`. */
    method SetPagination(pagination: Value)
      modifies this
      ensures View() == Paginate(old(View()), pagination)
    {
      var limit, offset := Member(pagination, "limit"), Member(pagination, "offset");
      if limit.Some? && offset.Some? {
        this.limit := limit;
        this.offset := offset;
      }
    }

    /** `if (aggregates) queryOptions.attributes.push(...)`; false where that push throws. */
    method PushAggregates(aggregates: Option<Value>) returns (ok: bool)
      modifies this
      ensures ok == AppendAggregates(old(View()), aggregates).Ok?
      ensures ok ==> View() == AppendAggregates(old(View()), aggregates).value
    {
      if aggregates.Some? && Truthy(aggregates.value) {
        if attributes.None? {
          return false;
        }
        attributes := Some(attributes.value + AggregateColumns(BuildAggregates(aggregates.value)));
      }
      return true;
    }

    /** `delete queryOptions.limit; delete queryOptions.offset;` in `getTotalCount`. */
    method StripPagination()
      modifies this
      ensures View() == old(View()).(limit := None, offset := None)
    {
      limit := None;
      offset := None;
    }
  }

  /** `buildQuery(options)`, building and then editing the options object. */
  method BuildQuery(cat: Catalog, req: Request) returns (r: Outcome<QueryOptions>)
    ensures r.Ok? <==> Compile(cat, req).Ok?
    ensures r.Err? ==> r.error == Compile(cat, req).error
    ensures r.Ok? ==> fresh(r.value) && r.value.View() == Compile(cat, req).value
  {
    var found := FindEntity(cat, req.modelName);
    if found.None? {
      return Err(ModelNotFound(req.modelName));
    }
    var e := found.value;
    var where := BuildConditions(cat, req.filters, e, req.globalSearch);
    if where.Err? {
      return Err(where.error);
    }
    var included := BuildIncludes(cat, req.filters, e, req.joinOptions);
    if included.Err? {
      return Err(included.error);
    }
    var subqueries := BuildSubqueries(cat, req.filters, e, req.joinOptions);
    if subqueries.Err? {
      return Err(subqueries.error);
    }
    var includeList := new IncludeList(included.value);
    var attributes := BuildAttributes(cat, e, req.select, includeList);
    if attributes.Err? {
      return Err(attributes.error);
    }
    var group := BuildGroupBy(e, cat, req.groupBy, attributes.value);
    if group.Err? {
      return Err(group.error);
    }
    var having := BuildHavingConditions(req.having, req.aggregates);
    if having.Err? {
      return Err(having.error);
    }
    var columns := if attributes.value.Some? then Some(Columns(attributes.value.value)) else None;
    var options := new QueryOptions(Plan(columns, where.value, includeList.items, Order(req.sorting), group.value, having.value, req.transaction, None, None, None));
    r := Finish(options, req, subqueries.value);
  }

  /** The edits after the options object exists. */
  method Finish(options: QueryOptions, req: Request, subqueries: seq<SubqueryEntry>) returns (r: Outcome<QueryOptions>)
    modifies options
    ensures r.Ok? <==> Complete(old(options.View()), req, subqueries).Ok?
    ensures r.Err? ==> r.error == Complete(old(options.View()), req, subqueries).error
    ensures r.Ok? ==> r.value == options && options.View() == Complete(old(options.View()), req, subqueries).value
  {
    if req.pagination.Null? {
      return Err(TypeError);
    }
    options.SetPagination(req.pagination);
    var pushed := options.PushAggregates(req.aggregates);
    if !pushed {
      return Err(TypeError);
    }
    if |subqueries| > 0 {
      options.subqueries := Some(subqueries);
    }
    return Ok(options);
  }

  // ---- Properties of the assembled plan ----

  /** An unknown model fails before anything is compiled, whatever the rest of the request. */
  lemma UnknownModelFirst(cat: Catalog, req: Request)
    requires forall e | e in cat :: e.name != req.modelName
    ensures Compile(cat, req) == Err(ModelNotFound(req.modelName))
  {
  }

  /** A compiled request's where clause, include list and subqueries are those its filters compile to. */
  lemma CompiledParts(cat: Catalog, req: Request)
    requires Compile(cat, req).Ok?
    ensures FindEntity(cat, req.modelName).Some?
    ensures var e := FindEntity(cat, req.modelName).value;
      Conditions(cat, req.filters, e, req.globalSearch) == Ok(Compile(cat, req).value.whereClause) &&
      ExtractIncludes(cat, req.filters, e, req.joinOptions).Ok? &&
      Subqueries.Subqueries(cat, req.filters, e, req.joinOptions).Ok? &&
      Extends(ExtractIncludes(cat, req.filters, e, req.joinOptions).value, Compile(cat, req).value.includes) &&
      (Compile(cat, req).value.subqueries.Some? <==> Subqueries.Subqueries(cat, req.filters, e, req.joinOptions).value != []) &&
      (Compile(cat, req).value.subqueries.Some? ==> Compile(cat, req).value.subqueries.value == Subqueries.Subqueries(cat, req.filters, e, req.joinOptions).value)
  {
    var e := FindEntity(cat, req.modelName).value;
    var included := ExtractIncludes(cat, req.filters, e, req.joinOptions).value;
    ProjectGrows(cat, e, req.select, included);
  }

  /** `limit` and `offset` are set together, and only when the pagination defines both. */
  lemma PaginationTogether(cat: Catalog, req: Request)
    requires Compile(cat, req).Ok?
    ensures Compile(cat, req).value.limit.Some? <==> Compile(cat, req).value.offset.Some?
    ensures Compile(cat, req).value.limit.Some? <==>
      Member(req.pagination, "limit").Some? && Member(req.pagination, "offset").Some?
    ensures Compile(cat, req).value.limit.Some? ==>
      Compile(cat, req).value.limit == Member(req.pagination, "limit") &&
      Compile(cat, req).value.offset == Member(req.pagination, "offset")
  {
    var (base, subqueries) := Assemble(cat, req).value;
    assert Compile(cat, req) == Complete(base, req, subqueries);
    var paged := Paginate(base, req.pagination);
    assert AppendAggregates(paged, req.aggregates).value.limit == paged.limit;
    assert AppendAggregates(paged, req.aggregates).value.offset == paged.offset;
  }

  /** The options carry, as `having`, the HAVING object compiled from the request, whatever the pagination and aggregates. */
  lemma CompiledHaving(cat: Catalog, req: Request)
    requires Compile(cat, req).Ok?
    ensures BuildHavingConditions(req.having, req.aggregates).Ok?
    ensures Compile(cat, req).value.having == BuildHavingConditions(req.having, req.aggregates).value
  {
    var (base, subqueries) := Assemble(cat, req).value;
    assert Compile(cat, req) == Complete(base, req, subqueries);
    var paged := Paginate(base, req.pagination);
    assert AppendAggregates(paged, req.aggregates).value.having == base.having;
  }

  /** The order holds one `[field, direction]` pair exactly when sorting is given. */
  lemma OrderFromSorting(cat: Catalog, req: Request)
    requires Compile(cat, req).Ok?
    ensures |Compile(cat, req).value.order| <= 1
    ensures |Compile(cat, req).value.order| == 1 <==> Truthy(req.sorting)
    ensures Truthy(req.sorting) ==> Compile(cat, req).value.order[0] == (Member(req.sorting, "field"), Member(req.sorting, "direction"))
  {
    var (base, subqueries) := Assemble(cat, req).value;
    assert Compile(cat, req) == Complete(base, req, subqueries);
    var paged := Paginate(base, req.pagination);
    assert AppendAggregates(paged, req.aggregates).value.order == paged.order == base.order;
  }

  /**
   * The selected attributes are the undotted select entries followed by the
   * aggregates; the GROUP BY list is computed from the select entries
   * alone, so no aggregate alias reaches it.
   */
  lemma AttributesThenAggregates(cat: Catalog, req: Request)
    requires Compile(cat, req).Ok?
    ensures FindEntity(cat, req.modelName).Some?
    ensures var e := FindEntity(cat, req.modelName).value;
      var selected := if req.select.Some? then Some(Undotted(req.select.value)) else None;
      GroupColumns(e, cat, req.groupBy, selected) == Ok(Compile(cat, req).value.group)
    ensures req.select.None? ==> Compile(cat, req).value.attributes.None?
    ensures req.select.Some? ==>
      Compile(cat, req).value.attributes ==
        Some(Columns(Undotted(req.select.value)) +
             (if req.aggregates.Some? && Truthy(req.aggregates.value) then AggregateColumns(BuildAggregates(req.aggregates.value)) else []))
  {
    var (base, subqueries) := Assemble(cat, req).value;
    AssembledSelection(cat, req);
    assert Compile(cat, req) == Complete(base, req, subqueries);
    var paged := Paginate(base, req.pagination);
    assert paged.attributes == base.attributes && paged.group == base.group;
    if req.select.Some? {
      var cs := Columns(Undotted(req.select.value));
      assert cs + [] == cs;
    }
  }

  /** The options object as first built selects the undotted select entries and groups by what they resolve to. */
  lemma AssembledSelection(cat: Catalog, req: Request)
    requires Assemble(cat, req).Ok?
    ensures FindEntity(cat, req.modelName).Some?
    ensures var e := FindEntity(cat, req.modelName).value;
      var selected := if req.select.Some? then Some(Undotted(req.select.value)) else None;
      GroupColumns(e, cat, req.groupBy, selected) == Ok(Assemble(cat, req).value.0.group) &&
      Assemble(cat, req).value.0.attributes == if req.select.Some? then Some(Columns(Undotted(req.select.value))) else None
  {
  }

  /** Aggregates without a select list fail: the attribute list they are pushed onto is undefined. */
  lemma AggregatesNeedSelect(cat: Catalog, req: Request)
    requires req.select.None? && req.aggregates.Some? && Truthy(req.aggregates.value)
    ensures Compile(cat, req).Ok? == false
  {
  }

  /** Two requests that differ only in their aggregates group by the same columns. */
  lemma GroupIgnoresAggregates(cat: Catalog, req: Request, aggregates: Option<Value>)
    requires Compile(cat, req).Ok? && Compile(cat, req.(aggregates := aggregates)).Ok?
    ensures Compile(cat, req).value.group == Compile(cat, req.(aggregates := aggregates)).value.group
  {
    AttributesThenAggregates(cat, req);
    AttributesThenAggregates(cat, req.(aggregates := aggregates));
  }

  /**
   * The options `getTotalCount` counts with are those of the same request
   * without pagination: stripping removes `limit` and `offset` and nothing
   * else.
   */
  lemma StripIsUnpaginated(cat: Catalog, req: Request)
    requires Compile(cat, req).Ok?
    ensures Compile(cat, req.(pagination := Object([]))).Ok?
    ensures Compile(cat, req.(pagination := Object([]))).value == Compile(cat, req).value.(limit := None, offset := None)
  {
    var unpaged := req.(pagination := Object([]));
    assert Assemble(cat, unpaged) == Assemble(cat, req);
    var (base, subqueries) := Assemble(cat, req).value;
    assert Compile(cat, req) == Complete(base, req, subqueries);
    assert Compile(cat, unpaged) == Complete(base, unpaged, subqueries);
    assert Paginate(base, Object([])) == base;
  }
}
