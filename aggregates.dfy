/**
 * `buildAggregates` and `buildHavingConditions`: the aggregate columns a
 * request selects, each under the alias `${fn}_${field}`, and the HAVING
 * object, whose keys must be such aliases.
 */
module Aggregates {
  import opened Wrappers
  import opened Errors
  import opened Collections
  import opened Json
  import opened Sequelize
  import opened ConditionObject

  /** The alias `${fn}_${field}` an aggregate is selected under. */
  function AggregateAlias(fn: string, field: Value): (k: string)
    ensures |k| == |fn| + 1 + |Text(field)| && k[..|fn|] == fn && k[|fn|] == '_' && k[|fn| + 1..] == Text(field)
  {
    fn + "_" + Text(field)
  }

  /**
   * `buildAggregates(aggregates)`: one `[fn(name, col(field)), alias]` per
   * entry of an object (or array); nothing for anything else.
   */
  function BuildAggregates(aggregates: Value): (r: seq<Aggregate>)
    ensures !aggregates.Object? && !aggregates.Array? ==> r == []
    ensures |r| == |Entries(aggregates)|
    ensures forall i | 0 <= i < |r| :: r[i].fn == Entries(aggregates)[i].0 && r[i].column == Entries(aggregates)[i].1
  {
    if !Truthy(aggregates) || !(aggregates.Object? || aggregates.Array?) then []
    else
      var es := Entries(aggregates);
      seq(|es|, i requires 0 <= i < |es| => Aggregate(es[i].0, es[i].1, AggregateAlias(es[i].0, es[i].1)))
  }

  /** `Object.entries(aggregates).find(([key, value]) => `${key}_${value}` === field)` finds an entry. */
  predicate IsAggregateAlias(field: string, aggregates: Value) {
    exists i | 0 <= i < |Entries(aggregates)| :: AggregateAlias(Entries(aggregates)[i].0, Entries(aggregates)[i].1) == field
  }

  /**
   * `buildHavingConditions(having, model, aggregates)`: absent unless
   * `having` is a plain object; otherwise one compiled condition object per
   * key. Reading the entries of absent aggregates is a type error.
   */
  function BuildHavingConditions(having: Value, aggregates: Option<Value>): (r: Outcome<Option<Expr>>)
    ensures !having.Object? ==> r == Ok(None)
    ensures having.Object? && r.Ok? ==> r.value.Some? && r.value.value.Record?
  {
    if !having.Object? then Ok(None)
    else
      match HavingFold(having.props, aggregates, [])
      case Err(err) => Err(err)
      case Ok(conditions) => Ok(Some(Record(conditions)))
  }

  /** The loop over the entries of `having`, with `acc` the conditions so far. */
  function HavingFold(props: seq<(string, Value)>, aggregates: Option<Value>, acc: seq<(Key, Expr)>): (r: Outcome<seq<(Key, Expr)>>)
  {
    if props == [] then Ok(acc)
    else
      var (field, filters) := props[0];
      if aggregates.None? || aggregates.value.Null? then Err(TypeError)
      else if IsAggregateAlias(field, aggregates.value) then
        match BuildConditionObject(filters, false)
        case Err(err) => Err(err)
        case Ok(condition) => HavingFold(props[1..], aggregates, Put(acc, Name(field), condition))
      else Err(UnsupportedHavingField(field))
  }

  /** Every alias `buildAggregates` selects is accepted as a HAVING key for the same aggregates. */
  lemma AggregateAliasesAccepted(aggregates: Value)
    ensures forall a | a in BuildAggregates(aggregates) :: IsAggregateAlias(a.alias, aggregates)
  {
    var r := BuildAggregates(aggregates);
    forall a | a in r
      ensures IsAggregateAlias(a.alias, aggregates)
    {
      var i :| 0 <= i < |r| && r[i] == a;
      assert AggregateAlias(Entries(aggregates)[i].0, Entries(aggregates)[i].1) == a.alias;
    }
  }

  /** The aliases are exactly what `IsAggregateAlias` accepts: nothing else is. */
  lemma AggregateAliasesExact(field: string, aggregates: Value)
    requires aggregates.Object? || aggregates.Array?
    ensures IsAggregateAlias(field, aggregates) <==> exists a | a in BuildAggregates(aggregates) :: a.alias == field
  {
    var r := BuildAggregates(aggregates);
    if IsAggregateAlias(field, aggregates) {
      var i :| 0 <= i < |Entries(aggregates)| && AggregateAlias(Entries(aggregates)[i].0, Entries(aggregates)[i].1) == field;
      assert r[i] in r;
    }
  }

  /** A HAVING key is accepted when the aggregates are present, the key is one of their aliases, and its conditions compile. */
  predicate ValidHavingEntry(prop: (string, Value), aggregates: Option<Value>) {
    aggregates.Some? && !aggregates.value.Null? && IsAggregateAlias(prop.0, aggregates.value) && ValidCondition(prop.1)
  }

  lemma {:induction false} HavingFoldOk(props: seq<(string, Value)>, aggregates: Option<Value>, acc: seq<(Key, Expr)>)
    ensures HavingFold(props, aggregates, acc).Ok? <==> forall p | p in props :: ValidHavingEntry(p, aggregates)
  {
    if props != [] {
      assert forall p :: p in props <==> p == props[0] || p in props[1..] by {
        assert props == [props[0]] + props[1..];
      }
      if ValidHavingEntry(props[0], aggregates) {
        var acc' := HavingFoldStep(props, aggregates, acc);
        HavingFoldOk(props[1..], aggregates, acc');
      } else {
        HavingFoldRejects(props, aggregates, acc);
      }
    }
  }

  /** A rejected first key fails the fold. */
  lemma HavingFoldRejects(props: seq<(string, Value)>, aggregates: Option<Value>, acc: seq<(Key, Expr)>)
    requires props != [] && !ValidHavingEntry(props[0], aggregates)
    ensures HavingFold(props, aggregates, acc).Err?
  {
    BuildConditionObjectOk(props[0].1, false);
  }

  /** An accepted first key moves the fold on to the rest, with its condition stored. */
  lemma HavingFoldStep(props: seq<(string, Value)>, aggregates: Option<Value>, acc: seq<(Key, Expr)>) returns (acc': seq<(Key, Expr)>)
    requires props != [] && ValidHavingEntry(props[0], aggregates)
    ensures HavingFold(props, aggregates, acc) == HavingFold(props[1..], aggregates, acc')
  {
    BuildConditionObjectOk(props[0].1, false);
    acc' := Put(acc, Name(props[0].0), BuildConditionObject(props[0].1, false).value);
  }

  /**
   * The HAVING clause compiles exactly when `having` is not a plain object,
   * or when every key is an alias of the aggregates and every value a valid
   * condition object.
   */
  lemma BuildHavingConditionsOk(having: Value, aggregates: Option<Value>)
    ensures BuildHavingConditions(having, aggregates).Ok? <==>
      !having.Object? || forall p | p in having.props :: ValidHavingEntry(p, aggregates)
  {
    if having.Object? {
      HavingFoldOk(having.props, aggregates, []);
    }
  }

  /** A key that is no alias is rejected by name, once the keys before it are accepted. */
  lemma {:induction false} HavingRejectsKey(props: seq<(string, Value)>, aggregates: Value, acc: seq<(Key, Expr)>, k: nat)
    requires !aggregates.Null?
    requires k < |props| && !IsAggregateAlias(props[k].0, aggregates)
    requires forall i | 0 <= i < k :: ValidHavingEntry(props[i], Some(aggregates))
    ensures HavingFold(props, Some(aggregates), acc) == Err(UnsupportedHavingField(props[k].0))
    decreases k
  {
    if k > 0 {
      var acc' := HavingFoldStep(props, Some(aggregates), acc);
      assert props[1..][k - 1] == props[k];
      forall i | 0 <= i < k - 1
        ensures ValidHavingEntry(props[1..][i], Some(aggregates))
      {
        assert props[1..][i] == props[i + 1];
      }
      HavingRejectsKey(props[1..], aggregates, acc', k - 1);
    }
  }

  /** Entry i of a compiled HAVING is `having[i]`'s key with the condition object its value compiles to. */
  predicate HavingEntry(entry: (Key, Expr), prop: (string, Value)) {
    entry.0 == Name(prop.0) && BuildConditionObject(prop.1, false) == Ok(entry.1)
  }

  predicate HavingEntries(entries: seq<(Key, Expr)>, props: seq<(string, Value)>) {
    |entries| == |props| && forall i | 0 <= i < |props| :: HavingEntry(entries[i], props[i])
  }

  /** No key still to be stored is already a condition. */
  predicate FreshFields(props: seq<(string, Value)>, acc: seq<(Key, Expr)>) {
    forall i | 0 <= i < |props| :: Name(props[i].0) !in KeysOf(acc)
  }

  lemma FreshFieldsStep(props: seq<(string, Value)>, acc: seq<(Key, Expr)>, c: Expr)
    requires |props| > 0 && DistinctKeys(props) && FreshFields(props, acc)
    ensures DistinctKeys(props[1..])
    ensures FreshFields(props[1..], acc + [(Name(props[0].0), c)])
  {
    var rest := props[1..];
    var acc' := acc + [(Name(props[0].0), c)];
    assert KeysOf(acc') == KeysOf(acc) + [Name(props[0].0)];
    assert forall i | 0 <= i < |rest| :: KeysOf(rest)[i] == KeysOf(props)[i + 1];
    forall i | 0 <= i < |rest|
      ensures Name(rest[i].0) !in KeysOf(acc')
    {
      assert rest[i] == props[i + 1];
      assert KeysOf(props)[0] != KeysOf(props)[i + 1];
    }
  }

  /** One turn of the loop that succeeds: the first value compiles and is stored under its key. */
  lemma HavingFoldOkStep(props: seq<(string, Value)>, aggregates: Option<Value>, acc: seq<(Key, Expr)>) returns (c: Expr)
    requires props != [] && HavingFold(props, aggregates, acc).Ok?
    ensures BuildConditionObject(props[0].1, false) == Ok(c)
    ensures HavingFold(props, aggregates, acc) == HavingFold(props[1..], aggregates, Put(acc, Name(props[0].0), c))
  {
    c := BuildConditionObject(props[0].1, false).value;
  }

  /**
   * With distinct keys, the loop appends one condition per entry of `having`,
   * in order: `conditions[field] = buildConditionObject(filters)`.
   */
  lemma {:induction false} HavingFoldEntries(props: seq<(string, Value)>, aggregates: Option<Value>, acc: seq<(Key, Expr)>)
    requires DistinctKeys(props) && FreshFields(props, acc)
    requires HavingFold(props, aggregates, acc).Ok?
    ensures var entries := HavingFold(props, aggregates, acc).value;
      |acc| <= |entries| && entries[..|acc|] == acc && HavingEntries(entries[|acc|..], props)
    decreases |props|
  {
    var entries := HavingFold(props, aggregates, acc).value;
    if props == [] {
      assert entries == acc;
    } else {
      var c := HavingFoldOkStep(props, aggregates, acc);
      var entry := (Name(props[0].0), c);
      PutFresh(acc, Name(props[0].0), c);
      FreshFieldsStep(props, acc, c);
      HavingFoldEntries(props[1..], aggregates, acc + [entry]);
      HavingEntriesCons(entries, acc, entry, props);
    }
  }

  lemma HavingEntriesCons(entries: seq<(Key, Expr)>, acc: seq<(Key, Expr)>, entry: (Key, Expr), props: seq<(string, Value)>)
    requires |props| > 0
    requires |acc + [entry]| <= |entries| && entries[..|acc + [entry]|] == acc + [entry]
    requires HavingEntry(entry, props[0])
    requires HavingEntries(entries[|acc + [entry]|..], props[1..])
    ensures |acc| <= |entries| && entries[..|acc|] == acc
    ensures HavingEntries(entries[|acc|..], props)
  {
    var n := |acc|;
    assert entries[..n] == (acc + [entry])[..n] == acc;
    assert entries[n] == entry;
    var es := entries[n..];
    forall i | 1 <= i < |props|
      ensures HavingEntry(es[i], props[i])
    {
      assert es[i] == entries[n + 1..][i - 1];
      assert props[i] == props[1..][i - 1];
    }
  }

  /** A compiled HAVING object holds, key by key and in order, the condition object of each entry of `having`. */
  lemma BuildHavingConditionsEntries(having: Value, aggregates: Option<Value>)
    requires having.Object? && DistinctKeys(having.props)
    requires BuildHavingConditions(having, aggregates).Ok?
    ensures BuildHavingConditions(having, aggregates).value.Some?
    ensures HavingEntries(BuildHavingConditions(having, aggregates).value.value.entries, having.props)
  {
    HavingFoldEntries(having.props, aggregates, []);
  }
}
