/**
 * The schema catalog the compiler reads: Sequelize models with their raw
 * attributes (name and optional storage column) and their associations
 * (alias, target model, association type, join keys). Targets are named, so
 * a catalog may hold cycles.
 */
module Catalog {
  import opened Wrappers

  datatype AssociationType =
    | BelongsTo
    | HasOne
    | HasMany
    | BelongsToMany
    | Other(typeName: OtherTypeName)

  /** The name of an association type other than the four Sequelize builds in. */
  type OtherTypeName = s: string | s !in {"BelongsTo", "HasOne", "HasMany", "BelongsToMany"} witness ""

  /** A raw attribute; `field` is its storage column when Sequelize records one. */
  datatype Attribute = Attribute(name: string, field: Option<string>)

  /** An association, registered under its alias (`as`). */
  datatype Association = Association(
    alias: string,
    target: string,
    associationType: AssociationType,
    sourceKey: Option<string>,
    foreignKey: Option<string>)

  datatype Entity = Entity(name: string, rawAttributes: seq<Attribute>, associations: seq<Association>)

  /** The model registry, in registration order. */
  type Catalog = seq<Entity>

  /** The name Sequelize gives an association type, as the error message shows it. */
  function TypeName(t: AssociationType): string {
    match t
    case BelongsTo => "BelongsTo"
    case HasOne => "HasOne"
    case HasMany => "HasMany"
    case BelongsToMany => "BelongsToMany"
    case Other(n) => n
  }

  /** `modelMap[name]`. */
  function FindEntity(cat: Catalog, name: string): (r: Option<Entity>)
    ensures r.Some? ==> r.value in cat && r.value.name == name
    ensures r.None? ==> forall e | e in cat :: e.name != name
  {
    if cat == [] then None
    else if cat[0].name == name then Some(cat[0])
    else FindEntity(cat[1..], name)
  }

  /** `model.rawAttributes[name]`. */
  function FindAttribute(e: Entity, name: string): (r: Option<Attribute>)
    ensures r.Some? ==> r.value in e.rawAttributes && r.value.name == name
    ensures r.None? ==> forall a | a in e.rawAttributes :: a.name != name
  {
    FindAttributeIn(e.rawAttributes, name)
  }

  function FindAttributeIn(attrs: seq<Attribute>, name: string): (r: Option<Attribute>)
    ensures r.Some? ==> r.value in attrs && r.value.name == name
    ensures r.None? ==> forall a | a in attrs :: a.name != name
  {
    if attrs == [] then None
    else if attrs[0].name == name then Some(attrs[0])
    else FindAttributeIn(attrs[1..], name)
  }

  predicate HasAttribute(e: Entity, name: string) {
    FindAttribute(e, name).Some?
  }

  /** `attribute.field || name`: the storage column, or the attribute name when there is none. */
  function StorageColumn(a: Attribute): string {
    if a.field.Some? && a.field.value != "" then a.field.value else a.name
  }

  function AttributeNames(e: Entity): (r: seq<string>)
    ensures |r| == |e.rawAttributes|
    ensures forall i | 0 <= i < |r| :: r[i] == e.rawAttributes[i].name
  {
    seq(|e.rawAttributes|, i requires 0 <= i < |e.rawAttributes| => e.rawAttributes[i].name)
  }

  /** The first association registered under `alias` (`model.associations[alias]`). */
  function FindAssociation(e: Entity, alias: string): (r: Option<Association>)
    ensures r.Some? ==> r.value in e.associations && r.value.alias == alias
    ensures r.None? ==> forall a | a in e.associations :: a.alias != alias
  {
    FindAliasIn(e.associations, alias)
  }

  /** The association search of `find(assoc => assoc.as === alias)`. */
  function FindAliasIn(assocs: seq<Association>, alias: string): (r: Option<Association>)
    ensures r.Some? ==> r.value in assocs && r.value.alias == alias
    ensures r.None? ==> forall a | a in assocs :: a.alias != alias
  {
    if assocs == [] then None
    else if assocs[0].alias == alias then Some(assocs[0])
    else FindAliasIn(assocs[1..], alias)
  }

  /**
   * `association.target`. Sequelize always resolves it to a registered model;
   * on a catalog that lacks the target the model stands in an empty entity.
   */
  function TargetOf(cat: Catalog, a: Association): (t: Entity)
    ensures t.name == a.target
    ensures t in cat || (t.rawAttributes == [] && t.associations == [])
  {
    match FindEntity(cat, a.target)
    case Some(t) => t
    case None => Entity(a.target, [], [])
  }

  /** The first association whose target model has a raw attribute `field`. */
  function FindAssociationHolding(cat: Catalog, e: Entity, field: string): (r: Option<Association>)
    ensures r.Some? ==> r.value in e.associations && HasAttribute(TargetOf(cat, r.value), field)
    ensures r.None? ==> forall a | a in e.associations :: !HasAttribute(TargetOf(cat, a), field)
  {
    FindHoldingIn(cat, e.associations, field)
  }

  function FindHoldingIn(cat: Catalog, assocs: seq<Association>, field: string): (r: Option<Association>)
    ensures r.Some? ==> r.value in assocs && HasAttribute(TargetOf(cat, r.value), field)
    ensures r.None? ==> forall a | a in assocs :: !HasAttribute(TargetOf(cat, a), field)
  {
    if assocs == [] then None
    else if HasAttribute(TargetOf(cat, assocs[0]), field) then Some(assocs[0])
    else FindHoldingIn(cat, assocs[1..], field)
  }

  /** The index of the association `FindAliasIn` returns: no association before it has the alias. */
  lemma {:induction false} FindAliasInIndex(assocs: seq<Association>, alias: string) returns (k: nat)
    requires FindAliasIn(assocs, alias).Some?
    ensures k < |assocs| && assocs[k] == FindAliasIn(assocs, alias).value
    ensures forall j | 0 <= j < k :: assocs[j].alias != alias
  {
    if assocs[0].alias == alias {
      k := 0;
    } else {
      var k' := FindAliasInIndex(assocs[1..], alias);
      k := k' + 1;
      assert forall j | 1 <= j < k :: assocs[j] == assocs[1..][j - 1];
    }
  }

  /** No association before the one `FindAssociation` returns has its alias. */
  lemma FindAssociationIsFirst(e: Entity, alias: string)
    requires FindAssociation(e, alias).Some?
    ensures exists k | 0 <= k < |e.associations| :: e.associations[k] == FindAssociation(e, alias).value
              && forall j | 0 <= j < k :: e.associations[j].alias != alias
  {
    var k := FindAliasInIndex(e.associations, alias);
  }

  /** The index of the association `FindHoldingIn` returns: no association before it leads to a model with `field`. */
  lemma {:induction false} FindHoldingInIndex(cat: Catalog, assocs: seq<Association>, field: string) returns (k: nat)
    requires FindHoldingIn(cat, assocs, field).Some?
    ensures k < |assocs| && assocs[k] == FindHoldingIn(cat, assocs, field).value
    ensures forall j | 0 <= j < k :: !HasAttribute(TargetOf(cat, assocs[j]), field)
  {
    if HasAttribute(TargetOf(cat, assocs[0]), field) {
      k := 0;
    } else {
      var k' := FindHoldingInIndex(cat, assocs[1..], field);
      k := k' + 1;
      assert forall j | 1 <= j < k :: assocs[j] == assocs[1..][j - 1];
    }
  }

  /**
   * No association before the one `FindAssociationHolding` returns leads to a
   * model with a raw attribute `field`: when two targets both have it, the
   * earlier association wins.
   */
  lemma FindAssociationHoldingIsFirst(cat: Catalog, e: Entity, field: string)
    requires FindAssociationHolding(cat, e, field).Some?
    ensures exists k | 0 <= k < |e.associations| :: e.associations[k] == FindAssociationHolding(cat, e, field).value
              && forall j | 0 <= j < k :: !HasAttribute(TargetOf(cat, e.associations[j]), field)
  {
    var k := FindHoldingInIndex(cat, e.associations, field);
  }
}
