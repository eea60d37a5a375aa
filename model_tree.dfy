/**
 * Schema introspection: `getModelTree` and `getAllModelsTree`, which describe
 * a model and its associations down to a fixed depth, and `getAllFields`,
 * which lists a model's fields and, under `alias.`, those of every model it
 * reaches, visiting each model once.
 */
module ModelTree {
  import opened Wrappers
  import opened Catalog

  /**
   * A node of the tree. An association's entry spreads the subtree of its
   * target into `{ name, alias, sourceKey, foreignKey }`; the subtree's
   * `name` is the target's name, so `Child` keeps the subtree whole.
   */
  datatype Tree = Tree(name: string, fields: Option<seq<string>>, associations: Branches)

  /** `associations`: the string "Depth limit reached", or the list of entries. */
  datatype Branches = DepthLimitReached | Children(children: seq<Child>)

  datatype Child = Child(alias: Option<string>, sourceKey: Option<string>, foreignKey: Option<string>, tree: Tree)

  /** `value || null` on an optional string. */
  function OrNull(s: Option<string>): Option<string> {
    if s.Some? && s.value != "" then s else None
  }

  /** The default depth of `getAllModelsTree`. */
  const DefaultTreeDepth: nat := 2

  /** `getModelTree(model, depth)`. */
  function ModelTree(cat: Catalog, e: Entity, depth: nat): (t: Tree)
    ensures t.name == e.name
    ensures depth == 0 <==> t.associations.DepthLimitReached?
    ensures depth == 0 <==> t.fields.None?
    ensures depth > 0 ==> t.fields == Some(AttributeNames(e)) && |t.associations.children| == |e.associations|
    decreases depth, 1
  {
    if depth == 0 then Tree(e.name, None, DepthLimitReached)
    else
      Tree(e.name, Some(AttributeNames(e)),
        Children(seq(|e.associations|, i requires 0 <= i < |e.associations| => ChildOf(cat, e.associations[i], depth))))
  }

  /** The entry for one association of a model described at `depth`. */
  function ChildOf(cat: Catalog, a: Association, depth: nat): (c: Child)
    requires depth > 0
    ensures c.tree.name == a.target
    ensures c.alias.Some? <==> a.alias != ""
    decreases depth, 0
  {
    Child(OrNull(Some(a.alias)), OrNull(a.sourceKey), OrNull(a.foreignKey), ModelTree(cat, TargetOf(cat, a), depth - 1))
  }

  /** Every path of `t` ends at `d` levels with the depth marker, or earlier at a model without associations. */
  predicate LimitedAt(t: Tree, d: nat)
    decreases t
  {
    if d == 0 then t.associations.DepthLimitReached? && t.fields.None?
    else
      t.associations.Children? && t.fields.Some? &&
      forall c | c in t.associations.children :: LimitedAt(c.tree, d - 1)
  }

  /** `getModelTree`, pushing one entry per association. */
  method BuildModelTree(cat: Catalog, e: Entity, depth: nat) returns (t: Tree)
    ensures t == ModelTree(cat, e, depth)
    decreases depth
  {
    if depth == 0 {
      return Tree(e.name, None, DepthLimitReached);
    }
    var children: seq<Child> := [];
    var i := 0;
    while i < |e.associations|
      invariant 0 <= i <= |e.associations|
      invariant |children| == i
      invariant forall j | 0 <= j < i :: children[j] == ChildOf(cat, e.associations[j], depth)
    {
      var a := e.associations[i];
      var subtree := BuildModelTree(cat, TargetOf(cat, a), depth - 1);
      children := children + [Child(OrNull(Some(a.alias)), OrNull(a.sourceKey), OrNull(a.foreignKey), subtree)];
      i := i + 1;
    }
    t := Tree(e.name, Some(AttributeNames(e)), Children(children));
  }

  /** The tree stops at its depth on every path, whatever cycles the catalog holds. */
  lemma {:induction false} ModelTreeLimited(cat: Catalog, e: Entity, depth: nat)
    ensures LimitedAt(ModelTree(cat, e, depth), depth)
    decreases depth
  {
    if depth > 0 {
      var t := ModelTree(cat, e, depth);
      forall c | c in t.associations.children
        ensures LimitedAt(c.tree, depth - 1)
      {
        var i :| 0 <= i < |t.associations.children| && t.associations.children[i] == c;
        assert c == ChildOf(cat, e.associations[i], depth);
        ModelTreeLimited(cat, TargetOf(cat, e.associations[i]), depth - 1);
      }
    }
  }

  /** The length of the path that always follows the first association. */
  function FirstChain(t: Tree): nat
    decreases t
  {
    if t.associations.Children? && |t.associations.children| > 0 then
      assert t.associations.children[0] in t.associations.children;
      1 + FirstChain(t.associations.children[0].tree)
    else 0
  }

  /**
   * There is no cycle guard: a model whose first association points back
   * at itself is repeated at every level, down to the depth limit.
   */
  lemma {:induction false} SelfLoopUnrolls(cat: Catalog, e: Entity, depth: nat)
    requires FindEntity(cat, e.name) == Some(e)
    requires |e.associations| > 0 && e.associations[0].target == e.name
    ensures FirstChain(ModelTree(cat, e, depth)) == depth
    decreases depth
  {
    if depth > 0 {
      assert TargetOf(cat, e.associations[0]) == e;
      SelfLoopUnrolls(cat, e, depth - 1);
    }
  }

  /** `getAllModelsTree(depth)`: one tree per registered model, in registration order. */
  function AllModelsTree(cat: Catalog, depth: nat): (r: seq<Tree>)
  {
    seq(|cat|, i requires 0 <= i < |cat| => ModelTree(cat, cat[i], depth))
  }

  /** `getAllModelsTree(depth = 2)`, pushing one tree per model. */
  method BuildAllModelsTree(cat: Catalog, depth: Option<nat>) returns (r: seq<Tree>)
    ensures r == AllModelsTree(cat, depth.GetOr(DefaultTreeDepth))
  {
    var d := depth.GetOr(DefaultTreeDepth);
    r := [];
    for i := 0 to |cat|
      invariant |r| == i
      invariant forall j | 0 <= j < i :: r[j] == ModelTree(cat, cat[j], d)
    {
      var t := BuildModelTree(cat, cat[i], d);
      r := r + [t];
    }
    assert r == AllModelsTree(cat, d);
  }

  /** Every registered model has a tree under its own name, limited at the requested depth. */
  lemma AllModelsTreeSpec(cat: Catalog, depth: nat)
    ensures |AllModelsTree(cat, depth)| == |cat|
    ensures forall i | 0 <= i < |cat| ::
      AllModelsTree(cat, depth)[i].name == cat[i].name && LimitedAt(AllModelsTree(cat, depth)[i], depth)
  {
    forall i | 0 <= i < |cat|
      ensures LimitedAt(AllModelsTree(cat, depth)[i], depth)
    {
      ModelTreeLimited(cat, cat[i], depth);
    }
  }

  // ---- getAllFields ----

  /** Every model name the catalog mentions: the registered models and the association targets. */
  function Universe(cat: Catalog): set<string> {
    (set e | e in cat :: e.name) + (set e, a | e in cat && a in e.associations :: a.target)
  }

  /** A model `getAllFields` may be called on: a registered one, or a stand-in target without associations. */
  predicate Reachable(cat: Catalog, e: Entity) {
    e.name in Universe(cat) && (e in cat || e.associations == [])
  }

  /** The fields under `alias.`. */
  function Prefixed(alias: string, fields: seq<string>): (r: seq<string>)
    ensures |r| == |fields| && forall i | 0 <= i < |r| :: r[i] == alias + "." + fields[i]
  {
    seq(|fields|, i requires 0 <= i < |fields| => alias + "." + fields[i])
  }

  /**
   * `getAllFields(model, visited)`: the fields it returns, and the visited
   * set it leaves behind.
   */
  function AllFields(cat: Catalog, e: Entity, visited: set<string>): (r: (seq<string>, set<string>))
    requires Reachable(cat, e)
    ensures visited <= r.1 && e.name in r.1
    decreases Universe(cat) - visited, 0, 0
  {
    if e.name in visited then ([], visited)
    else AssociationFields(cat, e.associations, visited + {e.name}, AttributeNames(e))
  }

  /** The loop over the associations, with `acc` the fields gathered so far. */
  function AssociationFields(cat: Catalog, assocs: seq<Association>, visited: set<string>, acc: seq<string>): (r: (seq<string>, set<string>))
    requires forall a | a in assocs :: a.target in Universe(cat)
    ensures visited <= r.1
    ensures |acc| <= |r.0| && r.0[..|acc|] == acc
    decreases Universe(cat) - visited, 1, |assocs|
  {
    if assocs == [] then (acc, visited)
    else
      var a := assocs[0];
      var t := TargetOf(cat, a);
      var (fields, visited') := AllFields(cat, t, visited);
      var acc' := acc + Prefixed(a.alias, fields);
      var r := AssociationFields(cat, assocs[1..], visited', acc');
      assert r.0[..|acc|] == acc'[..|acc|];
      r
  }

  /** The `Set` of visited models `getAllFields` threads through its calls. */
  class VisitedSet {
    var models: set<string>

    constructor ()
      ensures models == {}
    {
      models := {};
    }
  }

  /** `getAllFields(model, visited)`, adding to the shared visited set. */
  method GetAllFields(cat: Catalog, e: Entity, visited: VisitedSet) returns (fields: seq<string>)
    requires Reachable(cat, e)
    modifies visited
    ensures (fields, visited.models) == AllFields(cat, e, old(visited.models))
    decreases Universe(cat) - visited.models
  {
    if e.name in visited.models {
      return [];
    }
    visited.models := visited.models + {e.name};
    fields := AttributeNames(e);
    ghost var start := visited.models;
    var i := 0;
    while i < |e.associations|
      invariant 0 <= i <= |e.associations|
      invariant start <= visited.models
      invariant AssociationFields(cat, e.associations, start, AttributeNames(e)) ==
        AssociationFields(cat, e.associations[i..], visited.models, fields)
    {
      var a := e.associations[i];
      assert e.associations[i..][0] == a && e.associations[i..][1..] == e.associations[i + 1..];
      var associated := GetAllFields(cat, TargetOf(cat, a), visited);
      fields := fields + Prefixed(a.alias, associated);
      i := i + 1;
    }
  }

  /** Lists every field once, starting from an empty visited set. */
  method ListAllFields(cat: Catalog, e: Entity) returns (fields: seq<string>)
    requires e in cat
    ensures fields == AllFields(cat, e, {}).0
  {
    var visited := new VisitedSet();
    fields := GetAllFields(cat, e, visited);
  }

  /** `field` reads `alias.` followed by a field of the association's target. */
  predicate AliasPrefix(a: Association, field: string) {
    |a.alias| + 1 <= |field| && field[..|a.alias| + 1] == a.alias + "."
  }

  predicate UnderAlias(assocs: seq<Association>, field: string) {
    exists a | a in assocs :: AliasPrefix(a, field)
  }

  /**
   * A model not yet visited lists its own raw attributes first, then
   * only `alias.field` entries for aliases it declares; a visited one lists
   * nothing.
   */
  lemma AllFieldsShape(cat: Catalog, e: Entity, visited: set<string>)
    requires Reachable(cat, e)
    ensures e.name in visited ==> AllFields(cat, e, visited) == ([], visited)
    ensures e.name !in visited ==>
      var fields := AllFields(cat, e, visited).0;
      |AttributeNames(e)| <= |fields| && fields[..|AttributeNames(e)|] == AttributeNames(e) &&
      forall i | |AttributeNames(e)| <= i < |fields| :: UnderAlias(e.associations, fields[i])
  {
    if e.name !in visited {
      AssociationFieldsPrefixed(cat, e.associations, visited + {e.name}, AttributeNames(e));
      assert AllFields(cat, e, visited) == AssociationFields(cat, e.associations, visited + {e.name}, AttributeNames(e));
    }
  }

  lemma {:induction false} AssociationFieldsPrefixed(cat: Catalog, assocs: seq<Association>, visited: set<string>, acc: seq<string>)
    requires forall a | a in assocs :: a.target in Universe(cat)
    ensures var fields := AssociationFields(cat, assocs, visited, acc).0;
      forall i | |acc| <= i < |fields| :: UnderAlias(assocs, fields[i])
    decreases |assocs|
  {
    if assocs != [] {
      var a := assocs[0];
      var (fs, visited') := AllFields(cat, TargetOf(cat, a), visited);
      var acc' := acc + Prefixed(a.alias, fs);
      AssociationFieldsPrefixed(cat, assocs[1..], visited', acc');
      var fields := AssociationFields(cat, assocs, visited, acc).0;
      assert fields == AssociationFields(cat, assocs[1..], visited', acc').0;
      forall i | |acc| <= i < |fields|
        ensures UnderAlias(assocs, fields[i])
      {
        if i < |acc'| {
          assert fields[i] == acc'[i] == a.alias + "." + fs[i - |acc|];
          assert (a.alias + "." + fs[i - |acc|])[..|a.alias| + 1] == a.alias + ".";
        } else {
          assert UnderAlias(assocs[1..], fields[i]);
          var b :| b in assocs[1..] && AliasPrefix(b, fields[i]);
          assert b in assocs;
        }
      }
    }
  }

  /** A model associated only with itself lists its own fields once: the visited set breaks the cycle. */
  lemma SelfLoopListedOnce(cat: Catalog, e: Entity)
    requires e in cat && FindEntity(cat, e.name) == Some(e)
    requires forall a | a in e.associations :: a.target == e.name
    ensures AllFields(cat, e, {}).0 == AttributeNames(e)
  {
    var none: set<string> := {};
    assert none + {e.name} == {e.name};
    SelfLoopFold(cat, e, e.associations, {e.name}, AttributeNames(e));
  }

  lemma {:induction false} SelfLoopFold(cat: Catalog, e: Entity, assocs: seq<Association>, visited: set<string>, acc: seq<string>)
    requires e in cat && FindEntity(cat, e.name) == Some(e) && e.name in visited
    requires forall a | a in assocs :: a.target == e.name
    ensures forall a | a in assocs :: a.target in Universe(cat)
    ensures AssociationFields(cat, assocs, visited, acc) == (acc, visited)
    decreases |assocs|
  {
    assert e.name in Universe(cat);
    if assocs != [] {
      assert TargetOf(cat, assocs[0]) == e;
      assert acc + Prefixed(assocs[0].alias, []) == acc;
      SelfLoopFold(cat, e, assocs[1..], visited, acc);
    }
  }
}
