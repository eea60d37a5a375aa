/**
 * `buildAttributes`: the projection builder. It keeps the undotted select
 * entries as the attribute list, and for each dotted entry walks the
 * association path, reusing the includes it finds or pushing new ones onto
 * the caller's include list, and adds the final segment to the attributes of
 * the include the path ends at.
 *
 * The include tree is a value here; an include the source reaches by
 * reference is reached by its path of indices (`Path`), top-level index
 * first.
 */
module Projection {
  import opened Wrappers
  import opened Errors
  import opened Collections
  import opened Paths
  import opened Catalog
  import opened Sequelize

  /** A position in the include tree: the top-level index, then the indices into nested lists. */
  type Path = seq<nat>

  /** The include a path leads to, if it leads to one. */
  function At(items: seq<Include>, p: Path): Option<Include>
    decreases |p|
  {
    if p == [] || p[0] >= |items| then None
    else if |p| == 1 then Some(items[p[0]])
    else At(items[p[0]].nested, p[1..])
  }

  /** `attributes.includes(name) || attributes.push(name)` on one include. */
  function AddName(inc: Include, name: string): (r: Include)
    ensures name in r.attributes
    ensures |inc.attributes| <= |r.attributes| && r.attributes[..|inc.attributes|] == inc.attributes
    ensures NoDup(inc.attributes) ==> NoDup(r.attributes)
    ensures r == inc.(attributes := r.attributes)
  {
    if name in inc.attributes then inc else inc.(attributes := inc.attributes + [name])
  }

  /** `AddName` on the include at path `p`; a path that leads nowhere changes nothing. */
  function AddAttribute(items: seq<Include>, p: Path, name: string): (r: seq<Include>)
    ensures |r| == |items|
    decreases |p|
  {
    if p == [] || p[0] >= |items| then items
    else if |p| == 1 then items[p[0] := AddName(items[p[0]], name)]
    else items[p[0] := items[p[0]].(nested := AddAttribute(items[p[0]].nested, p[1..], name))]
  }

  /**
   * `items.reduce((map, inc) => { map[inc.as] = inc; return map; }, {})`,
   * for the list at `prefix`: each alias maps to the path of the last
   * include carrying it.
   */
  function IndexMap(items: seq<Include>, prefix: Path): (m: map<string, Path>)
    ensures forall alias | alias in m :: |m[alias]| == |prefix| + 1
  {
    if items == [] then map[]
    else
      var last := |items| - 1;
      IndexMap(items[..last], prefix)[items[last].alias := prefix + [last]]
  }

  /** `p` is `prefix` extended by the index of the last include of `items` whose alias is `alias`. */
  predicate IndexedLast(items: seq<Include>, prefix: Path, alias: string, p: Path) {
    |p| == |prefix| + 1 && p[..|prefix|] == prefix && p[|prefix|] < |items| &&
    items[p[|prefix|]].alias == alias &&
    forall j | p[|prefix|] < j < |items| :: items[j].alias != alias
  }

  /** Every alias of the list is in the map, and maps to the path of the last include carrying it. */
  lemma {:induction false} IndexMapSpec(items: seq<Include>, prefix: Path)
    ensures forall i | 0 <= i < |items| :: items[i].alias in IndexMap(items, prefix)
    ensures forall alias | alias in IndexMap(items, prefix) :: IndexedLast(items, prefix, alias, IndexMap(items, prefix)[alias])
  {
    if items != [] {
      var last := |items| - 1;
      var m0 := IndexMap(items[..last], prefix);
      var m := IndexMap(items, prefix);
      IndexMapSpec(items[..last], prefix);
      assert forall i | 0 <= i < last :: items[..last][i] == items[i];
      forall alias | alias in m
        ensures IndexedLast(items, prefix, alias, m[alias])
      {
        if alias == items[last].alias {
          assert (prefix + [last])[..|prefix|] == prefix;
        } else {
          assert IndexedLast(items[..last], prefix, alias, m0[alias]);
        }
      }
    }
  }

  /** The map of the list nested in the include at `p`. */
  function NestedMap(items: seq<Include>, p: Path): map<string, Path> {
    match At(items, p)
    case Some(inc) => IndexMap(inc.nested, p)
    case None => map[]
  }

  /** The state one select entry leaves behind: the include list, and the top-level alias map. */
  datatype Walk = Walk(items: seq<Include>, top: map<string, Path>)

  /**
   * The walk of `parts.forEach` from segment `idx` on. `model` is
   * `currentModel`, `current` is `currentInclude` (the top-level map itself
   * while `atTop`), and `target` the path of `attributeAddModel`.
   */
  function WalkSegments(cat: Catalog, parts: seq<string>, idx: nat, model: Entity, w: Walk, current: map<string, Path>, atTop: bool, target: Path): (r: Outcome<Walk>)
    requires idx < |parts|
    ensures r.Ok? ==> |w.items| <= |r.value.items|
    decreases |parts| - idx
  {
    var part := parts[idx];
    if idx == |parts| - 1 then Ok(w.(items := AddAttribute(w.items, target, part)))
    else
      match FindAssociation(model, part)
      case None => Err(AssociationNotFound(part, model.name))
      case Some(a) =>
        var t := TargetOf(cat, a);
        if part in current then
          var p := current[part];
          WalkSegments(cat, parts, idx + 1, t, w, NestedMap(w.items, p), false, p)
        else
          var p := [|w.items|];
          var w' := Walk(w.items + [Include(t.name, a.alias, None, [], [])], if atTop then w.top[part := p] else w.top);
          WalkSegments(cat, parts, idx + 1, t, w', NestedMap(w'.items, p), false, p)
  }

  /** One select entry: an undotted one leaves the includes alone. */
  function SelectOne(cat: Catalog, e: Entity, attr: string, w: Walk): Outcome<Walk> {
    if Dotted(attr) then WalkSegments(cat, Split(attr), 0, e, w, w.top, true, []) else Ok(w)
  }

  /** `select.forEach(...)`. */
  function SelectFold(cat: Catalog, e: Entity, select: seq<string>, w: Walk): (r: Outcome<Walk>)
    ensures r.Ok? ==> |w.items| <= |r.value.items|
  {
    if select == [] then Ok(w)
    else
      match SelectOne(cat, e, select[0], w)
      case Err(err) => Err(err)
      case Ok(w') => SelectFold(cat, e, select[1..], w')
  }

  /** What `buildAttributes` returns, and the include list it leaves behind. */
  datatype Projected = Projected(attributes: Option<seq<string>>, includes: seq<Include>)

  /** `buildAttributes(model, select, include)`, with `items` the include list before the call. */
  function Project(cat: Catalog, e: Entity, select: Option<seq<string>>, items: seq<Include>): (r: Outcome<Projected>)
    ensures select.None? ==> r == Ok(Projected(None, items))
    ensures r.Ok? && select.Some? ==> r.value.attributes == Some(Undotted(select.value))
    ensures r.Ok? ==> |items| <= |r.value.includes|
  {
    match select
    case None => Ok(Projected(None, items))
    case Some(sel) =>
      match SelectFold(cat, e, sel, Walk(items, IndexMap(items, [])))
      case Err(err) => Err(err)
      case Ok(w) => Ok(Projected(Some(Undotted(sel)), w.items))
  }

  /** The caller's `include` array, which `buildAttributes` extends and whose includes it updates in place. */
  class IncludeList {
    var items: seq<Include>

    constructor (items0: seq<Include>)
      ensures items == items0
    {
      items := items0;
    }
  }

  /**
   * The `select.forEach` callback for one dotted entry: it walks the path and
   * returns the top-level alias map as it leaves it.
   */
  method WalkPath(cat: Catalog, e: Entity, attr: string, includes: IncludeList, includeMap: map<string, Path>) returns (r: Outcome<map<string, Path>>)
    requires Dotted(attr)
    modifies includes
    ensures SelectOne(cat, e, attr, Walk(old(includes.items), includeMap)).Err? ==>
      r == Err(SelectOne(cat, e, attr, Walk(old(includes.items), includeMap)).error)
    ensures SelectOne(cat, e, attr, Walk(old(includes.items), includeMap)).Ok? ==>
      r == Ok(SelectOne(cat, e, attr, Walk(old(includes.items), includeMap)).value.top) &&
      includes.items == SelectOne(cat, e, attr, Walk(old(includes.items), includeMap)).value.items
  {
    var parts := Split(attr);
    SplitCount(attr);
    var top := includeMap;
    var currentModel := e;
    var currentInclude: map<string, Path> := includeMap;
    var attributeAddModel: Path := [];
    var idx := 0;
    while idx < |parts| - 1
      invariant 0 <= idx <= |parts| - 1
      invariant idx == 0 ==> currentInclude == top
      invariant SelectOne(cat, e, attr, Walk(old(includes.items), includeMap)) ==
        WalkSegments(cat, parts, idx, currentModel, Walk(includes.items, top), currentInclude, idx == 0, attributeAddModel)
    {
      var part := parts[idx];
      var association := FindAssociation(currentModel, part);
      if association.None? {
        return Err(AssociationNotFound(part, currentModel.name));
      }
      var a := association.value;
      currentModel := TargetOf(cat, a);
      if part !in currentInclude {
        var p: Path := [|includes.items|];
        includes.items := includes.items + [Include(currentModel.name, a.alias, None, [], [])];
        if idx == 0 {
          top := top[part := p];
        }
        currentInclude := currentInclude[part := p];
      }
      attributeAddModel := currentInclude[part];
      currentInclude := NestedMap(includes.items, attributeAddModel);
      idx := idx + 1;
    }
    includes.items := AddAttribute(includes.items, attributeAddModel, parts[idx]);
    return Ok(top);
  }

  /** The `select.forEach` callback for any entry: an undotted one leaves the includes and the map alone. */
  method SelectEntry(cat: Catalog, e: Entity, attr: string, includes: IncludeList, includeMap: map<string, Path>) returns (r: Outcome<map<string, Path>>)
    modifies includes
    ensures SelectOne(cat, e, attr, Walk(old(includes.items), includeMap)).Err? ==>
      r == Err(SelectOne(cat, e, attr, Walk(old(includes.items), includeMap)).error)
    ensures SelectOne(cat, e, attr, Walk(old(includes.items), includeMap)).Ok? ==>
      r == Ok(SelectOne(cat, e, attr, Walk(old(includes.items), includeMap)).value.top) &&
      includes.items == SelectOne(cat, e, attr, Walk(old(includes.items), includeMap)).value.items
  {
    if !Dotted(attr) {
      return Ok(includeMap);
    }
    r := WalkPath(cat, e, attr, includes, includeMap);
  }

  /** `buildAttributes(model, select, include)`. */
  method BuildAttributes(cat: Catalog, e: Entity, select: Option<seq<string>>, includes: IncludeList) returns (r: Outcome<Option<seq<string>>>)
    modifies includes
    ensures Project(cat, e, select, old(includes.items)).Err? ==> r == Err(Project(cat, e, select, old(includes.items)).error)
    ensures Project(cat, e, select, old(includes.items)).Ok? ==>
      r == Ok(Project(cat, e, select, old(includes.items)).value.attributes) &&
      includes.items == Project(cat, e, select, old(includes.items)).value.includes
  {
    if select.None? {
      return Ok(None);
    }
    var sel := select.value;
    var includeMap: map<string, Path> := IndexMap(includes.items, []);
    ghost var start := Walk(includes.items, includeMap);
    var attributes: seq<string> := [];
    var i := 0;
    while i < |sel|
      invariant 0 <= i <= |sel|
      invariant attributes == Undotted(sel[..i])
      invariant SelectFold(cat, e, sel, start) == SelectFold(cat, e, sel[i..], Walk(includes.items, includeMap))
    {
      var attr := sel[i];
      SelectFoldStep(cat, e, sel, i, Walk(includes.items, includeMap));
      UndottedSnoc(sel, i);
      var walked := SelectEntry(cat, e, attr, includes, includeMap);
      if walked.Err? {
        return Err(walked.error);
      }
      includeMap := walked.value;
      if !Dotted(attr) {
        attributes := attributes + [attr];
      }
      i := i + 1;
    }
    assert sel[i..] == [];
    assert sel[..i] == sel;
    UndottedIdempotent(sel);
    return Ok(Some(Undotted(attributes)));
  }

  /** One more entry of the select loop. */
  lemma SelectFoldStep(cat: Catalog, e: Entity, sel: seq<string>, i: nat, w: Walk)
    requires i < |sel|
    ensures SelectOne(cat, e, sel[i], w).Err? ==> SelectFold(cat, e, sel[i..], w) == Err(SelectOne(cat, e, sel[i], w).error)
    ensures SelectOne(cat, e, sel[i], w).Ok? ==> SelectFold(cat, e, sel[i..], w) == SelectFold(cat, e, sel[i + 1..], SelectOne(cat, e, sel[i], w).value)
  {
    assert sel[i..][0] == sel[i] && sel[i..][1..] == sel[i + 1..];
  }

  // ---- Which selects succeed ----

  /** Every non-final segment of `parts` names an association, each looked up on the previous one's target. */
  predicate Resolves(cat: Catalog, model: Entity, parts: seq<string>)
    decreases |parts|
  {
    |parts| <= 1 ||
    (FindAssociation(model, parts[0]).Some? &&
     Resolves(cat, TargetOf(cat, FindAssociation(model, parts[0]).value), parts[1..]))
  }

  /** The walk fails exactly when a segment names no association, whatever the include state. */
  lemma {:induction false} WalkSegmentsOk(cat: Catalog, parts: seq<string>, idx: nat, model: Entity, w: Walk, current: map<string, Path>, atTop: bool, target: Path)
    requires idx < |parts|
    ensures WalkSegments(cat, parts, idx, model, w, current, atTop, target).Ok? <==> Resolves(cat, model, parts[idx..])
    decreases |parts| - idx
  {
    var part := parts[idx];
    assert parts[idx..][0] == part && parts[idx..][1..] == parts[idx + 1..];
    if idx < |parts| - 1 && FindAssociation(model, part).Some? {
      var a := FindAssociation(model, part).value;
      var t := TargetOf(cat, a);
      if part in current {
        var p := current[part];
        WalkSegmentsOk(cat, parts, idx + 1, t, w, NestedMap(w.items, p), false, p);
      } else {
        var p: Path := [|w.items|];
        var w' := Walk(w.items + [Include(t.name, a.alias, None, [], [])], if atTop then w.top[part := p] else w.top);
        WalkSegmentsOk(cat, parts, idx + 1, t, w', NestedMap(w'.items, p), false, p);
      }
    }
  }

  /** A failed walk names a non-final segment of the path as the missing association. */
  lemma {:induction false} WalkSegmentsError(cat: Catalog, parts: seq<string>, idx: nat, model: Entity, w: Walk, current: map<string, Path>, atTop: bool, target: Path)
    requires idx < |parts|
    requires WalkSegments(cat, parts, idx, model, w, current, atTop, target).Err?
    ensures WalkSegments(cat, parts, idx, model, w, current, atTop, target).error.AssociationNotFound?
    ensures WalkSegments(cat, parts, idx, model, w, current, atTop, target).error.alias in parts[idx..|parts| - 1]
    decreases |parts| - idx
  {
    var part := parts[idx];
    assert parts[idx..|parts| - 1][0] == part;
    if FindAssociation(model, part).Some? {
      var a := FindAssociation(model, part).value;
      var t := TargetOf(cat, a);
      assert parts[idx + 1..|parts| - 1] == parts[idx..|parts| - 1][1..];
      if part in current {
        var p := current[part];
        WalkSegmentsError(cat, parts, idx + 1, t, w, NestedMap(w.items, p), false, p);
      } else {
        var p: Path := [|w.items|];
        var w' := Walk(w.items + [Include(t.name, a.alias, None, [], [])], if atTop then w.top[part := p] else w.top);
        WalkSegmentsError(cat, parts, idx + 1, t, w', NestedMap(w'.items, p), false, p);
      }
    }
  }

  /** The select loop succeeds exactly when every dotted entry resolves. */
  lemma {:induction false} SelectFoldOk(cat: Catalog, e: Entity, select: seq<string>, w: Walk)
    ensures SelectFold(cat, e, select, w).Ok? <==> forall j | 0 <= j < |select| && Dotted(select[j]) :: Resolves(cat, e, Split(select[j]))
  {
    if select != [] {
      var attr := select[0];
      if Dotted(attr) {
        SplitCount(attr);
        WalkSegmentsOk(cat, Split(attr), 0, e, w, w.top, true, []);
        assert Split(attr)[0..] == Split(attr);
      }
      if SelectOne(cat, e, attr, w).Ok? {
        SelectFoldOk(cat, e, select[1..], SelectOne(cat, e, attr, w).value);
        assert forall j | 1 <= j < |select| :: select[j] == select[1..][j - 1];
      }
    }
  }

  /** `buildAttributes` throws exactly when some dotted select entry names a missing association. */
  lemma ProjectOk(cat: Catalog, e: Entity, select: Option<seq<string>>, items: seq<Include>)
    ensures Project(cat, e, select, items).Ok? <==>
      select.None? || forall a | a in select.value && Dotted(a) :: Resolves(cat, e, Split(a))
  {
    if select.Some? {
      SelectFoldOk(cat, e, select.value, Walk(items, IndexMap(items, [])));
    }
  }

  // ---- What happens to the include tree ----

  /**
   * `b` is `a` after the projection: same model, alias, `required` and
   * nesting, and attributes only appended to.
   */
  predicate Grows(a: Include, b: Include)
    decreases a
  {
    a.model == b.model && a.alias == b.alias && a.required == b.required &&
    |a.attributes| <= |b.attributes| && b.attributes[..|a.attributes|] == a.attributes &&
    |a.nested| == |b.nested| &&
    forall j | 0 <= j < |a.nested| :: Grows(a.nested[j], b.nested[j])
  }

  /** `news` keeps every include of `olds`, grown, in place, and may add more after them. */
  predicate Extends(olds: seq<Include>, news: seq<Include>) {
    |olds| <= |news| && forall i | 0 <= i < |olds| :: Grows(olds[i], news[i])
  }

  /** Every include from index `n` on is one the projection pushed: no `required`, nothing nested. */
  predicate FreshFrom(n: nat, items: seq<Include>) {
    forall i | n <= i < |items| :: items[i].required.None? && items[i].nested == []
  }

  lemma {:induction false} GrowsRefl(a: Include)
    ensures Grows(a, a)
    decreases a
  {
    forall j | 0 <= j < |a.nested|
      ensures Grows(a.nested[j], a.nested[j])
    {
      GrowsRefl(a.nested[j]);
    }
  }

  lemma {:induction false} GrowsTrans(a: Include, b: Include, c: Include)
    requires Grows(a, b) && Grows(b, c)
    ensures Grows(a, c)
    decreases a
  {
    forall j | 0 <= j < |a.nested|
      ensures Grows(a.nested[j], c.nested[j])
    {
      GrowsTrans(a.nested[j], b.nested[j], c.nested[j]);
    }
    assert c.attributes[..|b.attributes|][..|a.attributes|] == c.attributes[..|a.attributes|];
  }

  lemma ExtendsRefl(items: seq<Include>)
    ensures Extends(items, items)
  {
    forall i | 0 <= i < |items|
      ensures Grows(items[i], items[i])
    {
      GrowsRefl(items[i]);
    }
  }

  lemma ExtendsTrans(a: seq<Include>, b: seq<Include>, c: seq<Include>)
    requires Extends(a, b) && Extends(b, c)
    ensures Extends(a, c)
  {
    forall i | 0 <= i < |a|
      ensures Grows(a[i], c[i])
    {
      GrowsTrans(a[i], b[i], c[i]);
    }
  }

  lemma FreshTrans(a: seq<Include>, b: seq<Include>, c: seq<Include>)
    requires Extends(a, b) && FreshFrom(|a|, b) && Extends(b, c) && FreshFrom(|b|, c)
    ensures FreshFrom(|a|, c)
  {
    forall i | |a| <= i < |c|
      ensures c[i].required.None? && c[i].nested == []
    {
      if i < |b| {
        assert Grows(b[i], c[i]);
      }
    }
  }

  lemma AppendExtends(items: seq<Include>, x: Include)
    ensures Extends(items, items + [x])
  {
    forall i | 0 <= i < |items|
      ensures Grows(items[i], (items + [x])[i])
    {
      GrowsRefl(items[i]);
    }
  }

  /** Adding an attribute only grows the tree. */
  lemma {:induction false} AddAttributeGrows(items: seq<Include>, p: Path, name: string)
    ensures Extends(items, AddAttribute(items, p, name))
    decreases |p|
  {
    var r := AddAttribute(items, p, name);
    if p == [] || p[0] >= |items| {
      ExtendsRefl(items);
    } else {
      var a := items[p[0]];
      forall i | 0 <= i < |items| && i != p[0]
        ensures Grows(items[i], r[i])
      {
        GrowsRefl(items[i]);
      }
      forall j | 0 <= j < |a.nested|
        ensures Grows(a.nested[j], a.nested[j])
      {
        GrowsRefl(a.nested[j]);
      }
      if |p| > 1 {
        AddAttributeGrows(a.nested, p[1..], name);
      }
      assert Grows(a, r[p[0]]);
    }
  }

  /** Growth keeps every path that led somewhere, to the grown include. */
  lemma {:induction false} AtGrows(olds: seq<Include>, news: seq<Include>, p: Path)
    requires Extends(olds, news) && At(olds, p).Some?
    ensures At(news, p).Some? && Grows(At(olds, p).value, At(news, p).value)
    decreases |p|
  {
    assert Grows(olds[p[0]], news[p[0]]);
    if |p| > 1 {
      AtGrows(olds[p[0]].nested, news[p[0]].nested, p[1..]);
    }
  }

  lemma {:induction false} AtNested(items: seq<Include>, p: Path, i: nat)
    requires At(items, p).Some? && i < |At(items, p).value.nested|
    ensures At(items, p + [i]) == Some(At(items, p).value.nested[i])
    decreases |p|
  {
    assert (p + [i])[0] == p[0];
    assert (p + [i])[1..] == p[1..] + [i];
    if |p| > 1 {
      AtNested(items[p[0]].nested, p[1..], i);
    }
  }

  lemma {:induction false} AddAttributeAt(items: seq<Include>, p: Path, name: string)
    requires At(items, p).Some?
    ensures At(AddAttribute(items, p, name), p).Some?
    ensures name in At(AddAttribute(items, p, name), p).value.attributes
    decreases |p|
  {
    if |p| > 1 {
      AddAttributeAt(items[p[0]].nested, p[1..], name);
    }
  }

  /** Every path of an alias map leads to an include carrying that alias. */
  predicate PathsValid(items: seq<Include>, m: map<string, Path>) {
    forall k | k in m :: At(items, m[k]).Some? && At(items, m[k]).value.alias == k
  }

  lemma PathsValidGrow(olds: seq<Include>, news: seq<Include>, m: map<string, Path>)
    requires Extends(olds, news) && PathsValid(olds, m)
    ensures PathsValid(news, m)
  {
    forall k | k in m
      ensures At(news, m[k]).Some? && At(news, m[k]).value.alias == k
    {
      AtGrows(olds, news, m[k]);
    }
  }

  lemma NestedMapValid(items: seq<Include>, p: Path)
    ensures PathsValid(items, NestedMap(items, p))
  {
    if At(items, p).Some? {
      var inc := At(items, p).value;
      var m := IndexMap(inc.nested, p);
      IndexMapSpec(inc.nested, p);
      forall k | k in m
        ensures At(items, m[k]).Some? && At(items, m[k]).value.alias == k
      {
        assert IndexedLast(inc.nested, p, k, m[k]);
        var i := m[k][|p|];
        assert m[k] == p + [i];
        AtNested(items, p, i);
      }
    }
  }

  lemma TopMapValid(items: seq<Include>)
    ensures PathsValid(items, IndexMap(items, []))
  {
    var m := IndexMap(items, []);
    IndexMapSpec(items, []);
    forall k | k in m
      ensures At(items, m[k]).Some? && At(items, m[k]).value.alias == k
    {
      assert IndexedLast(items, [], k, m[k]);
      assert m[k] == [m[k][0]];
    }
  }

  /** The segment after the last dot. */
  function LastSegment(attr: string): string {
    var parts := Split(attr);
    parts[|parts| - 1]
  }

  /**
   * The model reached from `model` by following, one after the other, the
   * associations that `segs` names; none when one of them is missing.
   */
  function Follow(cat: Catalog, model: Entity, segs: seq<string>): Option<Entity>
    decreases |segs|
  {
    if segs == [] then Some(model)
    else
      match FindAssociation(model, segs[0])
      case None => None
      case Some(a) => Follow(cat, TargetOf(cat, a), segs[1..])
  }

  /**
   * The association the next-to-last segment of `parts[idx..]` names, looked
   * up on the model the segments before it lead to from `model`.
   */
  function OwnerAssociation(cat: Catalog, model: Entity, parts: seq<string>, idx: nat): Option<Association>
    requires idx <= |parts| - 2
  {
    match Follow(cat, model, parts[idx..|parts| - 2])
    case None => None
    case Some(m) => FindAssociation(m, parts[|parts| - 2])
  }

  /**
   * `q` leads, in `news`, to the include for association `a`: either one that
   * `olds` already held at `q` under `a`'s alias, or one pushed onto the top
   * level after `olds` with `a`'s alias and `a`'s target model.
   */
  predicate JoinFor(cat: Catalog, olds: seq<Include>, news: seq<Include>, q: Path, a: Association) {
    At(news, q).Some? && At(news, q).value.alias == a.alias &&
    ((At(olds, q).Some? && At(olds, q).value.alias == a.alias) ||
     (|q| == 1 && |olds| <= q[0] && At(news, q).value.model == TargetOf(cat, a).name))
  }

  /** A successful walk grows the tree, pushes only bare includes, and keeps every alias map it uses valid. */
  lemma {:induction false} WalkSegmentsGrows(cat: Catalog, parts: seq<string>, idx: nat, model: Entity, w: Walk, current: map<string, Path>, atTop: bool, target: Path)
    requires idx < |parts|
    requires PathsValid(w.items, w.top) && PathsValid(w.items, current)
    requires idx == |parts| - 1 ==> At(w.items, target).Some?
    requires WalkSegments(cat, parts, idx, model, w, current, atTop, target).Ok?
    ensures var r := WalkSegments(cat, parts, idx, model, w, current, atTop, target).value;
      Extends(w.items, r.items) && FreshFrom(|w.items|, r.items) && PathsValid(r.items, r.top)
    decreases |parts| - idx
  {
    var part := parts[idx];
    if idx == |parts| - 1 {
      var items' := AddAttribute(w.items, target, part);
      AddAttributeGrows(w.items, target, part);
      PathsValidGrow(w.items, items', w.top);
    } else {
      var a := FindAssociation(model, part).value;
      var t := TargetOf(cat, a);
      if part in current {
        var p := current[part];
        NestedMapValid(w.items, p);
        WalkSegmentsGrows(cat, parts, idx + 1, t, w, NestedMap(w.items, p), false, p);
      } else {
        var p: Path := [|w.items|];
        var x := Include(t.name, a.alias, None, [], []);
        var w' := Walk(w.items + [x], if atTop then w.top[part := p] else w.top);
        AppendExtends(w.items, x);
        PathsValidGrow(w.items, w'.items, w.top);
        assert At(w'.items, p) == Some(x);
        NestedMapValid(w'.items, p);
        WalkSegmentsGrows(cat, parts, idx + 1, t, w', NestedMap(w'.items, p), false, p);
        var r := WalkSegments(cat, parts, idx + 1, t, w', NestedMap(w'.items, p), false, p).value;
        ExtendsTrans(w.items, w'.items, r.items);
        FreshTrans(w.items, w'.items, r.items);
      }
    }
  }

  /**
   * A successful walk returns the path `q` of the include it reached for the
   * next-to-last segment: the one the current map held under that segment,
   * or else the one it pushed at the end of the top-level list, carrying the
   * association's alias and target model. The last segment is in that
   * include's attributes.
   */
  lemma {:induction false} WalkSegmentsReaches(cat: Catalog, parts: seq<string>, idx: nat, model: Entity, w: Walk, current: map<string, Path>, atTop: bool, target: Path)
    returns (q: Path)
    requires idx < |parts|
    requires PathsValid(w.items, w.top) && PathsValid(w.items, current)
    requires idx == |parts| - 1 ==> At(w.items, target).Some?
    requires WalkSegments(cat, parts, idx, model, w, current, atTop, target).Ok?
    ensures var r := WalkSegments(cat, parts, idx, model, w, current, atTop, target).value;
      At(r.items, q).Some? && parts[|parts| - 1] in At(r.items, q).value.attributes
    ensures idx == |parts| - 1 ==> q == target
    ensures idx == |parts| - 2 ==> q == (if parts[idx] in current then current[parts[idx]] else [|w.items|])
    ensures idx < |parts| - 1 ==> (OwnerAssociation(cat, model, parts, idx).Some? &&
      JoinFor(cat, w.items, WalkSegments(cat, parts, idx, model, w, current, atTop, target).value.items, q, OwnerAssociation(cat, model, parts, idx).value))
    ensures idx < |parts| - 1 && parts[idx] !in current ==> |q| == 1 && |w.items| <= q[0]
    decreases |parts| - idx, 1
  {
    var part := parts[idx];
    var n := |parts|;
    var r := WalkSegments(cat, parts, idx, model, w, current, atTop, target).value;
    if idx == n - 1 {
      AddAttributeAt(w.items, target, part);
      q := target;
    } else {
      var a := FindAssociation(model, part).value;
      var t := TargetOf(cat, a);
      if part in current {
        if idx < n - 2 {
          assert parts[idx..n - 2][0] == part && parts[idx..n - 2][1..] == parts[idx + 1..n - 2];
          assert OwnerAssociation(cat, model, parts, idx) == OwnerAssociation(cat, t, parts, idx + 1);
        }
        var p := current[part];
        NestedMapValid(w.items, p);
        q := WalkSegmentsReaches(cat, parts, idx + 1, t, w, NestedMap(w.items, p), false, p);
        if idx == n - 2 {
          WalkSegmentsGrows(cat, parts, idx + 1, t, w, NestedMap(w.items, p), false, p);
          AtGrows(w.items, r.items, p);
        }
      } else {
        q := WalkSegmentsReachesPushed(cat, parts, idx, model, w, current, atTop, target);
      }
    }
  }

  /** `WalkSegmentsReaches` when the segment at `idx` is not in the current map, so its include is pushed. */
  lemma WalkSegmentsReachesPushed(cat: Catalog, parts: seq<string>, idx: nat, model: Entity, w: Walk, current: map<string, Path>, atTop: bool, target: Path)
    returns (q: Path)
    requires idx < |parts| - 1 && parts[idx] !in current
    requires PathsValid(w.items, w.top) && PathsValid(w.items, current)
    requires WalkSegments(cat, parts, idx, model, w, current, atTop, target).Ok?
    ensures var r := WalkSegments(cat, parts, idx, model, w, current, atTop, target).value;
      At(r.items, q).Some? && parts[|parts| - 1] in At(r.items, q).value.attributes
    ensures idx == |parts| - 2 ==> q == [|w.items|]
    ensures OwnerAssociation(cat, model, parts, idx).Some? &&
      JoinFor(cat, w.items, WalkSegments(cat, parts, idx, model, w, current, atTop, target).value.items, q, OwnerAssociation(cat, model, parts, idx).value)
    ensures |q| == 1 && |w.items| <= q[0]
    decreases |parts| - idx, 0
  {
    var part := parts[idx];
    var n := |parts|;
    var r := WalkSegments(cat, parts, idx, model, w, current, atTop, target).value;
    var a := FindAssociation(model, part).value;
    var t := TargetOf(cat, a);
    if idx < n - 2 {
      assert parts[idx..n - 2][0] == part && parts[idx..n - 2][1..] == parts[idx + 1..n - 2];
      assert OwnerAssociation(cat, model, parts, idx) == OwnerAssociation(cat, t, parts, idx + 1);
    }
    var p: Path := [|w.items|];
    var x := Include(t.name, a.alias, None, [], []);
    var w' := Walk(w.items + [x], if atTop then w.top[part := p] else w.top);
    AppendExtends(w.items, x);
    PathsValidGrow(w.items, w'.items, w.top);
    assert At(w'.items, p) == Some(x);
    NestedMapValid(w'.items, p);
    assert NestedMap(w'.items, p) == map[];
    q := WalkSegmentsReaches(cat, parts, idx + 1, t, w', NestedMap(w'.items, p), false, p);
    if idx == n - 2 {
      WalkSegmentsGrows(cat, parts, idx + 1, t, w', NestedMap(w'.items, p), false, p);
      AtGrows(w'.items, r.items, p);
    }
  }

  /**
   * The dotted entry `attr` is filed in `news`: its segments before the last
   * lead from `e` to an association, and some include of `news` carrying that
   * association's alias lists the last segment among its attributes. That
   * include is one `olds` already held, or one pushed onto the top level
   * after them.
   */
  ghost predicate Filed(cat: Catalog, e: Entity, attr: string, olds: seq<Include>, news: seq<Include>) {
    |Split(attr)| >= 2 && OwnerAssociation(cat, e, Split(attr), 0).Some? &&
    exists q :: FiledAt(OwnerAssociation(cat, e, Split(attr), 0).value.alias, LastSegment(attr), olds, news, q)
  }

  /** The include at `q` in `news` carries `alias` and lists `name`, and was in `olds` or pushed after them. */
  predicate FiledAt(alias: string, name: string, olds: seq<Include>, news: seq<Include>, q: Path) {
    At(news, q).Some? && At(news, q).value.alias == alias && name in At(news, q).value.attributes &&
    (At(olds, q).Some? || (|q| == 1 && |olds| <= q[0]))
  }

  /** A filed entry stays filed while the tree grows. */
  lemma FiledGrow(cat: Catalog, e: Entity, attr: string, olds: seq<Include>, mids: seq<Include>, news: seq<Include>)
    requires Filed(cat, e, attr, olds, mids) && Extends(mids, news)
    ensures Filed(cat, e, attr, olds, news)
  {
    var alias := OwnerAssociation(cat, e, Split(attr), 0).value.alias;
    var q :| FiledAt(alias, LastSegment(attr), olds, mids, q);
    AtGrows(mids, news, q);
    var x, y := At(mids, q).value, At(news, q).value;
    var k :| 0 <= k < |x.attributes| && x.attributes[k] == LastSegment(attr);
    assert y.attributes[k] == LastSegment(attr);
    assert FiledAt(alias, LastSegment(attr), olds, news, q);
  }

  /** A path that leads somewhere after growth, and starts inside the old list, led somewhere before. */
  lemma {:induction false} AtShrinks(olds: seq<Include>, news: seq<Include>, p: Path)
    requires Extends(olds, news) && At(news, p).Some? && p[0] < |olds|
    ensures At(olds, p).Some?
    decreases |p|
  {
    assert Grows(olds[p[0]], news[p[0]]);
    if |p| > 1 {
      AtShrinks(olds[p[0]].nested, news[p[0]].nested, p[1..]);
    }
  }

  /** A path into an include pushed bare ends at that include. */
  lemma AtFresh(n: nat, items: seq<Include>, q: Path)
    requires FreshFrom(n, items) && At(items, q).Some? && n <= q[0]
    ensures |q| == 1
  {
  }

  /** A filed entry is still filed against an older starting tree, when everything pushed since is bare. */
  lemma FiledFrom(cat: Catalog, e: Entity, attr: string, olds: seq<Include>, mids: seq<Include>, news: seq<Include>)
    requires Extends(olds, mids) && FreshFrom(|olds|, mids) && Filed(cat, e, attr, mids, news)
    ensures Filed(cat, e, attr, olds, news)
  {
    var alias := OwnerAssociation(cat, e, Split(attr), 0).value.alias;
    var q :| FiledAt(alias, LastSegment(attr), mids, news, q);
    if At(mids, q).Some? && q[0] < |olds| {
      AtShrinks(olds, mids, q);
    } else if At(mids, q).Some? {
      AtFresh(|olds|, mids, q);
    }
    assert FiledAt(alias, LastSegment(attr), olds, news, q);
  }

  /** One dotted select entry grows the tree, pushes only bare includes, and files itself. */
  lemma SelectOneFiled(cat: Catalog, e: Entity, attr: string, w: Walk)
    requires PathsValid(w.items, w.top) && Dotted(attr)
    requires SelectOne(cat, e, attr, w).Ok?
    ensures var w' := SelectOne(cat, e, attr, w).value;
      Extends(w.items, w'.items) && FreshFrom(|w.items|, w'.items) && PathsValid(w'.items, w'.top) &&
      Filed(cat, e, attr, w.items, w'.items)
  {
    SplitCount(attr);
    var parts := Split(attr);
    var w' := SelectOne(cat, e, attr, w).value;
    WalkSegmentsGrows(cat, parts, 0, e, w, w.top, true, []);
    var q := WalkSegmentsReaches(cat, parts, 0, e, w, w.top, true, []);
    var a := OwnerAssociation(cat, e, parts, 0).value;
    assert JoinFor(cat, w.items, w'.items, q, a);
    assert FiledAt(a.alias, LastSegment(attr), w.items, w'.items, q);
  }

  lemma {:induction false} SelectFoldGrows(cat: Catalog, e: Entity, select: seq<string>, w: Walk)
    requires PathsValid(w.items, w.top)
    requires SelectFold(cat, e, select, w).Ok?
    ensures Extends(w.items, SelectFold(cat, e, select, w).value.items)
    ensures FreshFrom(|w.items|, SelectFold(cat, e, select, w).value.items)
    ensures forall j | 0 <= j < |select| && Dotted(select[j]) :: Filed(cat, e, select[j], w.items, SelectFold(cat, e, select, w).value.items)
  {
    if select == [] {
      ExtendsRefl(w.items);
    } else {
      var attr := select[0];
      var w' := SelectOne(cat, e, attr, w).value;
      if Dotted(attr) {
        SelectOneFiled(cat, e, attr, w);
      } else {
        ExtendsRefl(w.items);
      }
      var r := SelectFold(cat, e, select[1..], w').value.items;
      SelectFoldGrows(cat, e, select[1..], w');
      ExtendsTrans(w.items, w'.items, r);
      FreshTrans(w.items, w'.items, r);
      if Dotted(attr) {
        FiledGrow(cat, e, attr, w.items, w'.items, r);
      }
      assert FreshFrom(|w.items|, w'.items);
      forall j | 1 <= j < |select| && Dotted(select[j])
        ensures Filed(cat, e, select[j], w.items, r)
      {
        assert select[j] == select[1..][j - 1];
        FiledFrom(cat, e, select[j], w.items, w'.items, r);
      }
    }
  }

  /**
   * On success the includes the caller passed keep their model, alias,
   * `required` flag and nesting, gaining attributes only at the end of their
   * lists; every include pushed has no `required` flag and nothing nested;
   * and the last segment of every dotted select entry is in the attribute
   * list of the join for the association its other segments lead to.
   */
  lemma ProjectGrows(cat: Catalog, e: Entity, select: Option<seq<string>>, items: seq<Include>)
    requires Project(cat, e, select, items).Ok?
    ensures Extends(items, Project(cat, e, select, items).value.includes)
    ensures FreshFrom(|items|, Project(cat, e, select, items).value.includes)
    ensures select.Some? ==> forall a | a in select.value && Dotted(a) :: Filed(cat, e, a, items, Project(cat, e, select, items).value.includes)
  {
    if select.None? {
      ExtendsRefl(items);
    } else {
      TopMapValid(items);
      SelectFoldGrows(cat, e, select.value, Walk(items, IndexMap(items, [])));
    }
  }

  // ---- No include lists an attribute twice ----

  /** No include of the tree lists an attribute twice. */
  ghost predicate DupFree(items: seq<Include>) {
    forall p | At(items, p).Some? :: NoDup(At(items, p).value.attributes)
  }

  /**
   * Adding an attribute at `t` changes the attributes of the include at `t`
   * alone, as `AddName` does, and leaves every path leading where it did.
   */
  lemma {:induction false} AtAddAttribute(items: seq<Include>, t: Path, name: string, p: Path)
    ensures At(AddAttribute(items, t, name), p).Some? == At(items, p).Some?
    ensures At(items, p).Some? ==> (At(AddAttribute(items, t, name), p).value.attributes ==
      if p == t then AddName(At(items, p).value, name).attributes else At(items, p).value.attributes)
    decreases |p|
  {
    if t != [] && t[0] < |items| && p != [] && p[0] == t[0] && |t| > 1 && |p| > 1 {
      AtAddAttribute(items[t[0]].nested, t[1..], name, p[1..]);
      assert p == t <==> p[1..] == t[1..] by {
        assert p == [p[0]] + p[1..] && t == [t[0]] + t[1..];
      }
    }
  }

  lemma DupFreeAdd(items: seq<Include>, t: Path, name: string)
    requires DupFree(items)
    ensures DupFree(AddAttribute(items, t, name))
  {
    forall p | At(AddAttribute(items, t, name), p).Some?
      ensures NoDup(At(AddAttribute(items, t, name), p).value.attributes)
    {
      AtAddAttribute(items, t, name, p);
    }
  }

  lemma DupFreePush(items: seq<Include>, x: Include)
    requires DupFree(items) && x.required.None? && x.attributes == [] && x.nested == []
    ensures DupFree(items + [x])
  {
    forall p | At(items + [x], p).Some?
      ensures NoDup(At(items + [x], p).value.attributes)
    {
      if p[0] < |items| {
        assert (items + [x])[p[0]] == items[p[0]];
        assert At(items + [x], p) == At(items, p);
      } else {
        AtFresh(|items|, items + [x], p);
      }
    }
  }

  /** A walk keeps every include's attributes free of repeats. */
  lemma {:induction false} WalkSegmentsDupFree(cat: Catalog, parts: seq<string>, idx: nat, model: Entity, w: Walk, current: map<string, Path>, atTop: bool, target: Path)
    requires idx < |parts| && DupFree(w.items)
    requires WalkSegments(cat, parts, idx, model, w, current, atTop, target).Ok?
    ensures DupFree(WalkSegments(cat, parts, idx, model, w, current, atTop, target).value.items)
    decreases |parts| - idx
  {
    var part := parts[idx];
    if idx == |parts| - 1 {
      DupFreeAdd(w.items, target, part);
    } else {
      var a := FindAssociation(model, part).value;
      var t := TargetOf(cat, a);
      if part in current {
        var p := current[part];
        WalkSegmentsDupFree(cat, parts, idx + 1, t, w, NestedMap(w.items, p), false, p);
      } else {
        var p: Path := [|w.items|];
        var x := Include(t.name, a.alias, None, [], []);
        var w' := Walk(w.items + [x], if atTop then w.top[part := p] else w.top);
        DupFreePush(w.items, x);
        WalkSegmentsDupFree(cat, parts, idx + 1, t, w', NestedMap(w'.items, p), false, p);
      }
    }
  }

  lemma {:induction false} SelectFoldDupFree(cat: Catalog, e: Entity, select: seq<string>, w: Walk)
    requires DupFree(w.items)
    requires SelectFold(cat, e, select, w).Ok?
    ensures DupFree(SelectFold(cat, e, select, w).value.items)
  {
    if select != [] {
      var attr := select[0];
      if Dotted(attr) {
        SplitCount(attr);
        WalkSegmentsDupFree(cat, Split(attr), 0, e, w, w.top, true, []);
      }
      SelectFoldDupFree(cat, e, select[1..], SelectOne(cat, e, attr, w).value);
    }
  }

  /**
   * A final segment is added to an include's attributes only when it is not
   * there yet: includes whose attribute lists were free of repeats before
   * the projection still are, and the includes it pushes start empty.
   */
  lemma ProjectDupFree(cat: Catalog, e: Entity, select: Option<seq<string>>, items: seq<Include>)
    requires DupFree(items)
    requires Project(cat, e, select, items).Ok?
    ensures DupFree(Project(cat, e, select, items).value.includes)
  {
    if select.Some? {
      SelectFoldDupFree(cat, e, select.value, Walk(items, IndexMap(items, [])));
    }
  }
}
