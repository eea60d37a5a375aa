# A verified model of the dynamic query builder

This project models the query compiler of `src/helpers/query-builder.js` in
Dafny. The compiler takes a JSON request and produces a Sequelize `findAll`
options object. The request names a model, and may carry:

- filters and an optional global-search flag;
- join options;
- a select list and group-by fields;
- aggregates and a HAVING object;
- sorting and pagination;
- a transaction.

The compiler works against a schema catalog, given here as a parameter. Each
model in it has raw attributes (a name and an optional storage column) and
associations (an alias, a target model named by its name, an association
type, and source and foreign keys). Targets are named rather than nested, so
a catalog may contain cycles. An association type is BelongsTo, HasOne, HasMany,
BelongsToMany, or any other type name; the type of the last case excludes the
four names, so one type has one representation.

What the model covers:

- **Operator table.** The 30 `__`-prefixed operator tokens and the Sequelize
  `Op` each stands for.
- **`buildConditionObject`.** Compiles operator objects such as
  `{ "__gte": 18 }`.
- **`buildConditions`.** Builds the where clause, including global search.
  Logical groups (`__and`, `__or`), subquery markers, columns of the model and
  columns of associated models each have their own branch. Unknown keys are
  dropped.
- **`extractIncludes`.** Builds the join list. Dotted keys, bare association
  keys and `and`/`or` groups each have their own branch, with INNER or LEFT
  joins taken from the join options.
- **`buildAttributes`.** Builds the projection. It walks dotted select paths
  and extends the caller's include list in place.
- **`buildGroupBy`.** Resolves group-by and select columns into a list
  without duplicates.
- **`buildAggregates` and `buildHavingConditions`.** The aggregate aliases,
  and the HAVING clause that must use them.
- **`buildSubqueries`.** The list of subqueries.
- **`buildQuery`.** Assembles the whole options object.
- **`getTotalCount`.** Only its removal of `limit` and `offset`.
- **Schema walks.** `getModelTree`, limited by depth, and `getAllFields`,
  which keeps a visited set.

How the source is modelled:

- A JavaScript object is an ordered list of key/value pairs. Assigning to a
  key overwrites it in place, or appends the key when it is new, so output
  objects keep the source's insertion order.
- Sequelize values are constructors of datatypes: `Op` symbols, literals,
  `fn`/`col` aggregates and includes.
- Every function that throws returns an `Outcome`, an `Ok` value or an
  `Error`. There is one error constructor per kind of `throw`. JavaScript
  `TypeError`s (reading a property of `null`, calling `.map` on a non-array,
  `push` on an undefined list) are the `TypeError` error. They are not turned
  into preconditions. On the requests the model can represent, it accepts and
  rejects what the source does, apart from the differences listed under
  "Left out". The requests it cannot represent are listed there too.
- Where the source changes state step by step, the model is imperative, and
  each method is proved equal to a specification function. The properties
  are then proved about that function:
  - the loops of `buildConditions`, `extractIncludes`, `buildSubqueries`,
    `buildGroupBy` and `getModelTree` are methods;
  - `buildAttributes` extends the include list through the class
    `IncludeList`;
  - `getAllFields` threads the class `VisitedSet`;
  - `buildQuery` and `getTotalCount` edit the class `QueryOptions`.
- An include that `buildAttributes` reaches by reference is addressed by its
  path of list indices.

## Model

| member | source | states |
|---|---|---|
| Operators.Token | src/helpers/query-builder.js:6-37 | An operator's token is its name behind `__`. |
| Operators.OperatorOf | src/helpers/query-builder.js:6-37 | A token maps to a known operator exactly when that operator's token is the token; otherwise no known operator has it. |
| Operators.TokenRoundTrip | src/helpers/query-builder.js:6-37 | Every known operator is found again from its own token. |
| Operators.OperatorTable | src/helpers/query-builder.js:6-37 | The table holds exactly 30 operators, all distinct. |
| Operators.TokenInjective | src/helpers/query-builder.js:6-37 | Distinct operators have distinct tokens. |
| Catalog.FindEntity | src/helpers/query-builder.js:55 | The model registry lookup returns a registered model of that name, or none exists. |
| Catalog.FindAttribute | src/helpers/query-builder.js:119 | The raw-attribute lookup returns an attribute of that name, or none exists. |
| Catalog.FindAssociation | src/helpers/query-builder.js:123-125 | An association with the alias, or none has it. |
| Catalog.FindAssociationIsFirst | src/helpers/query-builder.js:123-125 | No association before the one returned has the alias. |
| Catalog.FindAssociationHolding | src/helpers/query-builder.js:203-205 | An association whose target has the field as a raw attribute, or no target has it. |
| Catalog.FindAssociationHoldingIsFirst | src/helpers/query-builder.js:203-205 | No association before the one returned leads to a model with the field, so when two targets have it the earlier alias is used. |
| Catalog.TargetOf | src/helpers/query-builder.js:127 | An association's target model carries the target's name. |
| Catalog.AttributeNames | src/helpers/query-builder.js:534 | The raw attribute names, in declaration order. |
| Catalog.HasAttribute | src/helpers/query-builder.js:119 | Definition: `model.rawAttributes[col]` is defined, that is the raw-attribute lookup finds the name. |
| Catalog.StorageColumn | src/helpers/query-builder.js:120 | Definition: `rawAttributes[col].field || col`, the storage column when it is a non-empty string and the attribute name otherwise. |
| Catalog.TypeName | src/helpers/query-builder.js:298-301 | Definition: the association type as the "Unsupported association type" message renders it. |
| Collections.Put | src/helpers/query-builder.js:199-201 | After assigning a key, the key reads back the new value, and every other key reads as before. |
| Collections.PutKeys | src/helpers/query-builder.js:407-428 | Assigning an existing key keeps the key order; assigning a new key appends it. |
| Collections.Dedup | src/helpers/query-builder.js:114 | Keeps exactly the elements of the input. |
| Collections.DedupNoDup | src/helpers/query-builder.js:172 | The `Set` as an array has no duplicates. |
| Collections.DedupSnoc | src/helpers/query-builder.js:120 | Adding an element to the `Set` appends it exactly when it is new. |
| Collections.DedupPrefix | src/helpers/query-builder.js:113-173 | Later additions never reorder the elements already in the `Set`. |
| Paths.Split | src/helpers/query-builder.js:122 | Splitting on dots yields at least one segment. |
| Paths.JoinSplit | src/helpers/query-builder.js:246 | Joining the segments of a split with dots gives back the original path. |
| Paths.SegmentsUndotted | src/helpers/query-builder.js:325 | No segment of a split contains a dot. |
| Paths.SplitCount | src/helpers/query-builder.js:243-244 | A path has more than one segment exactly when it contains a dot. |
| Paths.DottedDecomposition | src/helpers/query-builder.js:243-246 | A dotted path is its first segment, a dot, and the rest of the path, and the rest is shorter. |
| Paths.Undotted | src/helpers/query-builder.js:371 | The filtered list holds exactly the dot-free entries, and nothing with a dot. |
| Paths.UndottedAppend | src/helpers/query-builder.js:371 | The filter distributes over concatenation, so the order of entries is kept. |
| Paths.UndottedIdempotent | src/helpers/query-builder.js:371 | Filtering twice is filtering once. |
| Json.Truthy | src/helpers/query-builder.js:84 | Definition: JavaScript truthiness, with `null`, `false`, `0` and `""` falsy and every array and object truthy. |
| Json.Text | src/helpers/query-builder.js:227 | Definition: what a template literal renders, including `[object Object]` for an object and `join(",")` for an array. |
| Json.Entries | src/helpers/query-builder.js:193 | `Object.entries`: an object's own properties in order, an array's index/element pairs, nothing for a number or boolean, each value smaller than its container. |
| Json.Keys | src/helpers/query-builder.js:237 | Definition: `Object.keys`, the keys of `Object.entries`. |
| Json.Member | src/helpers/query-builder.js:91 | A property read finds only an own property of an object, and returns the value stored under that name. |
| ConditionObject.BuildConditionObject | src/helpers/query-builder.js:402-405 | `null` fails with a TypeError. A non-object or array fails with "Conditions should be an object". A success is an object. |
| ConditionObject.CompileOperators | src/helpers/query-builder.js:409-428 | The operator loop always builds an object. `CompileOperatorsOk` and `CompileOperatorsEntries` state when it succeeds and what it holds. |
| ConditionObject.CompileOperand | src/helpers/query-builder.js:415-427 | An `and`/`or` operand must be an array and compiles to a list of the same length; `CompileOperandItems` states its contents. `like`/`iLike` under global search become `%value%`. Every other operand is copied unchanged. |
| ConditionObject.CompileOperandItems | src/helpers/query-builder.js:415-418 | A compiled `and`/`or` operand is a list whose item i is element i compiled by `buildConditionObject` with the same `globalSearch`. |
| ConditionObject.CompileEach | src/helpers/query-builder.js:416-418 | The mapped list has one entry per element; `CompileEachItems` states its contents. |
| ConditionObject.CompileEachItems | src/helpers/query-builder.js:416-418 | The mapped list keeps the entries mapped before, then holds each element compiled on its own, in order. |
| ConditionObject.BuildConditionObjectOk | src/helpers/query-builder.js:402-431 | Compilation succeeds exactly on valid operator objects: every key is one of the 30 tokens, and every `__and`/`__or` operand is an array of valid operator objects. This does not depend on global search. |
| ConditionObject.CompileOperatorsOk | src/helpers/query-builder.js:409-428 | The loop over the operators succeeds exactly when every operator entry is valid. |
| ConditionObject.CompileOperandOk | src/helpers/query-builder.js:415-418 | An operand compiles exactly when it is valid for its operator. |
| ConditionObject.CompileEachOk | src/helpers/query-builder.js:416-418 | Mapping over a logical list succeeds exactly when every element is a valid operator object. |
| ConditionObject.BuildConditionObjectEntries | src/helpers/query-builder.js:407-430 | A compiled object has exactly one entry per input operator, in input order. Each entry is the operator's symbol with its compiled operand. |
| ConditionObject.CompileOperatorsEntries | src/helpers/query-builder.js:409-428 | The loop keeps the entries built so far and adds the compiled entries of the remaining operators after them. |
| Filters.SubqueryLiteral | src/helpers/query-builder.js:199 | A subquery marker becomes a literal wrapped in parentheses. |
| Filters.IsSubqueryMarker | src/helpers/query-builder.js:198 | Definition: `typeof conditions === "object" && conditions.subquery`, an object whose `subquery` member is truthy. |
| Filters.LikeAny | src/helpers/query-builder.js:227 | A global-search condition is a single `Op.like` entry whose pattern is the rendered value between two `%`. |
| Filters.GlobalSearch | src/helpers/query-builder.js:223-231 | One condition per filter entry. `GlobalSearchItems` states that entry i is the `like` condition of value i. |
| Filters.AndItems | src/helpers/query-builder.js:211 | Definition: `where[Op.and] || []`, the list already filed under `Op.and`. |
| Filters.FilterFold | src/helpers/query-builder.js:193-217 | Definition: the loop over `Object.entries(filters)`, applying `FilterStep` key by key and stopping at the first error. Its lemmas are `FilterFoldOk`, `FilterFoldKeepsName`, `FilterFoldAndList` and `FilterFoldDropsUnknown`. |
| Filters.FilterStep | src/helpers/query-builder.js:194-216 | Definition: one filter entry. A logical group needs an array and files its compiled children under `Op.and`/`Op.or`. A subquery marker files its literal. A raw attribute files its condition object. A column of an associated model appends `{$alias.field$: condition}` to `Op.and`. Any other key is dropped. Its lemmas are `FilterStepOk`, `FilterStepSetsName`, `FilterStepKeepsName` and `FilterStepAndList`. |
| Filters.Qualified | src/helpers/query-builder.js:213 | The key for an associated column is `$alias.field$`. |
| Filters.Conditions | src/helpers/query-builder.js:183-186 | `null` fails with a TypeError. Any other non-object or array fails with "Filters should be an object". A success is an object. |
| Filters.ConditionsEach | src/helpers/query-builder.js:195-197 | A logical group compiles to one condition per child. |
| Filters.BuildConditions | src/helpers/query-builder.js:183-221 | The loop computes exactly the specified where clause or error. |
| Filters.ApplyFilter | src/helpers/query-builder.js:194-216 | One filter entry changes the where object exactly as specified. |
| Filters.BuildEach | src/helpers/query-builder.js:195-197 | The children of a logical group are compiled exactly as specified. |
| Filters.BuildGlobalSearchConditions | src/helpers/query-builder.js:223-231 | The loop builds exactly the specified global-search list. |
| Filters.ConditionsOk | src/helpers/query-builder.js:183-221 | Compilation succeeds exactly on valid filter objects: logical groups hold arrays of valid filter objects, no other value is `null`, and model or associated columns carry valid operator objects. |
| Filters.FilterFoldOk | src/helpers/query-builder.js:193-217 | The loop succeeds exactly when every entry is valid. |
| Filters.FilterStepOk | src/helpers/query-builder.js:194-216 | One entry compiles exactly when it is valid. |
| Filters.ConditionsEachOk | src/helpers/query-builder.js:195-197 | A logical group compiles exactly when every child is a valid filter object. |
| Filters.FilterFoldAppend | src/helpers/query-builder.js:193-217 | Compiling two runs of entries is compiling the first and then continuing with the second. |
| Filters.UnknownFieldDropped | src/helpers/query-builder.js:202-216 | A key that is neither a column of the model nor of any associated model, and is not a marker or group, changes nothing and raises no error, wherever it appears. |
| Filters.FilterFoldDropsUnknown | src/helpers/query-builder.js:203-216 | Inside the loop, an unknown entry can be removed without changing the result. |
| Filters.FilterStepKeepsName | src/helpers/query-builder.js:194-216 | One entry never changes the where entry of a different field name. |
| Filters.FilterFoldKeepsName | src/helpers/query-builder.js:193-217 | Entries for other keys never change a field's where entry. |
| Filters.FilterStepSetsName | src/helpers/query-builder.js:198-201 | A field's own entry becomes its subquery literal or its compiled condition object; otherwise the entry is unchanged. |
| Filters.FieldEntry | src/helpers/query-builder.js:198-201 | In a compiled filter object, a marker key holds its literal and a column of the model holds its compiled conditions. No other key is stored under its own name. |
| Filters.FieldEntrySplit | src/helpers/query-builder.js:193-217 | The entries before and after a key do not affect what that key's name holds. |
| Filters.ConditionsEachItems | src/helpers/query-builder.js:195-197 | Each mapped child is that child compiled by `buildConditions`, in order. |
| Filters.LogicalGroupEntry | src/helpers/query-builder.js:194-197 | A `__and`/`__or` key needs an array, and stores under its operator the list of its children compiled one by one. |
| Filters.FilterStepAndList | src/helpers/query-builder.js:203-215 | An associated column appends its `$alias.field$` condition to the `Op.and` list. Other keys leave that list alone. |
| Filters.FilterFoldAndList | src/helpers/query-builder.js:203-215 | Over the loop, the `Op.and` list gains the associated-column conditions in key order. |
| Filters.AssociationConditions | src/helpers/query-builder.js:203-215 | Without a `__and` key, the compiled `Op.and` list is exactly the associated-column conditions in key order, and is absent when there are none. |
| Filters.GlobalSearchItems | src/helpers/query-builder.js:226-228 | Global search yields one `like %value%` per filter entry, in order, ignoring the field names. |
| Filters.GlobalSearchShape | src/helpers/query-builder.js:188-191 | Under global search, any filter object compiles to a single `Op.or` list with one `like %value%` per entry, in order. |
| Includes.ExtractIncludes | src/helpers/query-builder.js:233-236 | Absent or falsy filters yield no includes. |
| Includes.Inner | src/helpers/query-builder.js:263-275 | Definition: the join on an alias is INNER exactly when the join options map it to the string "INNER"; otherwise it is LEFT. |
| Includes.KeysFold | src/helpers/query-builder.js:237-306 | Definition: the loop over `Object.keys(filters)`, appending each key's includes and stopping at the first error. `KeysFoldAcc`, `KeysFoldAppend` and `KeysFoldWellJoined` state its properties. |
| Includes.IncludesForKey | src/helpers/query-builder.js:238-305 | Definition: the includes of one key. `and`/`or` need an array and contribute each sub-filter's includes. A dotted key whose first segment is an alias pushes one include nesting the rest. A bare alias of a supported type pushes one include with the sub-filter's dot-free keys as attributes. Another type throws, and any other key pushes nothing. `DottedKeyInclude`, `BareKeyInclude` and `UnsupportedAssociationRejected` state each branch. |
| Includes.EachIncludes | src/helpers/query-builder.js:239-241 | Definition: the `forEach` over the sub-filters of `and`/`or`, concatenating their includes in order. |
| Includes.BuildIncludes | src/helpers/query-builder.js:233-310 | The loop over the keys computes exactly the specified include list or error. |
| Includes.BuildEachIncludes | src/helpers/query-builder.js:238-241 | The loop over the sub-filters of `and`/`or` computes exactly the specified includes. |
| Includes.IncludesFor | src/helpers/query-builder.js:237-305 | One key pushes exactly the specified includes, or fails as specified. |
| Includes.SingleKeyObject | src/helpers/query-builder.js:253-258 | Extracting from `{ [rest]: value }` is extracting for the single key `rest`. |
| Includes.DottedKeyInclude | src/helpers/query-builder.js:243-268 | A dotted key whose first segment is an alias pushes one include. It names the association's target and alias, is required exactly when the join options mark the alias INNER, has no attributes, and nests the includes of the rest of the path. |
| Includes.BareKeyInclude | src/helpers/query-builder.js:269-297 | A bare alias of a supported type pushes one include. It is INNER only when the join options say so (LEFT otherwise), selects the sub-filter's dot-free keys, and nests the sub-filter's includes. |
| Includes.UnsupportedAssociationRejected | src/helpers/query-builder.js:298-301 | A bare alias of any other association type fails, naming that type. |
| Includes.ExtractIncludesWellJoined | src/helpers/query-builder.js:233-310 | Every returned include, at any depth, joins a real association on its alias. It carries the association's target, is required exactly when the alias is marked INNER, and selects only dot-free attributes. |
| Includes.KeysFoldWellJoined | src/helpers/query-builder.js:237-306 | The key loop pushes only well-formed joins. |
| Includes.IncludesForKeyWellJoined | src/helpers/query-builder.js:237-305 | One key pushes only well-formed joins. |
| Includes.DottedKeyWellJoined | src/helpers/query-builder.js:243-268 | A dotted key pushes only well-formed joins. |
| Includes.PlainKeyWellJoined | src/helpers/query-builder.js:269-303 | A bare key pushes only well-formed joins. |
| Includes.EachWellJoined | src/helpers/query-builder.js:238-241 | The sub-filters of a group push only well-formed joins. |
| Includes.KeysFoldAcc | src/helpers/query-builder.js:237-306 | The loop succeeds independently of what was pushed before, and appends its includes after the earlier ones. |
| Includes.KeysFoldAppend | src/helpers/query-builder.js:237-306 | Running the key loop over two runs of keys is running it over the first, then the second. |
| Includes.ExtractIncludesConcat | src/helpers/query-builder.js:237-306 | The includes of a combined filter object are the two objects' includes concatenated. No include is deduplicated. |
| Includes.PlainFiltersNoIncludes | src/helpers/query-builder.js:248-273 | Keys whose first segment names no association push nothing. |
| Includes.PlainObjectNoIncludes | src/helpers/query-builder.js:248-273 | A filter object without association keys yields no includes. |
| Projection.AddName | src/helpers/query-builder.js:331-335 | A name is added to an include's attributes at most once. Existing attributes and every other part of the include stay unchanged. |
| Projection.At | src/helpers/query-builder.js:358 | Definition: the include a path of indices leads to, standing for a reference such as `currentInclude[part]`. |
| Projection.AddAttribute | src/helpers/query-builder.js:331-334 | Adding a name at a path keeps the include list's length. `AddAttributeAt` and `AtAddAttribute` state that only the reached include changes. |
| Projection.NestedMap | src/helpers/query-builder.js:360-363 | Definition: the alias map of the include list nested in the include at a path. |
| Projection.SelectOne | src/helpers/query-builder.js:323-369 | Definition: one select entry. A dotted entry walks its segments from the top-level alias map; an undotted one leaves the includes alone. `SelectOneFiled` states where its last segment lands. |
| Projection.AddAttributeAt | src/helpers/query-builder.js:331-335 | After adding, the include at the path lists the name. |
| Projection.AddAttributeGrows | src/helpers/query-builder.js:331-335 | Adding an attribute only extends the include tree. |
| Projection.IndexMap | src/helpers/query-builder.js:318-321 | Every alias maps to a path one level below the list. |
| Projection.IndexMapSpec | src/helpers/query-builder.js:318-321 | Every alias of the list is in the map, and maps to the last include carrying it. |
| Projection.NestedMapValid | src/helpers/query-builder.js:360-363 | The map of a nested include list only points at existing includes. |
| Projection.TopMapValid | src/helpers/query-builder.js:318-321 | The top-level map only points at existing includes. |
| Projection.WalkSegments | src/helpers/query-builder.js:329-365 | The walk over one path never removes includes. |
| Projection.SelectFold | src/helpers/query-builder.js:323-369 | The select loop never removes includes. |
| Projection.Project | src/helpers/query-builder.js:312-372 | A non-array select returns undefined and changes nothing. Otherwise the attributes are the dot-free select entries in order, and the include list only grows. |
| Projection.IncludeList.constructor | src/helpers/query-builder.js:312 | The caller's include list starts as given. |
| Projection.WalkPath | src/helpers/query-builder.js:324-365 | Walking a dotted entry leaves exactly the specified include list and top-level map, or fails as specified. |
| Projection.SelectEntry | src/helpers/query-builder.js:323-368 | One select entry leaves exactly the specified include list and map; a dot-free entry changes nothing. |
| Projection.BuildAttributes | src/helpers/query-builder.js:312-372 | The method returns exactly the specified attributes or error, and leaves exactly the specified include list. |
| Projection.WalkSegmentsOk | src/helpers/query-builder.js:339-344 | A walk fails exactly when some non-final segment names no association of the model reached so far, whatever the include state. |
| Projection.WalkSegmentsError | src/helpers/query-builder.js:339-344 | A failed walk reports a missing association named by a non-final segment of the path. |
| Projection.SelectFoldOk | src/helpers/query-builder.js:323-369 | The select loop fails exactly when some dotted entry does not resolve. |
| Projection.ProjectOk | src/helpers/query-builder.js:312-372 | `buildAttributes` fails exactly when some dotted select entry does not resolve. |
| Projection.WalkSegmentsGrows | src/helpers/query-builder.js:329-365 | A walk only extends existing includes and pushes bare new ones, and every alias map keeps leading to includes with that alias. |
| Projection.WalkSegmentsReaches | src/helpers/query-builder.js:329-365 | A walk returns the path of the include it reached for the next-to-last segment: the one the current map holds under that segment, or else a new one pushed at the end of the top-level list. That include carries the alias of the association the segments lead to; a pushed one also carries its target model. The final segment is in that include's attributes. |
| Projection.WalkSegmentsReachesPushed | src/helpers/query-builder.js:346-356 | Once a segment is missing from the current map, the include finally reached is one pushed at the top level by this walk, with the association's alias and target model. |
| Projection.SelectOneFiled | src/helpers/query-builder.js:323-366 | One dotted entry files its final segment in the include of its association, which was already there or was pushed by this entry. |
| Projection.SelectFoldGrows | src/helpers/query-builder.js:323-369 | The select loop only extends the tree. The final segment of every dotted entry is an attribute of an include carrying the alias of the association the entry's other segments lead to; that include was passed in or pushed at the top level by the loop. |
| Projection.ProjectGrows | src/helpers/query-builder.js:312-372 | The projection keeps every existing include: same model, alias, `required` and nesting, with attributes only appended. New includes have no `required` and nothing nested. Every dotted entry's final segment becomes an attribute of an include carrying the alias of the association its other segments lead to, one passed in or one pushed at the top level. |
| Projection.AtAddAttribute | src/helpers/query-builder.js:332-334 | Adding a final segment changes the attributes of the reached include only, as `includes`-then-`push` does, and no path changes where it leads. |
| Projection.WalkSegmentsDupFree | src/helpers/query-builder.js:329-365 | A walk never lists an attribute twice in any include that had no repeats. |
| Projection.SelectFoldDupFree | src/helpers/query-builder.js:323-369 | The select loop never lists an attribute twice in any include that had no repeats. |
| Projection.ProjectDupFree | src/helpers/query-builder.js:312-372 | If no include passed in lists an attribute twice, none does after the projection: each final segment is added at most once. |
| GroupBy.ResolveColumnSpec | src/helpers/query-builder.js:119-140 | An entry resolves when it is a raw attribute (to its storage column) or a dotted name whose first segment is an alias (to a column under `alias.`). Otherwise the error names the missing association, or the missing field for a dot-free name. |
| GroupBy.ResolveColumn | src/helpers/query-builder.js:119-140 | Definition: the column one group-by or select entry stands for. `ResolveColumnSpec` characterises it. |
| GroupBy.GroupColumns | src/helpers/query-builder.js:113-173 | Definition: the group-by entries, then the select entries, each resolved and kept once in order of first appearance. `GroupColumnsSpec` and `GroupColumnsFirst` state this. |
| GroupBy.ResolveAll | src/helpers/query-builder.js:118-141 | One resolved column per entry. |
| GroupBy.BuildGroupBy | src/helpers/query-builder.js:113-173 | The method returns exactly the specified group list or error. |
| GroupBy.AddColumns | src/helpers/query-builder.js:118-141 | Adding a list of entries to the `Set` fails exactly when one entry fails, with that entry's error. Otherwise the result is the deduplicated resolved columns, and the seen set matches the list. |
| GroupBy.ResolveAllOk | src/helpers/query-builder.js:117-170 | Resolution succeeds exactly when every entry resolves, and then resolves entry by entry. |
| GroupBy.GroupColumnsSpec | src/helpers/query-builder.js:113-173 | The group list succeeds exactly when every group-by and select entry resolves. It then has no duplicates and holds exactly the resolved columns. |
| GroupBy.GroupColumnsFirst | src/helpers/query-builder.js:113-173 | The resolved group-by fields come first, before any select field. |
| Aggregates.BuildAggregates | src/helpers/query-builder.js:494-505 | A non-object yields nothing. Otherwise there is one aggregate per entry, in order, with the entry's function and column. |
| Aggregates.AggregateAlias | src/helpers/query-builder.js:502 | The alias of an aggregate is its function name, an underscore, and the rendered field. |
| Aggregates.IsAggregateAlias | src/helpers/query-builder.js:479-483 | Definition: the `find` over `Object.entries(aggregates)` for an entry whose `${key}_${value}` equals the HAVING key. |
| Aggregates.HavingFold | src/helpers/query-builder.js:477-489 | Definition: the HAVING loop. It throws a TypeError without aggregates and throws "Unsupported field" for a key that is no alias. Otherwise it stores each key's condition object. `HavingFoldOk`, `HavingFoldEntries` and `HavingRejectsKey` state this. |
| Aggregates.BuildHavingConditions | src/helpers/query-builder.js:470-473 | A HAVING that is not a plain object yields undefined. Otherwise a success is an object; `Aggregates.BuildHavingConditionsEntries` states its entries. |
| Aggregates.HavingFoldEntries | src/helpers/query-builder.js:477-489 | With distinct keys, the loop keeps the conditions it started with and appends, in order, one entry per HAVING key: the key itself with the condition object its filters compile to. |
| Aggregates.BuildHavingConditionsEntries | src/helpers/query-builder.js:475-491 | A compiled HAVING object has exactly one entry per key of `having`, in order, each holding `buildConditionObject` of that key's filters. |
| Aggregates.AggregateAliasesAccepted | src/helpers/query-builder.js:479-483 | Every alias `fn_field` that `buildAggregates` produces is accepted as a HAVING key. |
| Aggregates.AggregateAliasesExact | src/helpers/query-builder.js:479-483 | A HAVING key is accepted exactly when `buildAggregates` produces it as an alias. |
| Aggregates.HavingFoldOk | src/helpers/query-builder.js:477-489 | The HAVING loop succeeds exactly when every key is an aggregate alias with a valid condition object. |
| Aggregates.BuildHavingConditionsOk | src/helpers/query-builder.js:470-492 | HAVING compiles exactly when it is not a plain object, or every key is an aggregate alias with a valid condition object. |
| Aggregates.HavingRejectsKey | src/helpers/query-builder.js:486-488 | The first key that is not an alias is rejected by name. |
| Subqueries.Subqueries | src/helpers/query-builder.js:433-468 | `null` filters fail with a TypeError. Every subquery is a literal filed under a key of the filters. |
| Subqueries.SubFilter | src/helpers/query-builder.js:445 | Definition: `conditions[field] || {}`. |
| Subqueries.SubqueryText | src/helpers/query-builder.js:453-461 | The literal starts with `(Model.id IN (SELECT DISTINCT Model.id FROM Model` and ends with `))`. With includes it ends with ` WHERE [object Object]))`; without them nothing comes between. |
| Subqueries.SubqueryFold | src/helpers/query-builder.js:436-465 | Definition: the loop over the filter entries, pushing each entry's subquery when it has one and stopping at the first error. `SubqueryFoldKeeps`, `SubqueryFoldAliases` and `SubqueryFoldMarkers` state its properties. |
| Subqueries.SubqueryFor | src/helpers/query-builder.js:436-464 | A pushed subquery is a literal under its field. A marker always pushes its parenthesised literal. |
| Subqueries.BuildSubqueries | src/helpers/query-builder.js:433-468 | The loop computes exactly the specified subquery list or error. |
| Subqueries.BuildSubquery | src/helpers/query-builder.js:436-464 | One entry pushes exactly the specified subquery, if any. |
| Subqueries.SubqueryFoldKeeps | src/helpers/query-builder.js:436-465 | Subqueries pushed earlier stay in place. |
| Subqueries.SubqueryFoldAliases | src/helpers/query-builder.js:436-465 | Every new subquery is a literal under one of the loop's keys. |
| Subqueries.SubqueryFoldMarkers | src/helpers/query-builder.js:437-439 | Every marker entry pushes its literal. |
| Subqueries.MarkerAgrees | src/helpers/query-builder.js:437-439 | A marker key's where entry and its subquery carry the same literal. |
| ModelTree.ModelTree | src/helpers/query-builder.js:529-554 | Depth 0 gives the depth-limit marker and no fields. Otherwise the node has the raw attribute names and one entry per association. |
| ModelTree.OrNull | src/helpers/query-builder.js:546-548 | Definition: `value || null` on an optional string, so an empty string becomes null. |
| ModelTree.AllModelsTree | src/helpers/query-builder.js:556-562 | Definition: the tree of each registered model at the given depth, in registration order. `AllModelsTreeSpec` states it. |
| ModelTree.ChildOf | src/helpers/query-builder.js:543-550 | An association entry describes its target, and carries an alias exactly when the alias is non-empty. |
| ModelTree.BuildModelTree | src/helpers/query-builder.js:529-554 | The loop builds exactly the specified tree. |
| ModelTree.ModelTreeLimited | src/helpers/query-builder.js:529-554 | Every branch ends with the depth-limit marker exactly `depth` levels down, or earlier at a model without associations. |
| ModelTree.SelfLoopUnrolls | src/helpers/query-builder.js:529-554 | There is no cycle guard: a self-association is unrolled exactly `depth` times. |
| ModelTree.BuildAllModelsTree | src/helpers/query-builder.js:556-562 | One tree per registered model, at the requested depth or the default depth 2. |
| ModelTree.AllModelsTreeSpec | src/helpers/query-builder.js:556-562 | One tree per model, in registry order, each named after its model and limited at the depth. |
| ModelTree.Prefixed | src/helpers/query-builder.js:393-395 | An associated model's fields are listed under `alias.`. |
| ModelTree.AllFields | src/helpers/query-builder.js:374-400 | The visited set only grows and comes to include the model. |
| ModelTree.AssociationFields | src/helpers/query-builder.js:391-397 | The association loop keeps the fields gathered so far. |
| ModelTree.VisitedSet.constructor | src/helpers/query-builder.js:374 | The visited set starts empty. |
| ModelTree.GetAllFields | src/helpers/query-builder.js:374-400 | The recursion returns exactly the specified fields and leaves exactly the specified visited set. |
| ModelTree.ListAllFields | src/helpers/query-builder.js:374-400 | Starting from an empty set lists the specified fields. |
| ModelTree.AllFieldsShape | src/helpers/query-builder.js:374-400 | A visited model lists nothing. An unvisited one lists its own attribute names first, then only `alias.field` entries for aliases it declares. |
| ModelTree.AssociationFieldsPrefixed | src/helpers/query-builder.js:391-397 | Everything the association loop adds is under one of the aliases. |
| ModelTree.SelfLoopListedOnce | src/helpers/query-builder.js:374-400 | A model whose associations all lead back to itself is listed once: just its own attributes. |
| ModelTree.SelfLoopFold | src/helpers/query-builder.js:391-397 | Associations back to a visited model add nothing. |
| Query.Assemble | src/helpers/query-builder.js:80-88 | The first options object has the sorting-derived order and the request's transaction, and no limit, offset or subqueries. |
| Query.Compile | src/helpers/query-builder.js:39-111 | An unknown model fails first with "Model not found". A compiled plan has the sorting-derived order and the request's transaction. The `Query` lemmas state the rest. |
| Query.Order | src/helpers/query-builder.js:84 | The order has at most one pair, and exactly one when sorting is truthy. That pair is `[sorting.field, sorting.direction]`. |
| Query.Complete | src/helpers/query-builder.js:90-106 | `null` pagination fails with a TypeError. The later steps keep where, includes, order, group, having and transaction. Subqueries are set exactly when there are some. |
| Query.Paginate | src/helpers/query-builder.js:91-94 | Only `limit` and `offset` can change. They are copied when both are defined, and otherwise the options are unchanged. |
| Query.AppendAggregates | src/helpers/query-builder.js:96-99 | This fails exactly when aggregates are truthy and there is no attribute list. Otherwise only the attributes change, and the old list stays as a prefix. |
| Query.QueryOptions.constructor | src/helpers/query-builder.js:80-88 | The options object holds exactly the assembled plan. |
| Query.QueryOptions.SetPagination | src/helpers/query-builder.js:91-94 | Sets limit and offset exactly when both are defined. |
| Query.QueryOptions.PushAggregates | src/helpers/query-builder.js:97-99 | Appends the aggregate columns when there are aggregates. It fails exactly when there is no attribute list. |
| Query.QueryOptions.StripPagination | src/helpers/query-builder.js:564-566 | Removes exactly `limit` and `offset` and changes nothing else. |
| Query.BuildQuery | src/helpers/query-builder.js:39-111 | The method succeeds exactly when the specified compilation does, returning a fresh options object equal to it, or the same error. |
| Query.Finish | src/helpers/query-builder.js:90-106 | Pagination, aggregates and subqueries edit the options object exactly as specified. |
| Query.UnknownModelFirst | src/helpers/query-builder.js:55-58 | An unknown model fails with "model not found", whatever the rest of the request. |
| Query.CompiledParts | src/helpers/query-builder.js:64-72 | A compiled plan's where clause is the filters compiled against the model. Its includes extend the filters' includes. Subqueries are present exactly when non-empty, and are then the filters' subqueries. |
| Query.PaginationTogether | src/helpers/query-builder.js:91-94 | `limit` and `offset` are both set or both absent. They are set exactly when the request defines both, and then copy them. |
| Query.CompiledHaving | src/helpers/query-builder.js:78-86 | Whenever the query compiles, its `having` is the HAVING object compiled from the request's `having` and aggregates, untouched by pagination and aggregate columns. |
| Query.OrderFromSorting | src/helpers/query-builder.js:84 | The order has one `[field, direction]` pair exactly when sorting is truthy, and is empty otherwise. |
| Query.AttributesThenAggregates | src/helpers/query-builder.js:72-98 | The group list is computed from the dot-free select entries before aggregates are added. The attributes are those entries followed by the aggregate columns. |
| Query.AssembledSelection | src/helpers/query-builder.js:72-75 | Before aggregates, the attributes are the dot-free select entries, and the group list resolves from them. |
| Query.AggregatesNeedSelect | src/helpers/query-builder.js:97-98 | Aggregates without a select list make compilation fail. |
| Query.GroupIgnoresAggregates | src/helpers/query-builder.js:75-98 | Changing the aggregates never changes the group list. |
| Query.StripIsUnpaginated | src/helpers/query-builder.js:564-566 | Stripping pagination from a compiled plan gives the plan of the same request without pagination. |

## Left out

- `getSqlFromFindAll`, the `COUNT(*)` query of `getTotalCount`, `getRecords`, and `addNewColumnToUserModel` are not part of this model. They are database I/O and engine hooks.
- The Express application is not part of this model: routing, query-string parsing and HTTP error handling.
- Logging is left out, and so is the re-wrapping of errors as "Failed to build query: ...". A failure is its `Error` value.
- A runtime `TypeError` is the single `TypeError` error. The model does not distinguish which property read failed.
- JSON has no `undefined`. An absent `filters`, `pagination`, `sorting` or `having` is `null`. For absent filters the source throws "Filters should be an object", and the model's `TypeError` error stands in for that message.
- Numbers are integers. Floating point, and how JavaScript renders non-integers in template literals, are left out.
- Objects keep insertion order. JavaScript enumerates integer-like keys first, and symbol keys after all string keys. Both orderings are left out. A compiled object here lists its `Op` symbol keys and its name keys in the order they were assigned: for example, `FilterStep` files `Op.and` before a later column key, whereas JavaScript would list the column first.
- Inherited properties of objects are not modelled. Neither are array index properties read by name.
- `Object.entries` and `Object.keys` of strings (one entry per character) are empty here, as for other non-objects.
- `select` and `groupBy` are lists of strings or absent (`Option`). A non-array `select` is absent in the source too. The source throws a `TypeError` on requests the model cannot represent: a `groupBy` that is a non-empty string, such as `"title"` (`forEach` is not a function), and a `select` or `groupBy` list with a non-string entry, such as `[1]` (`includes` is not a function). A `groupBy` value with no `length`, such as a number or an object, is skipped by the source; the model takes it as absent.
- The SQL meaning of the operators, `sequelize.literal`, `fn` and `col` is not modelled. They are opaque constructors, and the transaction is an opaque handle passed through.
- Subqueries.SubqueryFor: an association field's literal embeds the compiled where object as JavaScript renders it, `[object Object]`. The model keeps that text. It also checks that the sub-filter compiles, and does not interpret the text further.
- Projection.ProjectGrows: for each dotted entry it names the alias of the include the final segment lands in, and whether that include was passed in or pushed. The target model of a pushed include is stated for one walk, by `WalkSegmentsReaches`, and not carried across the whole select loop.
- Catalog.TargetOf: Sequelize always resolves an association target to a registered model. For a catalog that lacks the target, the model uses an empty model of that name.
- Includes and models are values, not shared references. The include tree is addressed by paths, and the visited set of `getAllFields` holds model names.
- `getModelTree` with a negative depth recurses without end in the source. The model's depth is a natural number.
