# grano-ql in Dafny

grano-ql answers nested JSON graph queries over grano's entities, relations and their
properties. A query document is read as a tree of `QueryNode`s. Each level is normalised
(wildcard `*` expanded into the level's default fields, `id` forced, string shorthands and
typed property values patched) and becomes a tree of query objects: `EntityQuery`,
`RelationQuery`, `ProjectQuery`, `AuthorQuery`, `SchemaQuery`, `PropertiesQuery` and
`PropertyQuery`, with `FieldQuery` leaves. Each object level compiles to one SQL query: joins
and equality filters from the root down, the columns to project, pagination and `distinct`.
Its rows become result objects. The children's results are stitched into their parents by
id, and the level groups them by parent id. The web interface adds three small helpers that
get and set values along dotted paths in nested JavaScript objects.

The model is split into modules that follow the program:

- `PyValue` (pyvalue.dfy): Python values and dicts, as ordered association lists.
- `Parser` (parser.dfy): `QueryNode`, as functions of the node's element and as a class whose
  `update` changes the element in place.
- `Registry` (registry.dfy): the query classes, their `model` and `default_fields`, and the
  typed `value_columns`.
- `Normalize` (normalize.dfy): `expand_query`, every `patch_node` override, and the defaulting
  done by `PropertiesQuery.__init__`.
- `Tree` (tree.dfy): the constructors of `ObjectQuery` and `PropertiesQuery`, which build the
  tree of query objects.
- `Compile` (compile.dfy): `filter`, `add_columns`, `get_child_node_value` and `query`, over a
  recorded list of query-builder calls.
- `Rows` (rows.dfy): `_make_object` of the object and property levels.
- `Results` (results.dfy): `groupby` by parent id, the assignment of nested results, and the
  name-keyed merge of `PropertiesQuery.run`.
- `Execute` (execute.dfy): `ObjectQuery.run` and `PropertiesQuery.run`, against a database
  given as a function from a query to its rows.
- `TopLevel` (toplevel.dfy): the module-level `run(query)`, with its `limit` and `offset`
  clamping under Python 2's ordering.
- `WebUtil` (webutil.dfy): `ensureArray`, `getTree` and `setTree`, over JavaScript values.

Each loop of the source that builds a result or changes a node step by step is a `method`
with a `for` loop; the few comprehensions and lookups listed under "## Left out" are
functions only. Each such method is proved equal to a specification function, and the properties the source promises are proved about that
function as lemmas. `QueryNode` is a class, and the methods that change a node's element in
place (`update`, `expand_query`, `patch_node`, the `PropertiesQuery` defaulting, the root
clamping) carry `modifies` clauses and state the node's new element.

## Model

| member | source | states |
|---|---|---|
| PyValue.Put | grano/ql/query.py:72 | `d[k] = v`: afterwards `k` maps to `v` and every other key maps to what it did before |
| PyValue.Remove | grano/ql/query.py:165 | `d.pop(k)`: afterwards `k` is absent, every other key is unchanged, and the dict does not grow |
| PyValue.PutKeepsUnique | grano/ql/query.py:72 | setting a key keeps a dict's keys unique |
| PyValue.RemoveKeepsUnique | grano/ql/query.py:165 | popping a key keeps a dict's keys unique |
| Parser.IsListShaped | grano/ql/parser.py:9-11 | definition of `as_list`: the element is a list (or tuple); its uses are stated in `UpdateSetsValue` |
| Parser.ShapeOf | grano/ql/parser.py:13-19 | definition of `value`: the first item of a non-empty list, `None` for an empty one, else the element; stated by `UpdateSetsValue` and `ChildrenMatchKeys` |
| Parser.IsLeafEl | grano/ql/parser.py:28-30 | definition of `is_leaf`: `value` is not a dict; stated by `ChildrenMatchKeys` |
| Parser.ChildrenOf | grano/ql/parser.py:32-37 | definition of `children`: one node per entry of `value`, in order; stated by `ChildrenMatchKeys` |
| Parser.UpdatedEl | grano/ql/parser.py:21-26 | definition of the element after `update(v)`; stated by `UpdateSetsValue` |
| Parser.QueryNode.constructor | grano/ql/parser.py:5-7 | a new node holds the name and element it was given |
| Parser.QueryNode.AsList | grano/ql/parser.py:9-11 | the `as_list` property of the node, read from its element by `IsListShaped` |
| Parser.QueryNode.Value | grano/ql/parser.py:13-19 | the `value` property of the node, read from its element by `ShapeOf`; after `Update` it is the new value (`UpdateSetsValue`) |
| Parser.QueryNode.IsLeaf | grano/ql/parser.py:28-30 | the `is_leaf` property of the node, read from its element by `IsLeafEl` |
| Parser.QueryNode.Children | grano/ql/parser.py:32-37 | the `children` property of the node, read from its element by `ChildrenOf`; its names and elements are the value's entries (`ChildrenMatchKeys`) |
| Parser.QueryNode.Update | grano/ql/parser.py:21-26 | `update(v)` replaces item 0 of a list element, or else the whole element; on an empty list it raises IndexError and changes nothing; the name is kept |
| Parser.UpdateSetsValue | grano/ql/parser.py:13-26 | `update(v)` fails exactly on an empty list; afterwards `value` reads `v` and `as_list` is unchanged; the other list items are kept; a non-list element becomes `v` |
| Parser.ChildrenMatchKeys | grano/ql/parser.py:28-37 | a leaf (a `value` that is not a dict) has no children; otherwise there is exactly one child per key of `value`, with `name` the key and `el` the key's value |
| Parser.NodeAt | grano/ql/parser.py:36-37 | the `i`-th child is made from the `i`-th dict entry |
| Registry.PropertyClass | grano/ql/query.py:362-367 | the `child_cls` of a properties stub is a property query class |
| Registry.IsInstance | grano/ql/query.py:292-293 | Python 2 `isinstance(value, type_)` for the types of the value columns, where `bool` is a subclass of `int` and an integer beyond `sys.maxint` is a `long`; stated by `InstanceTypes` |
| Registry.InstanceTypes | grano/ql/query.py:292-293 | a bool is an instance of the `bool` and `int` column types, an integer within `sys.maxint` only of `int`, a float, string or datetime only of its own type, and a `long`, `None`, list or dict of none |
| Registry.LookupAt | grano/ql/query.py:58-61 | for a model whose names are unique, looking up the `i`-th name finds the `i`-th descriptor |
| Registry.RelationModelsHaveBothEnds | grano/ql/query.py:427-428 | because the two assignments change the model dict shared by all relation classes, every relation model has both `source` and `target` |
| Registry.ModelWellFormed | grano/ql/query.py:370-428 | every model names each field once and names none of `limit`, `offset`, `sort` and `optional` |
| Registry.EntityModelWellFormed | grano/ql/query.py:400-411 | the entity model is well formed |
| Registry.RelationModelWellFormed | grano/ql/query.py:373-381 | the relation model is well formed |
| Registry.ProjectModelWellFormed | grano/ql/query.py:189-195 | the project model is well formed |
| Registry.AuthorModelWellFormed | grano/ql/query.py:210-216 | the author model is well formed |
| Registry.SchemaModelWellFormed | grano/ql/query.py:231-237 | the schema model is well formed |
| Registry.PropertyModelWellFormed | grano/ql/query.py:269-279 | the property model is well formed |
| Registry.DefaultChildRankLess | grano/ql/query.py:382 | a nested object class among the default fields of a class ranks below the class that names it, so expanding `*` into defaults ends |
| Registry.ModelKinds | grano/ql/query.py:186-428 | `id` is always a field; only entities and relations have nested objects; a properties entry is a properties stub; a nested object entry is an object query class |
| Normalize.Patch | grano/ql/query.py:77-78 | definition of `patch_node` per class: the base class returns the node, the project, author and schema classes apply `PatchShorthand`, the property classes `PatchProperty` |
| Normalize.PatchShorthand | grano/ql/query.py:198-201 | definition of the string shorthand (the same override recurs at lines 219-222 and 240-243), with `node.value = ...` made through `update`; stated by `ShorthandPatch` |
| Normalize.PatchProperty | grano/ql/query.py:282-304 | definition of `PropertyQuery.patch_node`, with its assignments to `node.value` made through `update`; stated by `PatchPropertyCases` and `PatchPropertyEntriesSpec` |
| Normalize.Expand | grano/ql/query.py:63-75 | definition of `expand_query`, with `node.value = ...` made through `update`; stated by `ExpandNormalizes`, `ExpandEntriesSpec` and `ExpandNull` |
| Normalize.ExpandShape | grano/ql/query.py:69-75 | definition of the steps after the `None` case; stated by `ExpandShapeNormalizes` |
| Normalize.NormalizeProperties | grano/ql/query.py:335-336 | definition of the defaulting of `PropertiesQuery.__init__`, through `update`; stated by `NormalizePropertiesCases` |
| Normalize.BlockLength | grano/ql/query.py:335 | definition of the length test `node.value is None or not len(node.value)` |
| Normalize.PatchAsWritten | grano/ql/query.py:282-304 | definition of the `patch_node` overrides as written (the shorthand ones at lines 198-201, 219-222 and 240-243), whose assignments to `node.value` raise AttributeError |
| Normalize.ExpandAsWritten | grano/ql/query.py:63-75 | definition of `expand_query` as written; stated by `AssignToValueRaises` and `AsWrittenAgreesOtherwise` |
| Normalize.NormalizePropertiesAsWritten | grano/ql/query.py:335-336 | definition of the defaulting as written; stated by `PropertiesAssignRaises` |
| Normalize.AddDefaultsSpec | grano/ql/query.py:70-72 | adding the default fields adds each missing one as `None` and nothing else, and keeps every existing entry |
| Normalize.PopStarSpec | grano/ql/query.py:69-72 | after the wildcard step, `*` is absent; if `*` mapped to `None`, every default field is present; caller-given entries keep their values; only defaults are added, as `None` |
| Normalize.ExpandEntriesSpec | grano/ql/query.py:69-74 | after the dict steps of `expand_query`, `*` is absent and `id` is present; the defaults are present when `*` mapped to `None`; other entries are kept; anything added is `None` |
| Normalize.ExpandNormalizes | grano/ql/query.py:63-75 | a level that `expand_query` accepts has no `*` and has `id`, in its dict or (for a string or list value) by membership |
| Normalize.ExpandShapeNormalizes | grano/ql/query.py:69-75 | so does the value after the steps that follow the `None` case |
| Normalize.ExpandNull | grano/ql/query.py:67-72 | a `None` node of an object class becomes `{'*': None}`, expanded to all the default fields plus `id`; an empty list raises IndexError |
| Normalize.ExpandSingleton | grano/ql/query.py:69-74 | a one-entry dict without `*` or `id` gains only `id` |
| Normalize.ExpandPatchedDict | grano/ql/query.py:66-75 | when `patch_node` leaves a dict, `expand_query` applies its dict steps to it |
| Normalize.ShorthandPatch | grano/ql/query.py:198-243 | a bare string becomes `{'slug': s}` for projects, `{'login': s}` for authors and `{'name': s}` for schemata; any other value, and any other class, passes through untouched |
| Normalize.ShorthandNotSpecial | grano/ql/query.py:198-243 | no shorthand field is `*` or `id` |
| Normalize.ShorthandExpands | grano/ql/query.py:63-75 | a shorthand string expands to its one field plus `id` |
| Normalize.StarNotDefault | grano/ql/query.py:196-412 | no default field is spelt `*` |
| Normalize.MoveTypedSpec | grano/ql/query.py:292-294 | the typed copy sets exactly the value columns whose Python 2 type the value has (an integer is an `int` only within `sys.maxint`; a `long` has no column; a bool is also an `int`), and keeps every other key |
| Normalize.MoveTypedKeeps | grano/ql/query.py:292-294 | the typed copy touches no column it does not set and no key that is not a value column |
| Normalize.PatchPropertyEntriesSpec | grano/ql/query.py:290-303 | `active` becomes True; `name` becomes the property key, or `None` for `*`; a non-`None` `value` is removed and copied into each value column of its type, and the other columns are kept (so a `long` is popped and lands in no column); nothing else changes |
| Normalize.PatchPropertyCases | grano/ql/query.py:282-304 | a dict is patched in place; a string patches `{'value': s}`; `None` patches the null dict of the default fields; any other value raises AttributeError; an empty list raises IndexError |
| Normalize.PatchPropertyReplaced | grano/ql/query.py:283-286 | the string and `None` cases patch the replacement dict |
| Normalize.PatchPropertyString | grano/ql/query.py:283-303 | a string property becomes exactly `value_string`, `name` and `active` |
| Normalize.PatchPropertyBool | grano/ql/query.py:292-294 | with `bool` a subclass of `int`, a boolean value sets both `value_integer` and `value_boolean` and leaves the other three columns alone |
| Normalize.PatchPropertyColumn | grano/ql/query.py:292-294 | each typed column after a non-`None` value is moved: the value if its Python 2 type matches (`int` within `sys.maxint`, bool counting as `int`), else as it was |
| Normalize.PatchPropertyLong | grano/ql/query.py:290-294 | an integer beyond `sys.maxint` (a `long`) is popped from `value` and set in no typed column |
| Normalize.ColumnsDistinct | grano/ql/query.py:262-268 | the five value columns are distinct keys, none of them `value`, `name` or `active` |
| Normalize.NullDictSpec | grano/ql/query.py:286 | `dict([(d, None) for d in fs])` has exactly the keys `fs`, all mapped to `None` |
| Normalize.NormalizePropertiesCases | grano/ql/query.py:335-336 | a properties block that is `None` or empty becomes `{'*': None}`; a non-empty dict, list or string is kept; a number, bool or datetime (no `len`) raises TypeError; an empty list element raises IndexError |
| Normalize.MakeNullDict | grano/ql/query.py:286 | the loop builds the null dict of the default fields |
| Normalize.PatchEntriesInPlace | grano/ql/query.py:290-303 | the dict steps of `PropertyQuery.patch_node`, in place, give the patched entries |
| Normalize.PatchPropertyNode | grano/ql/query.py:282-304 | `PropertyQuery.patch_node` leaves the node holding the patched element, or fails with the patch's error; the name is kept |
| Normalize.PatchNode | grano/ql/query.py:77-78 | `patch_node` of each class leaves the node holding the patched element, or fails with the patch's error |
| Normalize.ExpandEntriesInPlace | grano/ql/query.py:69-74 | the dict steps of `expand_query`, in place |
| Normalize.ExpandShapeNode | grano/ql/query.py:69-75 | the steps after the `None` case, on the node |
| Normalize.ExpandQuery | grano/ql/query.py:63-75 | `expand_query(name, node)` leaves the node holding the expanded element, or fails with its error |
| Normalize.NormalizePropertiesNode | grano/ql/query.py:335-336 | the defaulting at the start of `PropertiesQuery.__init__`, on the node |
| Normalize.AssignToValueRaises | grano/ql/query.py:67-68 | as written, a `None` object level, or a shorthand string, assigns to the read-only `value` and raises AttributeError, where `update` succeeds |
| Normalize.AsWrittenAgreesOtherwise | grano/ql/query.py:63-75 | without that assignment, so for a dict level, the two agree |
| Normalize.PropertiesAssignRaises | grano/ql/query.py:335-336 | as written, every properties block whose `value` is `None` or empty (`None`, `{}`, `[]`, `""`) raises AttributeError, where `update` gives `{'*': None}` (IndexError only for an empty list element); every other block is treated the same by both |
| Tree.BuildProps | grano/ql/query.py:334-344 | a built properties query has the stub's class and is joined to its owner; its children are stated by `PropertiesChildren` |
| Tree.Wrapped | grano/ql/query.py:341-342 | wrapping a property node gives a list whose `value` is unchanged |
| Tree.BuildObject | grano/ql/query.py:49-61 | a built object query has the class, alias and parent it was built with; its element is stated by `ObjectKeepsEntries`, its children by `ObjectChildren` |
| Tree.ObjectExpandFails | grano/ql/query.py:51 | a level whose node cannot be expanded raises what `expand_query` raised |
| Tree.BlockNormalizeFails | grano/ql/query.py:335-336 | a properties block that cannot be defaulted raises what the defaulting raised |
| Tree.SetEntryGet | grano/ql/query.py:72 | `node.value[k] = x` changes the entry for `k` and no other |
| Tree.AttachKeeps | grano/ql/query.py:61 | making a child object query changes the parent's entry for the child's name and no other |
| Tree.AttachBlockKeeps | grano/ql/query.py:61 | making a properties query changes the owner's entry for the block and no other; that entry is the list or non-empty dict the block node changed in place, while an empty dict (rebound by the defaulting at lines 335-336) and a block that is neither list nor dict stay as they were |
| Tree.BlockWriteBack | grano/ql/query.py:335-336 | definition of what the owner holds for a block afterwards: an empty dict is kept, since `update` rebinds the block node to a fresh `{'*': None}`; stated by `AttachBlockKeeps` |
| Tree.ModelKeeps | grano/ql/query.py:58-61 | the model loop leaves every kept entry of the expanded node (one no model field names, a field, a `None` or scalar object or block, an empty properties block) as it was |
| Tree.ObjectKeepsEntries | grano/ql/query.py:49-61 | a built object query's element holds every kept entry of its expanded node unchanged, an empty properties block staying `{}` |
| Tree.EmptyBlockStays | grano/ql/query.py:49-61 | for `{"properties": {}}` at the root, the entity's element still holds `properties: {}` once its properties query is made |
| Tree.StepSkips | grano/ql/query.py:58-61 | a model entry whose name is not among the node's children makes no child query |
| Tree.StepField | grano/ql/query.py:58-61 | a field entry the node names makes a `FieldQuery` over the child node |
| Tree.StepObject | grano/ql/query.py:58-61 | a nested object entry the node names makes an object query of its class on the child node, joined to this level |
| Tree.StepProperties | grano/ql/query.py:58-61 | a properties entry the node names makes a properties query on the child node |
| Tree.ChildrenCount | grano/ql/parser.py:32-37 | `children` has one node per entry of the node's value |
| Tree.ChildAt | grano/ql/parser.py:32-37 | and they come in order |
| Tree.ObjectChildren | grano/ql/query.py:57-61 | the child queries of an object query are made, in model order, exactly for the names that are in the model and among the expanded node's children, each fitting its descriptor |
| Tree.PropertiesChildren | grano/ql/query.py:340-344 | a properties query has one property query per key of its defaulted block, in order, each of the property class, named by its key and joined to the owner |
| Tree.NewObjectQuery | grano/ql/query.py:49-61 | `ObjectQuery.__init__`, with the node expanded in place and the model loop, builds the specified tree and leaves the node holding its element |
| Tree.InstantiateModel | grano/ql/query.py:58-61 | the nested loop over the model and the node's children yields the specified children |
| Tree.NewPropertiesQuery | grano/ql/query.py:334-344 | `PropertiesQuery.__init__` builds the specified properties query and leaves the block defaulted |
| Tree.InstantiateProperties | grano/ql/query.py:340-344 | the loop over the block's children, wrapping each in a list, yields the specified property queries |
| Tree.Wrap | grano/ql/query.py:341-342 | `if not child.as_list: child.el = [child.el]` |
| Tree.ChildNames | grano/ql/query.py:54-61 | the names of `self.children`, one per child, in the order they were made |
| Compile.FilterOf | grano/ql/query.py:100-111 | definition of `filter` on a query tree; stated by `FilterSpec` and `FieldFiltered` |
| Compile.JoinOf | grano/ql/query.py:103-104 | `join_parent(q)`, called only below the root, with the overrides at lines 203, 224, 245, 251, 318, 387, 393, 417 and 423; stated by `JoinOfSpec` |
| Compile.JoinOfSpec | grano/ql/query.py:103-104 | the root joins nothing; a lower level appends exactly one join from its alias to its parent's along its class's relationship, or raises AttributeError when the class has no `join_parent` |
| Compile.ColumnsOf | grano/ql/query.py:113-122 | definition of `add_columns`; stated by `ColumnsSpec` |
| Compile.QueryOf | grano/ql/query.py:136-154 | definition of `query`; stated by `QueryFails` and `Pagination` |
| Compile.Paginate | grano/ql/query.py:141-154 | definition of the calls after the columns; stated by `PaginateSpec` |
| Compile.FindChild | grano/ql/query.py:108-110 | `self.children[name]` is found exactly when some child has that name, and is that child |
| Compile.FilterSpec | grano/ql/query.py:100-111 | `filter` raises exactly when some level names a field that is neither a directive nor a child; otherwise it only appends joins and filters; what it raises is BadRequest for such a field, or AttributeError from a level below the root whose class has no `join_parent` |
| Compile.FilterNodesSpec | grano/ql/query.py:105-110 | the loop over one level's children raises exactly when a remaining name is unknown; otherwise it only appends joins and filters |
| Compile.KnownFromStep | grano/ql/query.py:105-110 | a level is known from child `i` on exactly when child `i` is a directive or has a known child query, and the level is known from `i + 1` on |
| Compile.FilterChildrenSpec | grano/ql/query.py:346-349 | `PropertiesQuery.filter` succeeds exactly when every property query is known, and then only appends joins and filters |
| Compile.FilterChildrenFails | grano/ql/query.py:346-349 | one unknown property query makes it raise |
| Compile.FieldFiltered | grano/ql/query.py:34-37 | a field whose node value is not `None` adds its equality filter to the query |
| Compile.FilterNodesRecords | grano/ql/query.py:34-37 | so does the loop over the level's children |
| Compile.Filter | grano/ql/query.py:100-111 | `filter`, with its loop, is the specified filter |
| Compile.FilterLevel | grano/ql/query.py:105-110 | the loop over one level's children |
| Compile.NodeColumnsSpec | grano/ql/query.py:119-121 | the inner loop adds only this field's column, and adds it exactly when some child node of that name has value `None` |
| Compile.ColumnsSpec | grano/ql/query.py:113-122 | `add_columns` adds only columns of this level, and adds a column exactly for a `FieldQuery` child whose node value is `None` |
| Compile.AddColumns | grano/ql/query.py:113-122 | the two nested loops compute the specified columns |
| Compile.ChildNodeValue | grano/ql/query.py:80-84 | `get_child_node_value`, with its loop, is the value of the first child of that name, or the default |
| Compile.Query | grano/ql/query.py:136-154 | `query`, built call by call, is the specified query |
| Compile.QueryFails | grano/ql/query.py:136-139 | `query` raises exactly when the root's `filter` raises |
| Compile.Pagination | grano/ql/query.py:141-154 | the query holds one offset, the `offset` directive or 0; limit 1 for a singular level, the `limit` directive or 25 for a list-shaped root, and no limit otherwise; one parent-id filter exactly when the level has a parent and is given ids; and it ends with `distinct` |
| Compile.PaginateSpec | grano/ql/query.py:141-154 | the same, for the calls added after the columns |
| Compile.PickConcat | grano/ql/query.py:136-154 | the offsets, limits and parent-id filters of joined call lists are those of the parts, joined |
| Compile.ColumnsPickNone | grano/ql/query.py:138-140 | filters and columns hold no offset, limit or parent-id filter |
| Compile.LimitPartPicks | grano/ql/query.py:149-152 | `limit(1)` for a singular level, the `limit` directive or 25 for a list-shaped root, nothing below the root |
| Compile.ParentPartPicks | grano/ql/query.py:141-145 | one parent-id filter exactly when the level has a parent and is given ids |
| Rows.MakeObject | grano/ql/query.py:124-134 | definition of `ObjectQuery._make_object`; stated by `MakeObjectSpec` |
| Rows.PropertyRow | grano/ql/query.py:308-316 | definition of the row after popping `active` and collapsing the value columns; stated by the `PropertyRow` and `PropertyValue` lemmas |
| Rows.Collapse | grano/ql/query.py:309-315 | definition of the loop over `value_columns`; stated by `CollapseKeys`, `CollapseAllNone` and `CollapseLastSet` |
| Rows.MakePropertyObject | grano/ql/query.py:306-316 | definition of `PropertyQuery._make_object`; stated by `PropertyObjectFails` |
| Rows.FromPairs | grano/ql/query.py:129 | `dict(pairs)`: each key maps to its last pair |
| Rows.DictOf | grano/ql/query.py:129 | inserting the pairs one by one gives `dict(pairs)` |
| Rows.WithoutStar | grano/ql/query.py:127 | the node's entries without `*`, each other key unchanged |
| Rows.FillNullsSpec | grano/ql/query.py:131-133 | each child whose node value is `None` takes the record's value for its name, or `None`; other keys are kept |
| Rows.MakeObjectSpec | grano/ql/query.py:124-134 | `_make_object` raises exactly when the node's value is not a dict; otherwise the object holds the node's entries but `*`, plus, for a record, its `__parent_id` and the record's value of each leaf asked for |
| Rows.MakeObjectNode | grano/ql/query.py:124-134 | `_make_object`, with its loops, is the specified object |
| Rows.CollapseNext | grano/ql/query.py:310-315 | one turn of the column loop removes the column; if it was present, `value` becomes its value when that is not `None`, else stays or becomes `None`; other keys are kept |
| Rows.CollapseColumn | grano/ql/query.py:310-315 | the loop body, on the record |
| Rows.PropertyObjectFails | grano/ql/query.py:306-308 | a property row is made exactly when the plain object is, and is that object collapsed |
| Rows.PropertyRowNoActive | grano/ql/query.py:308 | a property row has no `active` |
| Rows.PropertyRowNoColumns | grano/ql/query.py:309-315 | a property row has no value column |
| Rows.PropertyRowKeeps | grano/ql/query.py:306-316 | a property row keeps every key but `active`, `value` and the value columns |
| Rows.PropertyValueUntouched | grano/ql/query.py:309-315 | with no value column present, `value` is left as it was |
| Rows.PropertyValueNone | grano/ql/query.py:311-312 | with a value column present and every one `None`, `value` is what it was, or `None` |
| Rows.PropertyValueLast | grano/ql/query.py:313-315 | the last value column that is not `None` becomes `value` |
| Rows.CollapseAbsent | grano/ql/query.py:310 | with none of the remaining columns present, the loop changes nothing |
| Rows.MakePropertyObjectNode | grano/ql/query.py:306-316 | `PropertyQuery._make_object` is the specified row |
| Rows.PropertyRowNode | grano/ql/query.py:308-316 | the pop and the loop over `value_columns` give the specified row |
| Results.Shaped | grano/ql/query.py:177-180 | definition of the pairs yielded for the groups; stated by `ShapedSpec` |
| Results.AssignFrom | grano/ql/query.py:172-174 | definition of the inner stitching loop; stated by `AssignFromSpec` |
| Results.AssignAll | grano/ql/query.py:171-174 | definition of the loop over a child's pairs; stated by `AssignAllSpec` |
| Results.MergeValues | grano/ql/query.py:357-358 | definition of the merge of one pair's values; stated by `MergeValuesSpec` |
| Results.MergeAll | grano/ql/query.py:354-358 | definition of the merge of a child's pairs; stated by `MergeAllParents` and `MergeAllBuckets` |
| Results.GroupRows | grano/ql/query.py:175-176 | `groupby` by `__parent_id` gives maximal runs of equal keys, and no groups exactly for no rows |
| Results.GroupFails | grano/ql/query.py:175-176 | grouping raises exactly when some result object has no `__parent_id` |
| Results.GroupErrKey | grano/ql/query.py:176 | the only error grouping raises is KeyError |
| Results.GroupFlatten | grano/ql/query.py:175-177 | the groups, laid out in order, are the result objects in order, each tagged with its popped `__parent_id` |
| Results.GroupPrefixFails | grano/ql/query.py:175-176 | a prefix that cannot be grouped makes the whole fail with KeyError |
| Results.GroupBy | grano/ql/query.py:175-177 | the loop over the result objects gives the specified groups |
| Results.Dicts | grano/ql/query.py:177 | one dict per row, in order |
| Results.ShapedSpec | grano/ql/query.py:175-180 | one pair per group, in order, with the group's key and neighbouring keys distinct; a list level yields the group's dicts, a singular level the last one |
| Results.ShapedKinds | grano/ql/query.py:178-180 | every yielded result is a list for a list level and a dict for a singular one |
| Results.ShapeGroups | grano/ql/query.py:175-180 | the loop over the groups gives the specified pairs |
| Results.AssignFromSpec | grano/ql/query.py:172-174 | the loop over the results raises exactly when a result from `j` on has no `id`; it sets `name` to the nested value on exactly the results whose `id` is the parent id |
| Results.AssignAllSpec | grano/ql/query.py:171-174 | after all the child's pairs, each result's `name` holds the last nested value whose parent id is its `id`, or what it held; other keys are unchanged; it raises exactly when there are pairs and some result has no `id` |
| Results.AssignAllKeeps | grano/ql/query.py:171-174 | stitching keeps the number of results and every key but `name` |
| Results.AssignPair | grano/ql/query.py:172-174 | the inner loop gives the specified results |
| Results.AssignPairs | grano/ql/query.py:171-174 | the loop over the pairs gives the specified results |
| Results.MergeValuesSpec | grano/ql/query.py:355-358 | merging one pair raises exactly when one of its values is not a dict holding `name`; other parents are untouched; the parent gets a dict; each name maps to its last value with `name` popped |
| Results.Iterated | grano/ql/query.py:357 | `for value in values`: a list gives its items, a dict its keys, a string its characters, anything else TypeError; stated by `IteratedSpec` |
| Results.IteratedSpec | grano/ql/query.py:357 | only lists, dicts and strings iterate; a list gives its items, a dict exactly its keys, one per entry, a string one one-character string per character |
| Results.MergeKeepsNames | grano/ql/query.py:357-358 | a name no later value carries keeps what the parent's dict held |
| Results.MergeAllParents | grano/ql/query.py:354-356 | the merged dict has every parent it had plus exactly the parents of the pairs |
| Results.MergeAllBuckets | grano/ql/query.py:352-358 | merging keeps exactly one dict per parent id |
| Results.MergePair | grano/ql/query.py:355-358 | the loop over one pair's values gives the specified merge |
| Results.MergePairs | grano/ql/query.py:354-358 | the loop over a property child's pairs gives the specified merge |
| Execute.Ids | grano/ql/query.py:161 | definition of `[r.get('id') for r in results]`: one id per result, `None` where it has none |
| Execute.CollectIds | grano/ql/query.py:161 | the loop gives one id per result, in order, `None` for a result without `id` |
| Execute.Fetch | grano/ql/query.py:160 | definition of the result objects of a level; stated by the `MakeAll` lemmas |
| Execute.Head | grano/ql/query.py:163-166 | definition of the placeholder; stated by `PlaceholderFields`, `NoPlaceholder` and `HeadSingle` |
| Execute.Stitch | grano/ql/query.py:168-174 | definition of the stitching loop; stated by `StitchKeeps` |
| Execute.RunOf | grano/ql/query.py:156-180 | definition of `ObjectQuery.run`; stated by `RunEmpty`, `RunShapes` and `RunParents` |
| Execute.PropsRunOf | grano/ql/query.py:351-359 | definition of `PropertiesQuery.run`; stated by `PropsRunBuckets` |
| Execute.MakeAllFails | grano/ql/query.py:160 | making the results succeeds exactly when every row makes an object |
| Execute.MakeAllLength | grano/ql/query.py:160 | one result per row |
| Execute.MakeAllAt | grano/ql/query.py:160 | the result at each row's place is the object made of that row |
| Execute.LevelObjectFails | grano/ql/query.py:124-134 | a level's object is made exactly when its node's value is a dict |
| Execute.PlaceholderFields | grano/ql/query.py:163-166 | for an object level that is not a property level and whose node value is a dict: with no records, run yields one pair `(None, p)`, with `p` in a one-item list for a list level; `p` has no `__parent_id`, has `None` for each leaf asked for, and the node's other entries but `*` |
| Execute.NoPlaceholder | grano/ql/query.py:163 | a level that finds records yields no placeholder |
| Execute.HeadSingle | grano/ql/query.py:163-166 | the placeholder is a single pair under the parent id `None` |
| Execute.HeadKinds | grano/ql/query.py:166 | the placeholder has the node's shape |
| Execute.RunEmpty | grano/ql/query.py:163-180 | a level that finds nothing yields the placeholder alone |
| Execute.RunShapes | grano/ql/query.py:156-180 | every pair run yields holds a list for a list level and a dict for a singular one |
| Execute.RunParents | grano/ql/query.py:175-180 | when records were found, every parent id run yields is the `__parent_id` of one of them |
| Execute.StitchKeeps | grano/ql/query.py:168-174 | stitching keeps the number of results and every key that names no remaining child |
| Execute.PropsRunBuckets | grano/ql/query.py:351-359 | `PropertiesQuery.run` yields one dict per parent id, with distinct parent ids |
| Execute.LevelObjectNode | grano/ql/query.py:124-134 | `self._make_object(record)` for the level's class |
| Execute.FetchResults | grano/ql/query.py:160 | the list comprehension over the query's rows gives the specified results |
| Execute.Placeholder | grano/ql/query.py:163-166 | the placeholder step |
| Execute.Run | grano/ql/query.py:156-180 | `ObjectQuery.run(parent_ids)`, with every pair it yields collected in order, is the specified run |
| Execute.StitchChildren | grano/ql/query.py:168-174 | the loop over the child objects gives the specified stitching |
| Execute.PropertiesRun | grano/ql/query.py:351-359 | `PropertiesQuery.run`, with its loops, is the specified run |
| TopLevel.Py2Min | grano/ql/query.py:433 | definition of Python 2's `min(n, v)`; stated by `MinIsLower` and `LimitCapped` |
| TopLevel.Py2Max | grano/ql/query.py:434 | definition of Python 2's `max(n, v)`; stated by `MaxIsUpper` and `OffsetFloored` |
| TopLevel.CompareToInt | grano/ql/query.py:433-434 | CPython 2's comparison of a value with an int inside `min` and `max`: numbers by value, `None` below them, a datetime raising TypeError, other types above; stated by `CompareAgrees` |
| TopLevel.CompareAgrees | grano/ql/query.py:433-434 | the comparison fails exactly on a datetime, and otherwise its sign agrees with the reference ordering `AtMost` in both directions |
| TopLevel.Prepared | grano/ql/query.py:432-434 | definition of the root after the two writes; stated by `PreparedFails` and `PreparedEntries` |
| TopLevel.RootQuery | grano/ql/query.py:431-436 | definition of `run(query)`: the root `EntityQuery` on the prepared document |
| TopLevel.MinIsLower | grano/ql/query.py:433 | Python 2's `min(n, v)` raises exactly on a datetime; otherwise it is one of its arguments and at most both |
| TopLevel.MaxIsUpper | grano/ql/query.py:434 | `max(n, v)` raises exactly on a datetime; otherwise it is one of its arguments and at least both |
| TopLevel.LimitCapped | grano/ql/query.py:433 | the limit becomes a number of at most 1000, unless it is `None`, which passes; a number below 1000 is kept; there is no lower bound |
| TopLevel.OffsetFloored | grano/ql/query.py:434 | the offset is never `None`; a number ends up at least 0; a positive number, a string, a list or a dict is kept |
| TopLevel.PreparedFails | grano/ql/query.py:432-434 | preparing the root raises AttributeError when the query is not a dict, and TypeError exactly when `limit` or `offset` is a datetime |
| TopLevel.PreparedEntries | grano/ql/query.py:432-434 | the prepared root keeps its shape and other entries, and holds `min(1000, query.get('limit', 25))` and `max(0, query.get('offset', 0))`: the default only replaces a missing key, so a `limit` of `0` or `None` that is present is kept |
| TopLevel.Prepare | grano/ql/query.py:432-434 | the two writes into `node.value` leave the node holding the prepared element, or fail with its error |
| TopLevel.Run | grano/ql/query.py:431-436 | `run(query)` is the root `EntityQuery` built on the prepared document |
| WebUtil.EnsureArray | webif/util.js:2-7 | definition of `ensureArray`; stated by `EnsureArraySpec` |
| WebUtil.GetTree | webif/util.js:9-24 | definition of `getTree`; stated by `GetTreeStep` and `GetTreeConcat` |
| WebUtil.SetTree | webif/util.js:26-41 | definition of `setTree` with the value passed down; stated by `SetThenGet`, `SetTreeEach` and `SetKeepsOthers` |
| WebUtil.SetTreeAsWritten | webif/util.js:26-41 | definition of `setTree` as written; stated by `AsWrittenDropsValue` and `AsWrittenLosesValue` |
| WebUtil.Assign | webif/util.js:33 | `o[next] = value` sets that property and no other |
| WebUtil.Store | webif/util.js:33 | writing a property of undefined or null throws a TypeError; an object gets the property; other values are unchanged |
| WebUtil.Next | webif/util.js:10-11 | `path.split('.')[0]` holds no dot and is a prefix of the path |
| WebUtil.Rest | webif/util.js:12 | the rest of a non-empty path is shorter |
| WebUtil.PathParts | webif/util.js:10-12 | the first segment, a dot and the rest give the path back |
| WebUtil.EnsureArraySpec | webif/util.js:2-7 | `ensureArray(x)` is `x` for an array, otherwise `[x]`; it is idempotent |
| WebUtil.GetTreeStep | webif/util.js:18-23 | for one non-array value, `getTree` is nothing when the first key is undefined, else `getTree` of that property on the rest of the path |
| WebUtil.GetTreeConcat | webif/util.js:18-23 | on a non-empty path, `getTree` of an array is the concatenation, in element order, of the results of its parts |
| WebUtil.GetAllFrom | webif/util.js:18-22 | the `forEach` goes on from what it has collected |
| WebUtil.GetTreeLoop | webif/util.js:9-24 | `getTree`, with the `forEach` as a loop, is the specified result |
| WebUtil.SetAll | webif/util.js:31-40 | the `forEach` keeps one element per element |
| WebUtil.SetTreeOne | webif/util.js:30-40 | on a value that is not an array, `setTree` is setting on its one element |
| WebUtil.SetTreeEach | webif/util.js:31-40 | on an array, `setTree` does to each element what it does to a single value |
| WebUtil.SetKeepsOthers | webif/util.js:31-40 | `setTree` on an object changes only the property its path starts with |
| WebUtil.SetThenGet | webif/util.js:9-40 | along a path of non-empty segments over objects, `getTree` after the corrected `setTree` finds `ensureArray(value)`, or nothing for undefined |
| WebUtil.SetTreeLoop | webif/util.js:26-41 | `setTree`, with the `forEach` as a loop, is the (corrected) specified update |
| WebUtil.SetBelow | webif/util.js:34-39 | the branch for a path of several segments creates `{}` for a missing key and recurses |
| WebUtil.SetAllAsWritten | webif/util.js:31-40 | the `forEach` as written keeps one element per element |
| WebUtil.AsWrittenDropsValue | webif/util.js:38 | the as-written `setTree` is the corrected one given undefined for every path of several segments |
| WebUtil.AsWrittenLosesValue | webif/util.js:38 | `setTree({}, 'a.b', 1)` as written leaves `a.b` undefined, so `getTree` finds nothing; corrected, it finds `[1]` |

## Left out

- SQL: SQLAlchemy's `aliased`, `db.session.query`, the joins of `join_parent` and `distinct`
  are foreign library calls. The query is the list of builder calls it receives: a join is
  a tag naming the two aliases, and the others carry their arguments. The database is a
  parameter of `Execute` that maps such a list to rows; what SQL returns for it is not modelled.
- Dict order: Python 2 orders dict items arbitrarily. The model iterates `model`,
  `value_columns` and nested result dicts in declaration and insertion order. So the order of
  children, the choice among several typed columns in `PropertyQuery._make_object`
  (`PropertyValueLast` picks the last in declaration order), and `value_columns.keys()` in
  `default_fields` follow that order.
- Floats are reals without rounding. A datetime is opaque. Comparisons and dict keys do not
  identify `1`, `1.0` and `True` as Python does.
- Registry.IsInstance: takes `sys.maxint` of a 64-bit Python 2; on a 32-bit build the
  boundary between `int` and `long` is 2^31 - 1.
- A tuple is read as a list: `update` on a tuple element succeeds where `el[0] = v` raises
  TypeError. A decoded JSON query holds no tuples.
- Three loops of the source are functions or lookups here, not `for` loops:
  `[node.name for node in self.node.children]` in `run` (`Execute.NamedChild`, a membership
  test), the `QueryNode.children` generator (`Parser.ChildrenOf`, the list it yields), and the
  inner `for node in self.node.children` of `ObjectQuery.__init__` (a `Get` of the name in
  `Tree.InstantiateEntry`). Their result is the same; the order of visits is not modelled.
- Generators are consumed in full: `run` returns the list of pairs it would yield.
- The module-level `run` returns the root query object; its later `run()` is `Execute.Run`.
- `to_dict` in parser.py and in query.py, being debug helpers.
- `sort` and `optional` are skipped by `filter` like any directive. The source gives them no
  other meaning.
- grano/ql/model.py, grano/ql/interface.py, setup.py and webif/app.js are not part of this
  model: they are an ORM declaration, HTTP plumbing and the UI.
- JavaScript values are immutable trees: heap aliasing between objects is not modelled.
  `setTree` returns the updated value instead of changing the objects in place.
- WebUtil.Store: writing a named property on an array or a primitive is dropped, and reading
  one is undefined. Neither prototype properties nor the order of integer-like keys is
  modelled.
- WebUtil.SetTreeLoop: in the source, a TypeError part way through a `forEach` leaves the
  earlier elements already changed; the model has no state left after an error.
- Aliasing in grano-ql: the dicts and lists inside a query node are shared with the child
  nodes made from them. The model writes a child's changed element back into its parent's
  entry explicitly (`Tree.AttachKeeps`, `Tree.AttachBlockKeeps`, `Tree.ObjectKeepsEntries`).

## Findings

| source | as written | input that shows it | evidently intended | confidence | as-written member | corrected member |
|---|---|---|---|---|---|---|
| grano/ql/query.py:68 | `node.value = {...}` assigns to `QueryNode.value`, a property without a setter, so it raises AttributeError (also at lines 200, 221, 242, 284, 286 and 336) | `{"project": null}` at the root, a shorthand such as `{"project": "slug"}`, or `{"properties": null}` or `{"properties": []}` | replacing the node's value through `node.update(...)` | not executed | Normalize.ExpandAsWritten, Normalize.NormalizePropertiesAsWritten (Normalize.AssignToValueRaises, Normalize.PropertiesAssignRaises) | Normalize.Expand, Normalize.NormalizeProperties (Normalize.ExpandNormalizes, Normalize.NormalizePropertiesCases) |
| webif/util.js:38 | `setTree(o[next], rest)` passes no value, so every path of several segments sets the last key to undefined | `setTree({}, 'a.b', 1)` gives `{a: {b: undefined}}` | `setTree(o[next], rest, value)` | not executed | WebUtil.SetTreeAsWritten (WebUtil.AsWrittenDropsValue, WebUtil.AsWrittenLosesValue) | WebUtil.SetTree (WebUtil.SetThenGet) |
