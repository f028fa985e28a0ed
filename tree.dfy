/** The query objects of grano/ql/query.py as one tree value: `ObjectQuery.__init__`
    instantiates a child query for every model field the node names, and
    `PropertiesQuery.__init__` one property query per requested property. A query's
    `alias` is the path of names from the root, which tells the SQL aliases apart;
    `parent` is the alias of the query it joins to. */
module Tree {
  import opened PyValue
  import opened Parser
  import opened Registry
  import opened Normalize

  type Alias = seq<Value>

  datatype QueryTree =
    | FieldQuery(name: Value, el: Value)
    | ObjectQuery(cls: QueryClass, name: Value, alias: Alias, parent: Option<Alias>, el: Value, children: seq<Child>)
    | PropertiesQuery(cls: QueryClass, owner: Alias, children: seq<Child>)

  /** An entry of `self.children`. */
  datatype Child = Child(name: Value, query: QueryTree)

  /** Termination measure of building a query of class `cls` from `el`. */
  function Measure(cls: QueryClass, el: Value): nat
  {
    10 * Depth(el) + Rank(cls)
  }

  /** What the parent's dict holds for a child object node `v` once the child query
      has changed its node into `fin`: a list is shared and was changed in place, and
      so was a dict, which `expand_query` never rebinds; any other value was only
      rebound inside the child node. */
  function WriteBack(v: Value, fin: Value): Value
  {
    if v.List? then fin else if v.Dict? then ShapeOf(fin) else v
  }

  /** The same for a properties block: defaulting an empty dict rebinds the block node
      to a fresh `{'*': None}` (through `update`), so the owner keeps its empty dict. */
  function BlockWriteBack(v: Value, fin: Value): Value
  {
    if v == Dict([]) then v else WriteBack(v, fin)
  }

  /** `node.value[k] = x` on a node whose value is a dict. */
  function SetEntry(el: Value, k: Value, x: Value): Value
  {
    match ShapeOf(el)
    case Dict(d) => WithShape(el, Dict(Put(d, k, x)))
    case _ => el
  }

  /** The entries of a node's value, as `children` sees them. */
  function EntriesOf(el: Value): seq<Entry>
  {
    if ShapeOf(el).Dict? then ShapeOf(el).entries else []
  }

  lemma DepthOfSingleton(v: Value)
    ensures Depth(List([v])) == Depth(v) + 1
  {
    assert List([v]).items[0] == v;
    assert MaxItemDepth(List([v]), 1) == Depth(v);
  }

  /** Every entry of an expanded entity or relation node is either one the caller
      wrote, hence shallower than the node, or a `None` that `expand_query` added for
      `id` or a default field. */
  lemma ExpandedEntryShallow(cls: QueryClass, name: Value, el: Value, e: Value, k: Value)
    requires IsEntity(cls) || IsRelation(cls)
    requires Expand(cls, name, el) == Ok(e) && HasKey(EntriesOf(e), k)
    ensures var v := Get(EntriesOf(e), k).value;
      Depth(v) < Depth(el) || (v == Null && (k == IdKey || (k.Str? && k.s in Defaults(cls))))
  {
    GraphNotPatched(cls, name, el);
    ExpandUnpatched(cls, name, el);
    if ShapeOf(el) == Null {
      ExpandedFromNull(cls, WithShape(el, Dict([Entry(Star, Null)])), e, k);
    } else if ShapeOf(el).Dict? {
      ExpandedFromCaller(cls, el, e, k);
    }
  }

  /** Entities and relations have no `patch_node` of their own. */
  lemma GraphNotPatched(cls: QueryClass, name: Value, el: Value)
    requires IsEntity(cls) || IsRelation(cls)
    ensures Patch(cls, name, el) == Ok(el)
  {
    assert Shorthand(cls).None? && !IsProperty(cls);
  }

  /** The case of `ExpandedEntryShallow` where the caller gave a dict. */
  lemma ExpandedFromCaller(cls: QueryClass, el: Value, e: Value, k: Value)
    requires ShapeOf(el).Dict? && e == WithShape(el, Dict(ExpandEntries(cls, ShapeOf(el).entries)))
    requires HasKey(EntriesOf(e), k)
    ensures var v := Get(EntriesOf(e), k).value;
      Depth(v) < Depth(el) || (v == Null && (k == IdKey || (k.Str? && k.s in Defaults(cls))))
  {
    var d := ShapeOf(el).entries;
    ExpandedFromDict(cls, el, d, e, k);
    if HasKey(d, k) {
      GetIn(d, k);
      EntryDepth(d, Entry(k, Get(d, k).value));
      ShapeDepth(el);
    }
  }

  /** `expand_query` on a node that `patch_node` leaves alone. */
  lemma ExpandUnpatched(cls: QueryClass, name: Value, el: Value)
    requires Patch(cls, name, el) == Ok(el) && Expand(cls, name, el).Ok?
    ensures ShapeOf(el) == Null ==>
      var e2 := WithShape(el, Dict([Entry(Star, Null)]));
      ShapeOf(e2) == Dict([Entry(Star, Null)]) && Expand(cls, name, el) == Ok(WithShape(e2, Dict(ExpandEntries(cls, [Entry(Star, Null)]))))
    ensures ShapeOf(el).Dict? ==> Expand(cls, name, el) == Ok(WithShape(el, Dict(ExpandEntries(cls, ShapeOf(el).entries))))
    ensures !ShapeOf(el).Dict? && ShapeOf(el) != Null ==> Expand(cls, name, el) == Ok(el)
  {
  }

  /** The `None` case of `ExpandedEntryShallow`. */
  lemma ExpandedFromNull(cls: QueryClass, e2: Value, e: Value, k: Value)
    requires ShapeOf(e2) == Dict([Entry(Star, Null)])
    requires e == WithShape(e2, Dict(ExpandEntries(cls, [Entry(Star, Null)])))
    requires HasKey(EntriesOf(e), k)
    ensures Get(EntriesOf(e), k) == Some(Null) && (k == IdKey || (k.Str? && k.s in Defaults(cls)))
  {
    var d := [Entry(Star, Null)];
    ExpandedFromDict(cls, e2, d, e, k);
    assert d[1..] == [];
    assert !HasKey(d, k);
  }

  /** The dict case of `ExpandedEntryShallow`. */
  lemma ExpandedFromDict(cls: QueryClass, e2: Value, d: seq<Entry>, e: Value, k: Value)
    requires ShapeOf(e2) == Dict(d) && e == WithShape(e2, Dict(ExpandEntries(cls, d)))
    requires HasKey(EntriesOf(e), k)
    ensures EntriesOf(e) == ExpandEntries(cls, d)
    ensures k != Star
    ensures HasKey(d, k) ==> Get(EntriesOf(e), k) == Get(d, k)
    ensures !HasKey(d, k) ==> Get(EntriesOf(e), k) == Some(Null) && (k == IdKey || (k.Str? && k.s in Defaults(cls)))
  {
    assert e2 != List([]);
    WithShapeShapeOf(e2);
    ExpandEntriesSpec(cls, d);
  }

  /** Every entry of a normalised properties block is shallower than the block, or the
      `*: None` the defaulting supplied. */
  lemma NormalizedEntryShallow(el: Value, e: Value, i: nat)
    requires NormalizeProperties(el) == Ok(e) && i < |EntriesOf(e)|
    ensures Depth(EntriesOf(e)[i].val) < Depth(el) || EntriesOf(e)[i] == Entry(Star, Null)
  {
    var sh := ShapeOf(el);
    if e == el {
      assert sh == Dict(EntriesOf(e));
      EntryDepth(sh.entries, sh.entries[i]);
      ShapeDepth(el);
    } else {
      assert e == WithShape(el, Dict([Entry(Star, Null)]));
      assert ShapeOf(e) == Dict([Entry(Star, Null)]);
    }
  }

  /** A nested object or properties query is built from a smaller measure than its
      parent's. */
  lemma ChildMeasureLess(cls: QueryClass, name: Value, el: Value, e: Value, i: nat, c: QueryClass, v: Value)
    requires Expand(cls, name, el) == Ok(e) && i < |Model(cls)|
    requires Model(cls)[i].kind == Object(c) || Model(cls)[i].kind == Properties(c)
    requires Get(EntriesOf(e), Str(Model(cls)[i].name)) == Some(v)
    ensures Measure(c, v) < Measure(cls, el)
  {
    var k := Str(Model(cls)[i].name);
    ModelKinds(cls, i);
    ExpandedEntryShallow(cls, name, el, e, k);
    if Depth(v) >= Depth(el) {
      DefaultChildRankLess(cls, i);
    }
  }

  /** Every nested object or properties entry that the expanded element `e` names is
      built from a smaller measure than `el`. */
  predicate NestedShallow(cls: QueryClass, el: Value, e: Value)
  {
    forall i :: 0 <= i < |Model(cls)| && !Model(cls)[i].kind.Field? && HasKey(EntriesOf(e), Str(Model(cls)[i].name)) ==>
      Measure(Model(cls)[i].kind.cls, Get(EntriesOf(e), Str(Model(cls)[i].name)).value) < Measure(cls, el)
  }

  lemma ExpandedNestedShallow(cls: QueryClass, name: Value, el: Value, e: Value)
    requires Expand(cls, name, el) == Ok(e)
    ensures NestedShallow(cls, el, e)
  {
    forall i | 0 <= i < |Model(cls)| && !Model(cls)[i].kind.Field? && HasKey(EntriesOf(e), Str(Model(cls)[i].name))
      ensures Measure(Model(cls)[i].kind.cls, Get(EntriesOf(e), Str(Model(cls)[i].name)).value) < Measure(cls, el)
    {
      ChildMeasureLess(cls, name, el, e, i, Model(cls)[i].kind.cls, Get(EntriesOf(e), Str(Model(cls)[i].name)).value);
    }
  }

  /** `child.el = [child.el]` unless the node is already a list. */
  function Wrapped(v: Value): (r: Value)
    ensures r.List? && ShapeOf(r) == ShapeOf(v)
  {
    if v.List? then v else List([v])
  }

  /** Every requested property of the normalised block `e` is built from a smaller
      measure than the block `el`. */
  predicate PropsShallow(cls: QueryClass, el: Value, e: Value)
  {
    forall i :: 0 <= i < |EntriesOf(e)| ==> Measure(PropertyClass(cls), Wrapped(EntriesOf(e)[i].val)) < Measure(cls, el)
  }

  lemma NormalizedPropsShallow(cls: QueryClass, el: Value, e: Value)
    requires IsPropertiesStub(cls) && NormalizeProperties(el) == Ok(e)
    ensures PropsShallow(cls, el, e)
  {
    forall i | 0 <= i < |EntriesOf(e)|
      ensures Measure(PropertyClass(cls), Wrapped(EntriesOf(e)[i].val)) < Measure(cls, el)
    {
      NormalizedEntryShallow(el, e, i);
      DepthOfSingleton(EntriesOf(e)[i].val);
    }
  }

  // ---------------------------------------------------------------------------
  // Building the tree

  /** The node element and the children built so far. */
  type Progress = (Value, seq<Child>)

  /** A constructor that made the children `r` and left its node's element `fin`
      did what the outcome `b` says. */
  ghost predicate Yields(b: Result<Progress>, r: Result<seq<Child>>, fin: Value)
  {
    match b
    case Ok(p) => r == Ok(p.1) && fin == p.0
    case Err(x) => r == Err(x)
  }

  /** `cls(parent, name, node)` for an object query aliased `alias`, joined to the
      query aliased `parent`. The tree's `el` is the node's element once the query
      and its children are done with it. */
  function BuildObject(cls: QueryClass, name: Value, alias: Alias, parent: Option<Alias>, el: Value): (r: Result<QueryTree>)
    ensures r.Ok? ==> r.value.ObjectQuery? && r.value.cls == cls && r.value.alias == alias && r.value.parent == parent
    decreases Measure(cls, el), 2, 0, 0
  {
    var e :- Expand(cls, name, el);
    ExpandedNestedShallow(cls, name, el, e);
    Assemble(cls, name, alias, parent, BuildModel(cls, alias, el, e, 0, (e, [])))
  }

  /** The object query that the outcome `r` of its model loop makes. */
  function Assemble(cls: QueryClass, name: Value, alias: Alias, parent: Option<Alias>, r: Result<Progress>): (q: Result<QueryTree>)
    ensures q.Ok? <==> r.Ok?
    ensures q.Ok? ==> q.value.ObjectQuery? && q.value.el == r.value.0 && q.value.children == r.value.1
    ensures q.Ok? ==> q.value.cls == cls && q.value.alias == alias && q.value.parent == parent
  {
    match r
    case Ok(p) => Ok(ObjectQuery(cls, name, alias, parent, p.0, p.1))
    case Err(x) => Err(x)
  }

  /** The loop of `ObjectQuery.__init__` from model entry `i` on, given the progress
      `acc` of the entries before it. */
  function BuildModel(cls: QueryClass, alias: Alias, el: Value, e: Value, i: nat, acc: Progress): Result<Progress>
    requires NestedShallow(cls, el, e) && i <= |Model(cls)|
    decreases Measure(cls, el), 1, |Model(cls)| - i, 1
  {
    if i == |Model(cls)| then Ok(acc)
    else
      var next :- ModelStep(cls, alias, el, e, i, acc);
      BuildModel(cls, alias, el, e, i + 1, next)
  }

  /** One pass of that loop, for model entry `i`. The node is looked up in `e`, the
      expanded element: an entry the loop has not reached yet is still as `e` has it. */
  function ModelStep(cls: QueryClass, alias: Alias, el: Value, e: Value, i: nat, acc: Progress): Result<Progress>
    requires NestedShallow(cls, el, e) && i < |Model(cls)|
    decreases Measure(cls, el), 1, |Model(cls)| - i, 0
  {
    var desc := Model(cls)[i];
    var k := Str(desc.name);
    if !HasKey(EntriesOf(e), k) then Ok(acc)
    else
      var v := Get(EntriesOf(e), k).value;
      match desc.kind
      case Field => Ok((acc.0, acc.1 + [Child(k, FieldQuery(k, v))]))
      case Object(c) => Attach(c, k, alias + [k], Some(alias), v, v, acc)
      case Properties(c) =>
        ModelKinds(cls, i);
        AttachBlock(c, alias, k, v, acc)
  }

  /** The child object query named `k`, built from the node `w`, joins the progress
      `acc`; the parent's dict held `v` for it and now holds what the child left. */
  function Attach(c: QueryClass, k: Value, alias: Alias, parent: Option<Alias>, v: Value, w: Value, acc: Progress): Result<Progress>
    decreases Measure(c, w), 3, 0, 0
  {
    Join(k, v, acc, BuildObject(c, k, alias, parent, w))
  }

  /** The progress `acc` once the child query `t` named `k`, whose node the parent's
      dict held as `v`, has been made. */
  function Join(k: Value, v: Value, acc: Progress, t: Result<QueryTree>): (r: Result<Progress>)
    requires t.Ok? ==> t.value.ObjectQuery?
    ensures r.Ok? <==> t.Ok?
    ensures r.Ok? ==> r.value.1 == acc.1 + [Child(k, t.value)]
  {
    match t
    case Ok(q) => Ok((SetEntry(acc.0, k, WriteBack(v, q.el)), acc.1 + [Child(k, q)]))
    case Err(x) => Err(x)
  }

  /** The properties query named `k`, built from the block `v`, joins the progress `acc`. */
  function AttachBlock(c: QueryClass, parent: Alias, k: Value, v: Value, acc: Progress): Result<Progress>
    requires IsPropertiesStub(c)
    decreases Measure(c, v), 3, 0, 0
  {
    JoinBlock(k, v, acc, BuildProps(c, parent, k, v))
  }

  /** The progress `acc` once the properties query named `k` has been made from the
      block `v`; `p` holds the query and the block's element afterwards. */
  function JoinBlock(k: Value, v: Value, acc: Progress, p: Result<(QueryTree, Value)>): (r: Result<Progress>)
    ensures r.Ok? <==> p.Ok?
    ensures r.Ok? ==> r.value.1 == acc.1 + [Child(k, p.value.0)]
  {
    match p
    case Ok(b) => Ok((SetEntry(acc.0, k, BlockWriteBack(v, b.1)), acc.1 + [Child(k, b.0)]))
    case Err(x) => Err(x)
  }

  /** `PropertiesQuery(parent, name, node)` for the properties block `el` of the query
      aliased `parent`, with the block's element afterwards. */
  function BuildProps(cls: QueryClass, parent: Alias, name: Value, el: Value): (r: Result<(QueryTree, Value)>)
    requires IsPropertiesStub(cls)
    ensures r.Ok? ==> r.value.0.PropertiesQuery? && r.value.0.cls == cls && r.value.0.owner == parent
    decreases Measure(cls, el), 2, 0, 0
  {
    var e :- NormalizeProperties(el);
    NormalizedPropsShallow(cls, el, e);
    AssembleBlock(cls, parent, BuildPropChildren(cls, parent, name, el, e, 0, (e, [])))
  }

  /** The properties query that the outcome `r` of its loop makes, with the block's
      element afterwards. */
  function AssembleBlock(cls: QueryClass, parent: Alias, r: Result<Progress>): (q: Result<(QueryTree, Value)>)
    ensures q.Ok? <==> r.Ok?
    ensures q.Ok? ==> q.value.0.PropertiesQuery? && q.value.0.children == r.value.1 && q.value.1 == r.value.0
    ensures q.Ok? ==> q.value.0.cls == cls && q.value.0.owner == parent
  {
    match r
    case Ok(p) => Ok((PropertiesQuery(cls, parent, p.1), p.0))
    case Err(x) => Err(x)
  }

  /** The loop of `PropertiesQuery.__init__` from requested property `i` on. */
  function BuildPropChildren(cls: QueryClass, parent: Alias, name: Value, el: Value, e: Value, i: nat, acc: Progress): Result<Progress>
    requires PropsShallow(cls, el, e) && i <= |EntriesOf(e)|
    decreases Measure(cls, el), 1, |EntriesOf(e)| - i, 1
  {
    if i == |EntriesOf(e)| then Ok(acc)
    else
      var next :- PropStep(cls, parent, name, el, e, i, acc);
      BuildPropChildren(cls, parent, name, el, e, i + 1, next)
  }

  /** One pass of that loop: the property node is wrapped in a list unless it already
      is one. */
  function PropStep(cls: QueryClass, parent: Alias, name: Value, el: Value, e: Value, i: nat, acc: Progress): Result<Progress>
    requires PropsShallow(cls, el, e) && i < |EntriesOf(e)|
    decreases Measure(cls, el), 1, |EntriesOf(e)| - i, 0
  {
    var entry := EntriesOf(e)[i];
    Attach(PropertyClass(cls), entry.key, parent + [name, entry.key], Some(parent), entry.val, Wrapped(entry.val), acc)
  }

  // ---------------------------------------------------------------------------
  // Facts the constructors below rely on

  /** `node.value[k] = x` changes the entry for `k` and no other. */
  lemma SetEntryGet(el: Value, k: Value, x: Value)
    ensures forall j :: (Get(EntriesOf(SetEntry(el, k, x)), j) ==
                          if ShapeOf(el).Dict? && j == k then Some(x) else Get(EntriesOf(el), j))
    ensures ShapeOf(SetEntry(el, k, x)).Dict? == ShapeOf(el).Dict?
  {
    if ShapeOf(el).Dict? {
      var p := Put(ShapeOf(el).entries, k, x);
      assert SetEntry(el, k, x) == WithShape(el, Dict(p));
      assert EntriesOf(SetEntry(el, k, x)) == p;
    }
  }

  /** A change to the entry named by model entry `i` alone leaves the entries of the
      later model entries as they were. */
  lemma LaterEntriesKept(cls: QueryClass, i: nat, before: Value, after: Value, e: Value)
    requires i < |Model(cls)|
    requires forall j :: i <= j < |Model(cls)| ==> Get(EntriesOf(before), Str(Model(cls)[j].name)) == Get(EntriesOf(e), Str(Model(cls)[j].name))
    requires forall j :: j != Str(Model(cls)[i].name) ==> Get(EntriesOf(after), j) == Get(EntriesOf(before), j)
    ensures forall j :: i < j < |Model(cls)| ==> Get(EntriesOf(after), Str(Model(cls)[j].name)) == Get(EntriesOf(e), Str(Model(cls)[j].name))
  {
    ModelWellFormed(cls);
    forall j | i < j < |Model(cls)|
      ensures Get(EntriesOf(after), Str(Model(cls)[j].name)) == Get(EntriesOf(e), Str(Model(cls)[j].name))
    {
      assert Model(cls)[i].name != Model(cls)[j].name;
    }
  }

  /** Attaching a child object query changes the parent's entry for its name and no other. */
  lemma AttachKeeps(c: QueryClass, k: Value, alias: Alias, parent: Option<Alias>, v: Value, w: Value, acc: Progress)
    ensures Attach(c, k, alias, parent, v, w, acc).Ok? ==>
      forall j :: j != k ==> Get(EntriesOf(Attach(c, k, alias, parent, v, w, acc).value.0), j) == Get(EntriesOf(acc.0), j)
  {
    var t := BuildObject(c, k, alias, parent, w);
    if t.Ok? {
      SetEntryGet(acc.0, k, WriteBack(v, t.value.el));
    }
  }

  /** So does attaching a properties query. The owner's entry for the block then holds
      the list, or the non-empty dict, that the block node changed in place; an empty
      dict, which the defaulting replaced by a fresh one, and a block that is neither a
      list nor a dict stay as they were. */
  lemma AttachBlockKeeps(c: QueryClass, parent: Alias, k: Value, v: Value, acc: Progress)
    requires IsPropertiesStub(c)
    ensures AttachBlock(c, parent, k, v, acc).Ok? ==>
      forall j :: j != k ==> Get(EntriesOf(AttachBlock(c, parent, k, v, acc).value.0), j) == Get(EntriesOf(acc.0), j)
    ensures AttachBlock(c, parent, k, v, acc).Ok? && ShapeOf(acc.0).Dict? && (v == Dict([]) || (!v.List? && !v.Dict?)) ==>
      Get(EntriesOf(AttachBlock(c, parent, k, v, acc).value.0), k) == Some(v)
    ensures AttachBlock(c, parent, k, v, acc).Ok? && ShapeOf(acc.0).Dict? && v.List? ==>
      Get(EntriesOf(AttachBlock(c, parent, k, v, acc).value.0), k) == Some(BuildProps(c, parent, k, v).value.1)
    ensures AttachBlock(c, parent, k, v, acc).Ok? && ShapeOf(acc.0).Dict? && v.Dict? && v != Dict([]) ==>
      Get(EntriesOf(AttachBlock(c, parent, k, v, acc).value.0), k) == Some(ShapeOf(BuildProps(c, parent, k, v).value.1))
  {
    var p := BuildProps(c, parent, k, v);
    if p.Ok? {
      SetEntryGet(acc.0, k, BlockWriteBack(v, p.value.1));
    }
  }

  /** An object query is its expanded node and the children the model loop makes. */
  lemma ObjectUnfold(cls: QueryClass, name: Value, alias: Alias, parent: Option<Alias>, el: Value, e: Value)
    requires Expand(cls, name, el) == Ok(e)
    ensures NestedShallow(cls, el, e)
    ensures BuildObject(cls, name, alias, parent, el) == Assemble(cls, name, alias, parent, BuildModel(cls, alias, el, e, 0, (e, [])))
  {
    ExpandedNestedShallow(cls, name, el, e);
  }

  /** An object query whose node does not expand raises what `expand_query` raised. */
  lemma ObjectExpandFails(cls: QueryClass, name: Value, alias: Alias, parent: Option<Alias>, el: Value)
    requires Expand(cls, name, el).Err?
    ensures BuildObject(cls, name, alias, parent, el) == Err(Expand(cls, name, el).error)
  {
  }

  /** Attaching a child object query: the child's outcome decides. */
  lemma AttachUnfold(c: QueryClass, k: Value, alias: Alias, parent: Option<Alias>, v: Value, w: Value, acc: Progress)
    ensures Attach(c, k, alias, parent, v, w, acc) == Join(k, v, acc, BuildObject(c, k, alias, parent, w))
  {
  }

  /** Attaching a properties query: the block's outcome decides. */
  lemma AttachBlockUnfold(c: QueryClass, parent: Alias, k: Value, v: Value, acc: Progress)
    requires IsPropertiesStub(c)
    ensures AttachBlock(c, parent, k, v, acc) == JoinBlock(k, v, acc, BuildProps(c, parent, k, v))
  {
  }

  /** A properties query is its defaulted block and the property queries the loop makes. */
  lemma BlockUnfold(cls: QueryClass, parent: Alias, name: Value, el: Value, e: Value)
    requires IsPropertiesStub(cls) && NormalizeProperties(el) == Ok(e)
    ensures PropsShallow(cls, el, e)
    ensures BuildProps(cls, parent, name, el) == AssembleBlock(cls, parent, BuildPropChildren(cls, parent, name, el, e, 0, (e, [])))
  {
    NormalizedPropsShallow(cls, el, e);
  }

  /** A properties block without a length raises what the defaulting raised. */
  lemma BlockNormalizeFails(cls: QueryClass, parent: Alias, name: Value, el: Value)
    requires IsPropertiesStub(cls) && NormalizeProperties(el).Err?
    ensures BuildProps(cls, parent, name, el) == Err(NormalizeProperties(el).error)
  {
  }

  /** One pass of the model loop, then the rest of it. */
  lemma ModelUnfold(cls: QueryClass, alias: Alias, el: Value, e: Value, i: nat, acc: Progress)
    requires NestedShallow(cls, el, e) && i < |Model(cls)|
    ensures ModelStep(cls, alias, el, e, i, acc).Err? ==>
      BuildModel(cls, alias, el, e, i, acc) == Err(ModelStep(cls, alias, el, e, i, acc).error)
    ensures ModelStep(cls, alias, el, e, i, acc).Ok? ==>
      BuildModel(cls, alias, el, e, i, acc) == BuildModel(cls, alias, el, e, i + 1, ModelStep(cls, alias, el, e, i, acc).value)
  {
  }

  /** Model entry `i` whose name the node lacks makes nothing. */
  lemma StepSkips(cls: QueryClass, alias: Alias, el: Value, e: Value, i: nat, acc: Progress)
    requires NestedShallow(cls, el, e) && i < |Model(cls)| && !HasKey(EntriesOf(e), Str(Model(cls)[i].name))
    ensures ModelStep(cls, alias, el, e, i, acc) == Ok(acc)
  {
  }

  /** A field entry the node names makes a field query over its value. */
  lemma StepField(cls: QueryClass, alias: Alias, el: Value, e: Value, i: nat, acc: Progress, v: Value)
    requires NestedShallow(cls, el, e) && i < |Model(cls)| && Model(cls)[i].kind.Field?
    requires Get(EntriesOf(e), Str(Model(cls)[i].name)) == Some(v)
    ensures var k := Str(Model(cls)[i].name);
      ModelStep(cls, alias, el, e, i, acc) == Ok((acc.0, acc.1 + [Child(k, FieldQuery(k, v))]))
  {
  }

  /** A nested object entry the node names attaches an object query over its value. */
  lemma StepObject(cls: QueryClass, alias: Alias, el: Value, e: Value, i: nat, acc: Progress, v: Value)
    requires NestedShallow(cls, el, e) && i < |Model(cls)| && Model(cls)[i].kind.Object?
    requires Get(EntriesOf(e), Str(Model(cls)[i].name)) == Some(v)
    ensures var k := Str(Model(cls)[i].name);
      ModelStep(cls, alias, el, e, i, acc) == Attach(Model(cls)[i].kind.cls, k, alias + [k], Some(alias), v, v, acc)
  {
  }

  /** A properties entry the node names attaches a properties query over its value. */
  lemma StepProperties(cls: QueryClass, alias: Alias, el: Value, e: Value, i: nat, acc: Progress, v: Value)
    requires NestedShallow(cls, el, e) && i < |Model(cls)| && Model(cls)[i].kind.Properties?
    requires Get(EntriesOf(e), Str(Model(cls)[i].name)) == Some(v)
    ensures IsPropertiesStub(Model(cls)[i].kind.cls)
    ensures ModelStep(cls, alias, el, e, i, acc) == AttachBlock(Model(cls)[i].kind.cls, alias, Str(Model(cls)[i].name), v, acc)
  {
    ModelKinds(cls, i);
  }

  /** The properties loop ends after the last requested property. */
  lemma PropChildrenDone(cls: QueryClass, parent: Alias, name: Value, el: Value, e: Value, acc: Progress)
    requires PropsShallow(cls, el, e)
    ensures BuildPropChildren(cls, parent, name, el, e, |EntriesOf(e)|, acc) == Ok(acc)
  {
  }

  /** One pass of the properties loop, then the rest of it. */
  lemma PropChildrenUnfold(cls: QueryClass, parent: Alias, name: Value, el: Value, e: Value, i: nat, acc: Progress)
    requires PropsShallow(cls, el, e) && i < |EntriesOf(e)|
    ensures PropStep(cls, parent, name, el, e, i, acc).Err? ==>
      BuildPropChildren(cls, parent, name, el, e, i, acc) == Err(PropStep(cls, parent, name, el, e, i, acc).error)
    ensures PropStep(cls, parent, name, el, e, i, acc).Ok? ==>
      BuildPropChildren(cls, parent, name, el, e, i, acc) == BuildPropChildren(cls, parent, name, el, e, i + 1, PropStep(cls, parent, name, el, e, i, acc).value)
  {
  }

  /** `children` has one node per entry of the node's value ... */
  lemma ChildrenCount(el: Value)
    ensures |ChildrenOf(el)| == |EntriesOf(el)|
  {
    NodesCount(EntriesOf(el));
  }

  /** ... in order. */
  lemma ChildAt(el: Value, i: nat)
    requires i < |EntriesOf(el)|
    ensures i < |ChildrenOf(el)| && ChildrenOf(el)[i] == Node(EntriesOf(el)[i].key, EntriesOf(el)[i].val)
  {
    NodeAt(EntriesOf(el), i);
  }

  // ---------------------------------------------------------------------------
  // The constructors, changing the nodes in place

  /** `ObjectQuery.__init__(parent, name, node)`: expand the node in place, then
      instantiate one child query per model entry the node names; a nested query
      changes the shared node it was given. */
  method NewObjectQuery(cls: QueryClass, name: Value, alias: Alias, parent: Option<Alias>, node: QueryNode)
    returns (r: Result<QueryTree>)
    modifies node
    decreases Measure(cls, node.el), 2, 0, 0
    ensures r == BuildObject(cls, name, alias, parent, old(node.el))
    ensures r.Ok? ==> node.el == r.value.el
  {
    ghost var el := node.el;
    var ok := ExpandQuery(cls, name, node);
    match ok {
      case Fail(x) =>
        ObjectExpandFails(cls, name, alias, parent, el);
        r := Err(x);
      case Pass =>
        ghost var e := node.el;
        ObjectUnfold(cls, name, alias, parent, el, e);
        var children := InstantiateModel(cls, alias, el, e, node);
        match children {
          case Err(x) =>
            r := Err(x);
          case Ok(cs) =>
            r := Ok(ObjectQuery(cls, name, alias, parent, node.el, cs));
        }
    }
  }

  /** The loop of `ObjectQuery.__init__` over the model, on the expanded node. */
  method InstantiateModel(cls: QueryClass, alias: Alias, ghost el: Value, ghost e: Value, node: QueryNode)
    returns (r: Result<seq<Child>>)
    requires NestedShallow(cls, el, e) && node.el == e
    modifies node
    decreases Measure(cls, el), 1, |Model(cls)| + 1, 0
    ensures Yields(BuildModel(cls, alias, el, e, 0, (e, [])), r, node.el)
  {
    var children: seq<Child> := [];
    ghost var goal := BuildModel(cls, alias, el, e, 0, (e, []));
    for i := 0 to |Model(cls)|
      invariant BuildModel(cls, alias, el, e, i, (node.el, children)) == goal
      invariant forall j :: i <= j < |Model(cls)| ==> Get(EntriesOf(node.el), Str(Model(cls)[j].name)) == Get(EntriesOf(e), Str(Model(cls)[j].name))
    {
      ModelUnfold(cls, alias, el, e, i, (node.el, children));
      var next := InstantiateEntry(cls, alias, el, e, i, node, children);
      if next.Err? {
        return Err(next.error);
      }
      children := next.value;
    }
    r := Ok(children);
  }

  /** One pass of the loop of `ObjectQuery.__init__`: `for node in self.node.children:
      if node.name == name: self.children[name] = cls(self, name, node)` for model
      entry `i`, given the children made so far. */
  method InstantiateEntry(cls: QueryClass, alias: Alias, ghost el: Value, ghost e: Value, i: nat, node: QueryNode, children: seq<Child>)
    returns (r: Result<seq<Child>>)
    requires NestedShallow(cls, el, e) && i < |Model(cls)|
    requires forall j :: i <= j < |Model(cls)| ==> Get(EntriesOf(node.el), Str(Model(cls)[j].name)) == Get(EntriesOf(e), Str(Model(cls)[j].name))
    modifies node
    decreases Measure(cls, el), 1, |Model(cls)| - i, 0
    ensures Yields(ModelStep(cls, alias, el, e, i, (old(node.el), children)), r, node.el)
    ensures r.Ok? ==> forall j :: i < j < |Model(cls)| ==> Get(EntriesOf(node.el), Str(Model(cls)[j].name)) == Get(EntriesOf(e), Str(Model(cls)[j].name))
  {
    var desc := Model(cls)[i];
    var k := Str(desc.name);
    var found := Get(EntriesOf(node.el), k);
    assert found == Get(EntriesOf(e), k);
    ghost var before := node.el;
    ghost var step := ModelStep(cls, alias, el, e, i, (before, children));
    match found {
      case None =>
        StepSkips(cls, alias, el, e, i, (before, children));
        r := Ok(children);
      case Some(v) =>
        match desc.kind {
          case Field =>
            StepField(cls, alias, el, e, i, (before, children), v);
            r := Ok(children + [Child(k, FieldQuery(k, v))]);
          case Object(c) =>
            StepObject(cls, alias, el, e, i, (before, children), v);
            assert step == Attach(c, k, alias + [k], Some(alias), v, v, (before, children));
            var child := new QueryNode(k, v);
            r := AttachObject(c, k, alias + [k], Some(alias), v, child, node, children);
            AttachKeeps(c, k, alias + [k], Some(alias), v, v, (before, children));
          case Properties(c) =>
            StepProperties(cls, alias, el, e, i, (before, children), v);
            assert step == AttachBlock(c, alias, k, v, (before, children));
            var block := new QueryNode(k, v);
            r := AttachProperties(c, alias, k, block, node, children);
            AttachBlockKeeps(c, alias, k, v, (before, children));
        }
        if r.Ok? {
          LaterEntriesKept(cls, i, before, node.el, e);
        }
    }
  }

  /** `self.children[k] = cls(self, k, child)` for the object query of the node
      `child`, whose element the parent's dict held as `v`. */
  method AttachObject(c: QueryClass, k: Value, alias: Alias, parent: Option<Alias>, v: Value, child: QueryNode, node: QueryNode, children: seq<Child>)
    returns (r: Result<seq<Child>>)
    requires child != node
    modifies child, node
    decreases Measure(c, child.el), 3, 0, 0
    ensures Yields(Attach(c, k, alias, parent, v, old(child.el), (old(node.el), children)), r, node.el)
  {
    AttachUnfold(c, k, alias, parent, v, child.el, (node.el, children));
    var t := NewObjectQuery(c, k, alias, parent, child);
    var fin := child.el;
    match t {
      case Err(x) =>
        r := Err(x);
      case Ok(q) =>
        node.el := SetEntry(node.el, k, WriteBack(v, fin));
        r := Ok(children + [Child(k, q)]);
    }
  }

  /** `self.children[k] = cls(self, k, block)` for the properties block `block`. */
  method AttachProperties(c: QueryClass, parent: Alias, k: Value, block: QueryNode, node: QueryNode, children: seq<Child>)
    returns (r: Result<seq<Child>>)
    requires IsPropertiesStub(c) && block != node
    modifies block, node
    decreases Measure(c, block.el), 3, 0, 0
    ensures Yields(AttachBlock(c, parent, k, old(block.el), (old(node.el), children)), r, node.el)
  {
    var v := block.el;
    AttachBlockUnfold(c, parent, k, v, (node.el, children));
    var t := NewPropertiesQuery(c, parent, k, block);
    var fin := block.el;
    match t {
      case Err(x) =>
        r := Err(x);
      case Ok(q) =>
        node.el := SetEntry(node.el, k, BlockWriteBack(v, fin));
        r := Ok(children + [Child(k, q)]);
    }
  }

  /** `PropertiesQuery.__init__(parent, name, node)`: default the block, then make one
      property query per requested property. */
  method NewPropertiesQuery(cls: QueryClass, parent: Alias, name: Value, node: QueryNode)
    returns (r: Result<QueryTree>)
    requires IsPropertiesStub(cls)
    modifies node
    decreases Measure(cls, node.el), 2, 0, 0
    ensures BuildProps(cls, parent, name, old(node.el)).Ok? ==>
      r == Ok(BuildProps(cls, parent, name, old(node.el)).value.0) && node.el == BuildProps(cls, parent, name, old(node.el)).value.1
    ensures BuildProps(cls, parent, name, old(node.el)).Err? ==> r == Err(BuildProps(cls, parent, name, old(node.el)).error)
  {
    ghost var el := node.el;
    var ok := NormalizePropertiesNode(node);
    match ok {
      case Fail(x) =>
        BlockNormalizeFails(cls, parent, name, el);
        r := Err(x);
      case Pass =>
        ghost var e := node.el;
        BlockUnfold(cls, parent, name, el, e);
        var children := InstantiateProperties(cls, parent, name, el, e, node);
        match children {
          case Err(x) =>
            r := Err(x);
          case Ok(cs) =>
            r := Ok(PropertiesQuery(cls, parent, cs));
        }
    }
  }

  /** The loop of `PropertiesQuery.__init__` over the children of the defaulted block. */
  method InstantiateProperties(cls: QueryClass, parent: Alias, name: Value, ghost el: Value, ghost e: Value, node: QueryNode)
    returns (r: Result<seq<Child>>)
    requires PropsShallow(cls, el, e) && node.el == e
    modifies node
    decreases Measure(cls, el), 1, |EntriesOf(e)| + 1, 0
    ensures Yields(BuildPropChildren(cls, parent, name, el, e, 0, (e, [])), r, node.el)
  {
    var kids := node.Children();
    ChildrenCount(e);
    var children: seq<Child> := [];
    var raised: Option<Exception> := None;
    ghost var goal := BuildPropChildren(cls, parent, name, el, e, 0, (e, []));
    for i := 0 to |kids|
      invariant BuildPropChildren(cls, parent, name, el, e, i, (node.el, children)) == goal
    {
      var next := InstantiateProperty(cls, parent, name, el, e, i, kids, node, children);
      match next {
        case Err(x) =>
          raised := Some(x);
          break;
        case Ok(cs) =>
          children := cs;
      }
    }
    match raised {
      case Some(x) =>
        r := Err(x);
      case None =>
        PropChildrenDone(cls, parent, name, el, e, (node.el, children));
        r := Ok(children);
    }
  }

  /** One pass of the loop of `PropertiesQuery.__init__`, for the requested property
      `kid`, the `i`-th child of the block. */
  method InstantiateProperty(cls: QueryClass, parent: Alias, name: Value, ghost el: Value, ghost e: Value, i: nat, kids: seq<Node>, node: QueryNode, children: seq<Child>)
    returns (r: Result<seq<Child>>)
    requires PropsShallow(cls, el, e) && i < |EntriesOf(e)| && kids == ChildrenOf(e)
    modifies node
    decreases Measure(cls, el), 1, |EntriesOf(e)| - i, 0
    ensures r.Err? ==> BuildPropChildren(cls, parent, name, el, e, i, (old(node.el), children)) == Err(r.error)
    ensures r.Ok? ==> BuildPropChildren(cls, parent, name, el, e, i, (old(node.el), children)) == BuildPropChildren(cls, parent, name, el, e, i + 1, (node.el, r.value))
  {
    ChildAt(e, i);
    PropChildrenUnfold(cls, parent, name, el, e, i, (node.el, children));
    var kid := kids[i];
    var child := new QueryNode(kid.name, kid.el);
    Wrap(child);
    r := AttachObject(PropertyClass(cls), kid.name, parent + [name, kid.name], Some(parent), kid.el, child, node, children);
  }

  /** `if not child.as_list: child.el = [child.el]` */
  method Wrap(child: QueryNode)
    modifies child
    ensures child.el == Wrapped(old(child.el)) && child.name == old(child.name)
  {
    if !child.AsList() {
      child.el := List([child.el]);
    }
  }

  // ---------------------------------------------------------------------------
  // What the constructors make

  /** The names of `self.children`, in the order the children were made. */
  function ChildNames(cs: seq<Child>): (r: seq<Value>)
    ensures |r| == |cs| && forall j :: 0 <= j < |cs| ==> r[j] == cs[j].name
  {
    seq(|cs|, j requires 0 <= j < |cs| => cs[j].name)
  }

  /** The names of model entries `i` onwards that the node `e` has as keys, in model
      order: the names `ObjectQuery.__init__` makes children for. */
  function KeyedNames(cls: QueryClass, e: Value, i: nat): seq<Value>
    requires i <= |Model(cls)|
    decreases |Model(cls)| - i
  {
    if i == |Model(cls)| then []
    else
      StepNames(cls, e, i) + KeyedNames(cls, e, i + 1)
  }

  /** The keys of the entries of a properties block from `i` onwards. */
  function KeysFrom(d: seq<Entry>, i: nat): seq<Value>
    requires i <= |d|
    decreases |d| - i
  {
    if i == |d| then [] else [d[i].key] + KeysFrom(d, i + 1)
  }

  /** The child `ch` of an object query of class `cls` aliased `alias` over the
      expanded node `e` is what the model entry of its name calls for: a field query
      over the node's value for a field, or a query of the entry's class joined to
      this one. */
  ghost predicate Fits(cls: QueryClass, alias: Alias, e: Value, ch: Child)
  {
    HasKey(EntriesOf(e), ch.name) &&
    match Lookup(Model(cls), ch.name)
    case None => false
    case Some(kind) =>
      match kind
      case Field => ch.query == FieldQuery(ch.name, Get(EntriesOf(e), ch.name).value)
      case Object(c) =>
        ch.query.ObjectQuery? && ch.query.cls == c && ch.query.alias == alias + [ch.name] && ch.query.parent == Some(alias)
      case Properties(c) => ch.query.PropertiesQuery? && ch.query.cls == c && ch.query.owner == alias
  }

  /** The child `ch` of the properties query of the block named `name` under the query
      aliased `parent` is a property query aliased by the path to it. */
  ghost predicate FitsProperty(cls: QueryClass, parent: Alias, name: Value, ch: Child)
  {
    ch.query.ObjectQuery? && ch.query.cls == PropertyClass(cls)
    && ch.query.alias == parent + [name, ch.name] && ch.query.parent == Some(parent)
  }

  /** `cs` is `pre` followed by children named `names`. */
  predicate Extends(pre: seq<Child>, cs: seq<Child>, names: seq<Value>)
  {
    |pre| <= |cs| && cs[..|pre|] == pre && ChildNames(cs[|pre|..]) == names
  }

  lemma ExtendsTrans(a: seq<Child>, b: seq<Child>, c: seq<Child>, n1: seq<Value>, n2: seq<Value>)
    requires Extends(a, b, n1) && Extends(b, c, n2)
    ensures Extends(a, c, n1 + n2)
  {
    assert c[..|b|][..|a|] == c[..|a|];
    assert c[|a|..] == c[|a|..|b|] + c[|b|..];
    assert c[|a|..|b|] == b[|a|..];
    assert ChildNames(c[|a|..]) == ChildNames(c[|a|..|b|]) + ChildNames(c[|b|..]);
  }

  /** ... each of them fitting its model entry. */
  ghost predicate Appends(cls: QueryClass, alias: Alias, e: Value, pre: seq<Child>, cs: seq<Child>, names: seq<Value>)
  {
    Extends(pre, cs, names) && forall j :: |pre| <= j < |cs| ==> Fits(cls, alias, e, cs[j])
  }

  lemma AppendsTrans(cls: QueryClass, alias: Alias, e: Value, a: seq<Child>, b: seq<Child>, c: seq<Child>, n1: seq<Value>, n2: seq<Value>)
    requires Appends(cls, alias, e, a, b, n1) && Appends(cls, alias, e, b, c, n2)
    ensures Appends(cls, alias, e, a, c, n1 + n2)
  {
    ExtendsTrans(a, b, c, n1, n2);
    assert c[..|b|] == b;
  }

  /** `cs` followed by the one child `ch` that fits. */
  lemma AppendOne(cls: QueryClass, alias: Alias, e: Value, pre: seq<Child>, ch: Child)
    requires Fits(cls, alias, e, ch)
    ensures Appends(cls, alias, e, pre, pre + [ch], [ch.name])
  {
    assert (pre + [ch])[..|pre|] == pre;
    assert (pre + [ch])[|pre|..] == [ch];
  }

  lemma AppendProperty(cls: QueryClass, parent: Alias, name: Value, pre: seq<Child>, ch: Child)
    requires FitsProperty(cls, parent, name, ch)
    ensures PropAppends(cls, parent, name, pre, pre + [ch], [ch.name])
  {
    assert (pre + [ch])[..|pre|] == pre;
    assert (pre + [ch])[|pre|..] == [ch];
  }

  lemma AppendNone(cls: QueryClass, alias: Alias, e: Value, pre: seq<Child>)
    ensures Appends(cls, alias, e, pre, pre, [])
  {
    assert pre[|pre|..] == [];
  }

  /** The model entry `i` names a key of `e` with value `v`, and `Lookup` finds its kind. */
  lemma EntryNamed(cls: QueryClass, e: Value, i: nat, v: Value)
    requires i < |Model(cls)| && Get(EntriesOf(e), Str(Model(cls)[i].name)) == Some(v)
    ensures Lookup(Model(cls), Str(Model(cls)[i].name)) == Some(Model(cls)[i].kind)
    ensures HasKey(EntriesOf(e), Str(Model(cls)[i].name))
  {
    ModelWellFormed(cls);
    LookupAt(Model(cls), i);
  }

  /** A field entry the node names makes a fitting field query. */
  lemma StepFieldMakes(cls: QueryClass, alias: Alias, el: Value, e: Value, i: nat, acc: Progress, v: Value)
    requires NestedShallow(cls, el, e) && i < |Model(cls)| && Model(cls)[i].kind.Field?
    requires Get(EntriesOf(e), Str(Model(cls)[i].name)) == Some(v)
    ensures StepAppends(cls, alias, el, e, i, acc)
  {
    var k := Str(Model(cls)[i].name);
    StepField(cls, alias, el, e, i, acc, v);
    EntryNamed(cls, e, i, v);
    AppendOne(cls, alias, e, acc.1, Child(k, FieldQuery(k, v)));
  }

  /** A nested object entry the node names makes a fitting object query. */
  lemma StepObjectMakes(cls: QueryClass, alias: Alias, el: Value, e: Value, i: nat, acc: Progress, v: Value)
    requires NestedShallow(cls, el, e) && i < |Model(cls)| && Model(cls)[i].kind.Object?
    requires Get(EntriesOf(e), Str(Model(cls)[i].name)) == Some(v)
    ensures StepAppends(cls, alias, el, e, i, acc)
  {
    var k := Str(Model(cls)[i].name);
    var c := Model(cls)[i].kind.cls;
    StepObject(cls, alias, el, e, i, acc, v);
    AttachUnfold(c, k, alias + [k], Some(alias), v, v, acc);
    EntryNamed(cls, e, i, v);
    var t := BuildObject(c, k, alias + [k], Some(alias), v);
    if t.Ok? {
      AppendOne(cls, alias, e, acc.1, Child(k, t.value));
    }
  }

  /** A properties entry the node names makes a fitting properties query. */
  lemma StepPropertiesMakes(cls: QueryClass, alias: Alias, el: Value, e: Value, i: nat, acc: Progress, v: Value)
    requires NestedShallow(cls, el, e) && i < |Model(cls)| && Model(cls)[i].kind.Properties?
    requires Get(EntriesOf(e), Str(Model(cls)[i].name)) == Some(v)
    ensures StepAppends(cls, alias, el, e, i, acc)
  {
    var k := Str(Model(cls)[i].name);
    var c := Model(cls)[i].kind.cls;
    StepProperties(cls, alias, el, e, i, acc, v);
    AttachBlockUnfold(c, alias, k, v, acc);
    EntryNamed(cls, e, i, v);
    var p := BuildProps(c, alias, k, v);
    if p.Ok? {
      AppendOne(cls, alias, e, acc.1, Child(k, p.value.0));
    }
  }

  /** The names model entry `i` contributes: its own, when the node has it as a key. */
  function StepNames(cls: QueryClass, e: Value, i: nat): seq<Value>
    requires i < |Model(cls)|
  {
    if HasKey(EntriesOf(e), Str(Model(cls)[i].name)) then [Str(Model(cls)[i].name)] else []
  }

  /** When one pass of the model loop succeeds it has appended the children of
      `StepNames`. */
  ghost predicate StepAppends(cls: QueryClass, alias: Alias, el: Value, e: Value, i: nat, acc: Progress)
  {
    NestedShallow(cls, el, e) && i < |Model(cls)| &&
    match ModelStep(cls, alias, el, e, i, acc)
    case Ok(p) => Appends(cls, alias, e, acc.1, p.1, StepNames(cls, e, i))
    case Err(_) => true
  }

  /** When the model loop from entry `i` on succeeds it has appended the children of
      `KeyedNames`. */
  ghost predicate ModelAppends(cls: QueryClass, alias: Alias, el: Value, e: Value, i: nat, acc: Progress)
  {
    NestedShallow(cls, el, e) && i <= |Model(cls)| &&
    match BuildModel(cls, alias, el, e, i, acc)
    case Ok(p) => Appends(cls, alias, e, acc.1, p.1, KeyedNames(cls, e, i))
    case Err(_) => true
  }

  /** One pass of the model loop makes one fitting child when the node names the
      entry, and none otherwise. */
  lemma StepMakes(cls: QueryClass, alias: Alias, el: Value, e: Value, i: nat, acc: Progress)
    requires NestedShallow(cls, el, e) && i < |Model(cls)|
    ensures StepAppends(cls, alias, el, e, i, acc)
  {
    var found := Get(EntriesOf(e), Str(Model(cls)[i].name));
    match found {
      case None =>
        StepSkips(cls, alias, el, e, i, acc);
        AppendNone(cls, alias, e, acc.1);
      case Some(v) =>
        match Model(cls)[i].kind {
          case Field => StepFieldMakes(cls, alias, el, e, i, acc, v);
          case Object(_) => StepObjectMakes(cls, alias, el, e, i, acc, v);
          case Properties(_) => StepPropertiesMakes(cls, alias, el, e, i, acc, v);
        }
    }
  }

  /** The model loop from entry `i` on keeps the children it was given and appends one
      fitting child per remaining model name that the node has as a key, in model
      order. */
  lemma {:induction false} ModelMakes(cls: QueryClass, alias: Alias, el: Value, e: Value, i: nat, acc: Progress)
    requires NestedShallow(cls, el, e) && i <= |Model(cls)|
    ensures ModelAppends(cls, alias, el, e, i, acc)
    decreases |Model(cls)| - i, 1
  {
    if i == |Model(cls)| {
      ModelAppendsEnd(cls, alias, el, e, i, acc);
    } else {
      var s := ModelStep(cls, alias, el, e, i, acc);
      if s.Ok? {
        ModelAppendsCons(cls, alias, el, e, i, acc, s.value);
      } else {
        ModelAppendsErr(cls, alias, el, e, i, acc);
      }
    }
  }

  /** With no model entry left the loop adds no child. */
  lemma ModelAppendsEnd(cls: QueryClass, alias: Alias, el: Value, e: Value, i: nat, acc: Progress)
    requires NestedShallow(cls, el, e) && i == |Model(cls)|
    ensures ModelAppends(cls, alias, el, e, i, acc)
  {
    AppendNone(cls, alias, e, acc.1);
    assert BuildModel(cls, alias, el, e, i, acc) == Ok(acc);
  }

  /** A pass that raises ends the model loop with its error. */
  lemma ModelAppendsErr(cls: QueryClass, alias: Alias, el: Value, e: Value, i: nat, acc: Progress)
    requires NestedShallow(cls, el, e) && i < |Model(cls)| && ModelStep(cls, alias, el, e, i, acc).Err?
    ensures ModelAppends(cls, alias, el, e, i, acc)
  {
    ModelUnfold(cls, alias, el, e, i, acc);
  }

  /** The children of one pass followed by those of the rest of the model loop. */
  lemma {:induction false} ModelAppendsCons(cls: QueryClass, alias: Alias, el: Value, e: Value, i: nat, acc: Progress, next: Progress)
    requires NestedShallow(cls, el, e) && i < |Model(cls)| && ModelStep(cls, alias, el, e, i, acc) == Ok(next)
    ensures ModelAppends(cls, alias, el, e, i, acc)
    decreases |Model(cls)| - i, 0
  {
    ModelMakes(cls, alias, el, e, i + 1, next);
    StepMakes(cls, alias, el, e, i, acc);
    ModelUnfold(cls, alias, el, e, i, acc);
    var b := BuildModel(cls, alias, el, e, i + 1, next);
    assert BuildModel(cls, alias, el, e, i, acc) == b;
    if b.Ok? {
      NamesCons(cls, alias, e, i, acc.1, next.1, b.value.1);
    }
  }

  /** The children for model entry `i` followed by those for the entries after it. */
  lemma NamesCons(cls: QueryClass, alias: Alias, e: Value, i: nat, a: seq<Child>, b: seq<Child>, c: seq<Child>)
    requires i < |Model(cls)|
    requires Appends(cls, alias, e, a, b, StepNames(cls, e, i)) && Appends(cls, alias, e, b, c, KeyedNames(cls, e, i + 1))
    ensures Appends(cls, alias, e, a, c, KeyedNames(cls, e, i))
  {
    assert KeyedNames(cls, e, i) == StepNames(cls, e, i) + KeyedNames(cls, e, i + 1);
    AppendsTrans(cls, alias, e, a, b, c, StepNames(cls, e, i), KeyedNames(cls, e, i + 1));
  }

  /** The children `cs` are `pre` followed by children named `names`, each a property
      query of the block named `name` under the query aliased `parent`. */
  ghost predicate PropAppends(cls: QueryClass, parent: Alias, name: Value, pre: seq<Child>, cs: seq<Child>, names: seq<Value>)
  {
    Extends(pre, cs, names) && forall j :: |pre| <= j < |cs| ==> FitsProperty(cls, parent, name, cs[j])
  }

  lemma PropAppendsTrans(cls: QueryClass, parent: Alias, name: Value, a: seq<Child>, b: seq<Child>, c: seq<Child>, n1: seq<Value>, n2: seq<Value>)
    requires PropAppends(cls, parent, name, a, b, n1) && PropAppends(cls, parent, name, b, c, n2)
    ensures PropAppends(cls, parent, name, a, c, n1 + n2)
  {
    ExtendsTrans(a, b, c, n1, n2);
    assert c[..|b|] == b;
  }

  /** When one pass of the properties loop succeeds it has appended the property query
      of the `i`-th requested property. */
  ghost predicate PropStepAppends(cls: QueryClass, parent: Alias, name: Value, el: Value, e: Value, i: nat, acc: Progress)
  {
    PropsShallow(cls, el, e) && i < |EntriesOf(e)| &&
    match PropStep(cls, parent, name, el, e, i, acc)
    case Ok(p) => PropAppends(cls, parent, name, acc.1, p.1, [EntriesOf(e)[i].key])
    case Err(_) => true
  }

  /** When the properties loop from `i` on succeeds it has appended one property query
      per remaining requested property. */
  ghost predicate PropChildrenAppend(cls: QueryClass, parent: Alias, name: Value, el: Value, e: Value, i: nat, acc: Progress)
  {
    PropsShallow(cls, el, e) && i <= |EntriesOf(e)| &&
    match BuildPropChildren(cls, parent, name, el, e, i, acc)
    case Ok(p) => PropAppends(cls, parent, name, acc.1, p.1, KeysFrom(EntriesOf(e), i))
    case Err(_) => true
  }

  lemma PropStepMakes(cls: QueryClass, parent: Alias, name: Value, el: Value, e: Value, i: nat, acc: Progress)
    requires PropsShallow(cls, el, e) && i < |EntriesOf(e)|
    ensures PropStepAppends(cls, parent, name, el, e, i, acc)
  {
    var entry := EntriesOf(e)[i];
    var pc := PropertyClass(cls);
    var alias := parent + [name, entry.key];
    var t := BuildObject(pc, entry.key, alias, Some(parent), Wrapped(entry.val));
    AttachUnfold(pc, entry.key, alias, Some(parent), entry.val, Wrapped(entry.val), acc);
    assert PropStep(cls, parent, name, el, e, i, acc) == Join(entry.key, entry.val, acc, t);
    match t {
      case Ok(q) =>
        AppendProperty(cls, parent, name, acc.1, Child(entry.key, q));
      case Err(_) =>
    }
  }

  lemma {:induction false} PropMakes(cls: QueryClass, parent: Alias, name: Value, el: Value, e: Value, i: nat, acc: Progress)
    requires PropsShallow(cls, el, e) && i <= |EntriesOf(e)|
    ensures PropChildrenAppend(cls, parent, name, el, e, i, acc)
    decreases |EntriesOf(e)| - i, 1
  {
    if i == |EntriesOf(e)| {
      PropAppendsEnd(cls, parent, name, el, e, i, acc);
    } else {
      var s := PropStep(cls, parent, name, el, e, i, acc);
      if s.Ok? {
        PropAppendsCons(cls, parent, name, el, e, i, acc, s.value);
      } else {
        PropAppendsErr(cls, parent, name, el, e, i, acc);
      }
    }
  }

  /** With no key left the loop adds no child. */
  lemma PropAppendsEnd(cls: QueryClass, parent: Alias, name: Value, el: Value, e: Value, i: nat, acc: Progress)
    requires PropsShallow(cls, el, e) && i == |EntriesOf(e)|
    ensures PropChildrenAppend(cls, parent, name, el, e, i, acc)
  {
    assert acc.1[|acc.1|..] == [];
    assert BuildPropChildren(cls, parent, name, el, e, i, acc) == Ok(acc);
  }

  /** A pass that raises ends the loop with its error. */
  lemma PropAppendsErr(cls: QueryClass, parent: Alias, name: Value, el: Value, e: Value, i: nat, acc: Progress)
    requires PropsShallow(cls, el, e) && i < |EntriesOf(e)| && PropStep(cls, parent, name, el, e, i, acc).Err?
    ensures PropChildrenAppend(cls, parent, name, el, e, i, acc)
  {
    PropChildrenUnfold(cls, parent, name, el, e, i, acc);
  }

  /** The property query of one pass followed by those of the rest of the loop. */
  lemma {:induction false} PropAppendsCons(cls: QueryClass, parent: Alias, name: Value, el: Value, e: Value, i: nat, acc: Progress, next: Progress)
    requires PropsShallow(cls, el, e) && i < |EntriesOf(e)| && PropStep(cls, parent, name, el, e, i, acc) == Ok(next)
    ensures PropChildrenAppend(cls, parent, name, el, e, i, acc)
    decreases |EntriesOf(e)| - i, 0
  {
    PropMakes(cls, parent, name, el, e, i + 1, next);
    PropStepMakes(cls, parent, name, el, e, i, acc);
    PropChildrenUnfold(cls, parent, name, el, e, i, acc);
    var b := BuildPropChildren(cls, parent, name, el, e, i + 1, next);
    assert BuildPropChildren(cls, parent, name, el, e, i, acc) == b;
    if b.Ok? {
      KeysCons(EntriesOf(e), i, cls, parent, name, acc.1, next.1, b.value.1);
    }
  }

  /** The property query for key `i` followed by those for the keys after it. */
  lemma KeysCons(d: seq<Entry>, i: nat, cls: QueryClass, parent: Alias, name: Value, a: seq<Child>, b: seq<Child>, c: seq<Child>)
    requires i < |d|
    requires PropAppends(cls, parent, name, a, b, [d[i].key]) && PropAppends(cls, parent, name, b, c, KeysFrom(d, i + 1))
    ensures PropAppends(cls, parent, name, a, c, KeysFrom(d, i))
  {
    assert KeysFrom(d, i) == [d[i].key] + KeysFrom(d, i + 1);
    PropAppendsTrans(cls, parent, name, a, b, c, [d[i].key], KeysFrom(d, i + 1));
  }

  /** `PropertiesQuery.__init__` makes one property query per key of the normalised
      block, in order, each joined to the owning query and aliased by its path. */
  lemma PropertiesChildren(cls: QueryClass, parent: Alias, name: Value, el: Value)
    requires IsPropertiesStub(cls) && BuildProps(cls, parent, name, el).Ok?
    ensures NormalizeProperties(el).Ok?
    ensures var q := BuildProps(cls, parent, name, el).value.0;
      var e := NormalizeProperties(el).value;
      && ChildNames(q.children) == KeysFrom(EntriesOf(e), 0)
      && forall ch :: ch in q.children ==> FitsProperty(cls, parent, name, ch)
  {
    var e := NormalizeProperties(el).value;
    BlockUnfold(cls, parent, name, el, e);
    PropMakes(cls, parent, name, el, e, 0, (e, []));
    var cs := BuildProps(cls, parent, name, el).value.0.children;
    assert cs[0..] == cs;
  }

  /** `ObjectQuery.__init__` makes a child query exactly for the model names that the
      expanded node has as keys, in model order, each as its model entry calls for. */
  lemma ObjectChildren(cls: QueryClass, name: Value, alias: Alias, parent: Option<Alias>, el: Value)
    requires BuildObject(cls, name, alias, parent, el).Ok?
    ensures Expand(cls, name, el).Ok?
    ensures var q := BuildObject(cls, name, alias, parent, el).value;
      var e := Expand(cls, name, el).value;
      && ChildNames(q.children) == KeyedNames(cls, e, 0)
      && forall ch :: ch in q.children ==> Fits(cls, alias, e, ch)
  {
    var e := Expand(cls, name, el).value;
    ObjectUnfold(cls, name, alias, parent, el, e);
    ModelMakes(cls, alias, el, e, 0, (e, []));
    var cs := BuildObject(cls, name, alias, parent, el).value.children;
    assert cs[0..] == cs;
  }

  // ---------------------------------------------------------------------------
  // The node's entries after the children are made

  /** An entry of the expanded node `e` that making the children leaves as it is: one
      that names no model field, a field, an object whose node is neither a list nor a
      dict (only rebound inside the child node), or such a properties block or an
      empty dict one (rebound to a fresh `{'*': None}`). */
  predicate Kept(cls: QueryClass, e: Value, k: Value)
  {
    match Get(EntriesOf(e), k)
    case None => true
    case Some(v) =>
      match Lookup(Model(cls), k)
      case None => true
      case Some(Field) => true
      case Some(Object(_)) => !v.List? && !v.Dict?
      case Some(Properties(_)) => v == Dict([]) || (!v.List? && !v.Dict?)
  }

  /** One pass of the model loop leaves a kept entry as `e` has it. */
  lemma StepKeeps(cls: QueryClass, alias: Alias, el: Value, e: Value, i: nat, acc: Progress, k: Value)
    requires NestedShallow(cls, el, e) && i < |Model(cls)|
    requires Kept(cls, e, k) && Get(EntriesOf(acc.0), k) == Get(EntriesOf(e), k)
    ensures ModelStep(cls, alias, el, e, i, acc).Ok? ==>
      Get(EntriesOf(ModelStep(cls, alias, el, e, i, acc).value.0), k) == Get(EntriesOf(e), k)
  {
    var n := Str(Model(cls)[i].name);
    match Get(EntriesOf(e), n) {
      case None =>
        StepSkips(cls, alias, el, e, i, acc);
      case Some(v) =>
        EntryNamed(cls, e, i, v);
        match Model(cls)[i].kind {
          case Field =>
            StepField(cls, alias, el, e, i, acc, v);
          case Object(c) =>
            StepObject(cls, alias, el, e, i, acc, v);
            AttachKeeps(c, n, alias + [n], Some(alias), v, v, acc);
            var t := BuildObject(c, n, alias + [n], Some(alias), v);
            if t.Ok? {
              SetEntryGet(acc.0, n, WriteBack(v, t.value.el));
            }
          case Properties(c) =>
            StepProperties(cls, alias, el, e, i, acc, v);
            AttachBlockKeeps(c, alias, n, v, acc);
        }
    }
  }

  /** When the model loop from entry `i` on succeeds, the entry for `k` is as `e` has it. */
  ghost predicate KeepsFrom(cls: QueryClass, alias: Alias, el: Value, e: Value, i: nat, acc: Progress, k: Value)
  {
    NestedShallow(cls, el, e) && i <= |Model(cls)| &&
    match BuildModel(cls, alias, el, e, i, acc)
    case Ok(p) => Get(EntriesOf(p.0), k) == Get(EntriesOf(e), k)
    case Err(_) => true
  }

  /** The model loop from entry `i` on leaves a kept entry as `e` has it. */
  lemma {:induction false} ModelKeeps(cls: QueryClass, alias: Alias, el: Value, e: Value, i: nat, acc: Progress, k: Value)
    requires NestedShallow(cls, el, e) && i <= |Model(cls)|
    requires Kept(cls, e, k) && Get(EntriesOf(acc.0), k) == Get(EntriesOf(e), k)
    ensures KeepsFrom(cls, alias, el, e, i, acc, k)
    decreases |Model(cls)| - i, 1
  {
    if i == |Model(cls)| {
      KeepsEnd(cls, alias, el, e, i, acc, k);
    } else {
      var s := ModelStep(cls, alias, el, e, i, acc);
      if s.Ok? {
        KeepsCons(cls, alias, el, e, i, acc, s.value, k);
      } else {
        KeepsErr(cls, alias, el, e, i, acc, k);
      }
    }
  }

  /** With no model entry left the entry is as it was. */
  lemma KeepsEnd(cls: QueryClass, alias: Alias, el: Value, e: Value, i: nat, acc: Progress, k: Value)
    requires NestedShallow(cls, el, e) && i == |Model(cls)| && Get(EntriesOf(acc.0), k) == Get(EntriesOf(e), k)
    ensures KeepsFrom(cls, alias, el, e, i, acc, k)
  {
  }

  /** A pass that raises ends the loop with its error. */
  lemma KeepsErr(cls: QueryClass, alias: Alias, el: Value, e: Value, i: nat, acc: Progress, k: Value)
    requires NestedShallow(cls, el, e) && i < |Model(cls)| && ModelStep(cls, alias, el, e, i, acc).Err?
    ensures KeepsFrom(cls, alias, el, e, i, acc, k)
  {
    ModelUnfold(cls, alias, el, e, i, acc);
  }

  /** One pass that keeps the entry, followed by the rest of the loop. */
  lemma {:induction false} KeepsCons(cls: QueryClass, alias: Alias, el: Value, e: Value, i: nat, acc: Progress, next: Progress, k: Value)
    requires NestedShallow(cls, el, e) && i < |Model(cls)| && ModelStep(cls, alias, el, e, i, acc) == Ok(next)
    requires Kept(cls, e, k) && Get(EntriesOf(acc.0), k) == Get(EntriesOf(e), k)
    ensures KeepsFrom(cls, alias, el, e, i, acc, k)
    decreases |Model(cls)| - i, 0
  {
    StepKeeps(cls, alias, el, e, i, acc, k);
    ModelKeeps(cls, alias, el, e, i + 1, next, k);
    ModelUnfold(cls, alias, el, e, i, acc);
    var b := BuildModel(cls, alias, el, e, i + 1, next);
    assert BuildModel(cls, alias, el, e, i, acc) == b;
  }

  /** The element of a built object query keeps every kept entry of its expanded node:
      in particular an empty properties block stays `{}` and a `None` object stays
      `None`, while the shared lists and dicts carry what their child queries did. */
  lemma ObjectKeepsEntries(cls: QueryClass, name: Value, alias: Alias, parent: Option<Alias>, el: Value, k: Value)
    requires BuildObject(cls, name, alias, parent, el).Ok?
    ensures Expand(cls, name, el).Ok?
    ensures var e := Expand(cls, name, el).value;
      Kept(cls, e, k) ==> Get(EntriesOf(BuildObject(cls, name, alias, parent, el).value.el), k) == Get(EntriesOf(e), k)
  {
    var e := Expand(cls, name, el).value;
    ObjectUnfold(cls, name, alias, parent, el, e);
    if Kept(cls, e, k) {
      ModelKeeps(cls, alias, el, e, 0, (e, []), k);
    }
  }

  /** `{"properties": {}}` at the root: the entity's dict still holds the empty block
      once its properties query is made. */
  lemma EmptyBlockStays(el: Value)
    requires el == Dict([Entry(Str("properties"), Dict([]))])
    ensures BuildObject(Entity, Null, [], None, el).Ok? ==>
      Get(EntriesOf(BuildObject(Entity, Null, [], None, el).value.el), Str("properties")) == Some(Dict([]))
  {
    EmptyBlockExpands(el);
    if BuildObject(Entity, Null, [], None, el).Ok? {
      ObjectKeepsEntries(Entity, Null, [], None, el, Str("properties"));
    }
  }

  /** Expanding that root keeps the empty block, which is then a kept entry. */
  lemma EmptyBlockExpands(el: Value)
    requires el == Dict([Entry(Str("properties"), Dict([]))])
    ensures Expand(Entity, Null, el).Ok?
    ensures Get(EntriesOf(Expand(Entity, Null, el).value), Str("properties")) == Some(Dict([]))
    ensures Kept(Entity, Expand(Entity, Null, el).value, Str("properties"))
  {
    GraphNotPatched(Entity, Null, el);
    ExpandPatchedDict(Entity, Null, el, el);
    ExpandEntriesSpec(Entity, el.entries);
    ModelWellFormed(Entity);
    LookupAt(Model(Entity), 9);
    assert Model(Entity)[9] == Descriptor("properties", Properties(EntityProperties));
  }
}
