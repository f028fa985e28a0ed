/** The SQL that grano/ql/query.py builds for one level of a query: `filter` over the
    whole tree from the root, `add_columns` for the level, the parent-id column and
    the pagination of `ObjectQuery.query`. The SQLAlchemy query builder is abstracted
    as the sequence of calls made on it; joins are recorded as the relationship they
    follow. */
module Compile {
  import opened PyValue
  import opened Parser
  import opened Registry
  import opened Tree

  /** One call on the query builder. */
  datatype Op =
    | JoinParent(alias: Alias, parent: Alias, relation: string)  // q.join(self.alias, self.parent.alias.<relation>)
    | FilterEq(alias: Alias, column: Value, value: Value)         // q.filter(alias.column == value)
    | FilterIn(parent: Alias, ids: seq<Value>)                    // q.filter(parent.id.label('__parent_id').in_(ids))
    | AddColumn(alias: Alias, column: Value)                      // q.add_columns(alias.column)
    | AddParentId(parent: Alias)                                  // q.add_columns(parent.id.label('__parent_id'))
    | Offset(n: Value)                                            // q.offset(n)
    | Limit(n: Value)                                             // q.limit(n)
    | Distinct                                                    // q.distinct()

  /** A query under construction: the calls made on `db.session.query()` so far. */
  type Sql = seq<Op>

  /** `self.children[k]`, the child query named `k`, or none. */
  function FindChild(cs: seq<Child>, k: Value): (r: Option<Child>)
    ensures r.Some? ==> r.value in cs && r.value.name == k
    ensures r.None? <==> forall c :: c in cs ==> c.name != k
  {
    if cs == [] then None
    else if cs[0].name == k then Some(cs[0])
    else FindChild(cs[1..], k)
  }

  // ---------------------------------------------------------------------------
  // filter

  /** `join_parent`, which only the levels below the root call; a class without a
      parent relationship has no `join_parent` to call. */
  function JoinOf(cls: QueryClass, alias: Alias, parent: Option<Alias>, q: Sql): Result<Sql>
  {
    match parent
    case None => Ok(q)
    case Some(p) =>
      match JoinTag(cls)
      case Some(rel) => Ok(q + [JoinParent(alias, p, rel)])
      case None => Err(AttributeError)
  }

  /** The root level joins nothing; a lower level appends exactly one join, from its own
      alias to its parent's along its class's relationship, or raises AttributeError
      when its class has no `join_parent`. */
  lemma JoinOfSpec(cls: QueryClass, alias: Alias, parent: Option<Alias>, q: Sql)
    ensures parent.None? ==> JoinOf(cls, alias, parent, q) == Ok(q)
    ensures parent.Some? ==> (JoinOf(cls, alias, parent, q).Ok? <==> JoinTag(cls).Some?)
    ensures parent.Some? && JoinTag(cls).None? ==> JoinOf(cls, alias, parent, q) == Err(AttributeError)
    ensures JoinOf(cls, alias, parent, q).Ok? && parent.Some? ==>
      var r := JoinOf(cls, alias, parent, q).value;
      && |r| == |q| + 1 && r[..|q|] == q
      && r[|q|] == JoinParent(alias, parent.value, JoinTag(cls).value)
  {
  }

  /** `filter(q)` of the query `t`; a field query filters a column of the query
      aliased `owner`. */
  function FilterOf(t: QueryTree, owner: Alias, q: Sql): Result<Sql>
    decreases t, 1
  {
    match t
    case FieldQuery(name, el) =>
      Ok(if ShapeOf(el) != Null then q + [FilterEq(owner, name, ShapeOf(el))] else q)
    case ObjectQuery(cls, _, alias, parent, _, _) =>
      var joined :- JoinOf(cls, alias, parent, q);
      FilterNodes(t, 0, joined)
    case PropertiesQuery(_, _, _) =>
      FilterChildren(t, 0, q)
  }

  /** The loop of `ObjectQuery.filter` over the node's children from the `i`-th on. */
  function FilterNodes(t: QueryTree, i: nat, q: Sql): Result<Sql>
    requires t.ObjectQuery? && i <= |ChildrenOf(t.el)|
    decreases t, 0, |ChildrenOf(t.el)| - i
  {
    if i == |ChildrenOf(t.el)| then Ok(q)
    else
      var n := ChildrenOf(t.el)[i];
      if IsExtra(n.name) then FilterNodes(t, i + 1, q)
      else
        match FindChild(t.children, n.name)
        case None => Err(BadRequest(n.name))
        case Some(c) =>
          var next :- FilterOf(c.query, t.alias, q);
          FilterNodes(t, i + 1, next)
  }

  /** The loop of `PropertiesQuery.filter` over its property queries from the `i`-th on. */
  function FilterChildren(t: QueryTree, i: nat, q: Sql): Result<Sql>
    requires t.PropertiesQuery? && i <= |t.children|
    decreases t, 0, |t.children| - i
  {
    if i == |t.children| then Ok(q)
    else
      var next :- FilterOf(t.children[i].query, t.owner, q);
      FilterChildren(t, i + 1, next)
  }

  /** Every level the filter reaches joins its parent by a known relationship, and
      every node child that is not a directive has a child query. */
  predicate Known(t: QueryTree)
    decreases t, 1
  {
    match t
    case FieldQuery(_, _) => true
    case ObjectQuery(cls, _, _, parent, _, _) =>
      (parent.Some? ==> JoinTag(cls).Some?) && KnownFrom(t, 0)
    case PropertiesQuery(_, _, cs) =>
      forall c :: c in cs ==> Known(c.query)
  }

  /** The node children from the `i`-th on that are not directives have child
      queries, and those are known. */
  predicate KnownFrom(t: QueryTree, i: nat)
    requires t.ObjectQuery?
    decreases t, 0
  {
    forall m :: i <= m < |ChildrenOf(t.el)| && !IsExtra(ChildrenOf(t.el)[m].name) ==>
      FindChild(t.children, ChildrenOf(t.el)[m].name).Some? &&
      Known(FindChild(t.children, ChildrenOf(t.el)[m].name).value.query)
  }

  /** `r` is `q` with calls appended. */
  predicate Appended(q: Sql, r: Sql)
  {
    |q| <= |r| && r[..|q|] == q
  }

  /** What `filter` appends: joins, and equality filters on values that are not None. */
  predicate OnlyFilters(s: Sql)
  {
    forall op :: op in s ==> op.JoinParent? || (op.FilterEq? && op.value != Null)
  }

  lemma AppendedTrans(a: Sql, b: Sql, c: Sql)
    requires Appended(a, b) && Appended(b, c)
    ensures Appended(a, c) && c[|a|..] == b[|a|..] + c[|b|..]
  {
    assert c[..|b|][..|a|] == c[..|a|];
  }

  /** A filter that appends only filters, then another, appends only filters. */
  lemma FiltersTrans(a: Sql, b: Sql, c: Sql)
    requires Appended(a, b) && Appended(b, c) && OnlyFilters(b[|a|..]) && OnlyFilters(c[|b|..])
    ensures Appended(a, c) && OnlyFilters(c[|a|..])
  {
    AppendedTrans(a, b, c);
  }

  /** `filter` raises exactly when some level it reaches is not known; otherwise it
      appends joins and equality filters on non-None values to the query it was given,
      and nothing else. A raised error is `BadRequest` for a name that is not a
      directive, or the missing `join_parent`. */
  lemma {:induction false} FilterSpec(t: QueryTree, owner: Alias, q: Sql)
    ensures FilterOf(t, owner, q).Ok? <==> Known(t)
    ensures FilterOf(t, owner, q).Ok? ==> Appended(q, FilterOf(t, owner, q).value) && OnlyFilters(FilterOf(t, owner, q).value[|q|..])
    ensures FilterOf(t, owner, q).Err? ==> Raised(FilterOf(t, owner, q).error)
    decreases t, 1
  {
    match t
    case FieldQuery(name, el) =>
      assert q[|q|..] == [];
    case ObjectQuery(cls, _, alias, parent, _, _) =>
      var j := JoinOf(cls, alias, parent, q);
      if j.Ok? {
        FilterNodesSpec(t, 0, j.value);
        if FilterNodes(t, 0, j.value).Ok? {
          FiltersTrans(q, j.value, FilterNodes(t, 0, j.value).value);
        }
      }
    case PropertiesQuery(_, _, cs) =>
      FilterChildrenSpec(t, 0, q);
      if !Known(t) {
        var c :| c in cs && !Known(c.query);
        var i :| 0 <= i < |cs| && cs[i] == c;
        FilterChildrenFails(t, 0, q, i);
      }
  }

  /** The errors `filter` raises. */
  predicate Raised(x: Exception)
  {
    (x.BadRequest? && !IsExtra(x.field)) || x == AttributeError
  }

  lemma {:induction false} FilterNodesSpec(t: QueryTree, i: nat, q: Sql)
    requires t.ObjectQuery? && i <= |ChildrenOf(t.el)|
    ensures FilterNodes(t, i, q).Ok? <==> KnownFrom(t, i)
    ensures FilterNodes(t, i, q).Ok? ==> Appended(q, FilterNodes(t, i, q).value) && OnlyFilters(FilterNodes(t, i, q).value[|q|..])
    ensures FilterNodes(t, i, q).Err? ==> Raised(FilterNodes(t, i, q).error)
    decreases t, 0, |ChildrenOf(t.el)| - i
  {
    if i == |ChildrenOf(t.el)| {
      assert q[|q|..] == [];
    } else {
      var n := ChildrenOf(t.el)[i];
      if IsExtra(n.name) {
        FilterNodesSpec(t, i + 1, q);
        KnownFromStep(t, i);
      } else {
        match FindChild(t.children, n.name)
        case None =>
        case Some(c) =>
          FilterSpec(c.query, t.alias, q);
          var f := FilterOf(c.query, t.alias, q);
          if f.Ok? {
            FilterNodesSpec(t, i + 1, f.value);
            KnownFromStep(t, i);
            if FilterNodes(t, i + 1, f.value).Ok? {
              FiltersTrans(q, f.value, FilterNodes(t, i + 1, f.value).value);
            }
          }
      }
    }
  }

  /** Known from `i` on is known at `i` and from `i + 1` on. */
  lemma KnownFromStep(t: QueryTree, i: nat)
    requires t.ObjectQuery? && i < |ChildrenOf(t.el)|
    ensures KnownFrom(t, i) <==>
      && KnownFrom(t, i + 1)
      && (!IsExtra(ChildrenOf(t.el)[i].name) ==>
            FindChild(t.children, ChildrenOf(t.el)[i].name).Some? &&
            Known(FindChild(t.children, ChildrenOf(t.el)[i].name).value.query))
  {
  }

  lemma {:induction false} FilterChildrenSpec(t: QueryTree, i: nat, q: Sql)
    requires t.PropertiesQuery? && i <= |t.children|
    ensures FilterChildren(t, i, q).Ok? ==> forall j :: i <= j < |t.children| ==> Known(t.children[j].query)
    ensures FilterChildren(t, i, q).Ok? ==> Appended(q, FilterChildren(t, i, q).value) && OnlyFilters(FilterChildren(t, i, q).value[|q|..])
    ensures FilterChildren(t, i, q).Err? ==> Raised(FilterChildren(t, i, q).error)
    ensures (forall j :: i <= j < |t.children| ==> Known(t.children[j].query)) ==> FilterChildren(t, i, q).Ok?
    decreases t, 0, |t.children| - i
  {
    if i == |t.children| {
      assert q[|q|..] == [];
    } else {
      FilterSpec(t.children[i].query, t.owner, q);
      var f := FilterOf(t.children[i].query, t.owner, q);
      if f.Ok? {
        FilterChildrenSpec(t, i + 1, f.value);
        if FilterChildren(t, i + 1, f.value).Ok? {
          FiltersTrans(q, f.value, FilterChildren(t, i + 1, f.value).value);
        }
      }
    }
  }

  /** A property query that is not known makes the loop raise. */
  lemma {:induction false} FilterChildrenFails(t: QueryTree, i: nat, q: Sql, m: nat)
    requires t.PropertiesQuery? && i <= m < |t.children| && !Known(t.children[m].query)
    ensures FilterChildren(t, i, q).Err?
    decreases t, 0, |t.children| - i
  {
    FilterSpec(t.children[i].query, t.owner, q);
    var f := FilterOf(t.children[i].query, t.owner, q);
    if f.Ok? {
      FilterChildrenFails(t, i + 1, f.value, m);
    }
  }

  /** A field child whose node value is not None is filtered for that value, on the
      column of the level that owns it. */
  lemma FieldFiltered(t: QueryTree, owner: Alias, q: Sql, m: nat, k: Value, v: Value)
    requires t.ObjectQuery? && m < |ChildrenOf(t.el)| && !IsExtra(ChildrenOf(t.el)[m].name)
    requires FindChild(t.children, ChildrenOf(t.el)[m].name) == Some(Child(k, FieldQuery(k, v))) && ShapeOf(v) != Null
    requires FilterOf(t, owner, q).Ok?
    ensures FilterEq(t.alias, k, ShapeOf(v)) in FilterOf(t, owner, q).value
  {
    var j := JoinOf(t.cls, t.alias, t.parent, q);
    FilterNodesRecords(t, 0, j.value, m, k, v);
  }

  lemma {:induction false} FilterNodesRecords(t: QueryTree, i: nat, q: Sql, m: nat, k: Value, v: Value)
    requires t.ObjectQuery? && i <= m < |ChildrenOf(t.el)| && !IsExtra(ChildrenOf(t.el)[m].name)
    requires FindChild(t.children, ChildrenOf(t.el)[m].name) == Some(Child(k, FieldQuery(k, v))) && ShapeOf(v) != Null
    requires FilterNodes(t, i, q).Ok?
    ensures FilterEq(t.alias, k, ShapeOf(v)) in FilterNodes(t, i, q).value
    decreases m - i
  {
    var n := ChildrenOf(t.el)[i];
    if i == m {
      var next := q + [FilterEq(t.alias, k, ShapeOf(v))];
      assert FilterNodes(t, i, q) == FilterNodes(t, i + 1, next);
      FilterNodesSpec(t, i + 1, next);
      assert FilterNodes(t, i, q).value[..|next|][|q|] == FilterEq(t.alias, k, ShapeOf(v));
    } else if IsExtra(n.name) {
      FilterNodesRecords(t, i + 1, q, m, k, v);
    } else {
      var c := FindChild(t.children, n.name).value;
      var next := FilterOf(c.query, t.alias, q).value;
      FilterNodesRecords(t, i + 1, next, m, k, v);
    }
  }

  /** `FieldQuery.filter` and `ObjectQuery.filter` and `PropertiesQuery.filter`,
      threading `q` through the loops over the node's children and the property
      queries. */
  method Filter(t: QueryTree, owner: Alias, q: Sql) returns (r: Result<Sql>)
    ensures r == FilterOf(t, owner, q)
    decreases t, 2
  {
    match t {
      case FieldQuery(name, el) =>
        r := Ok(q);
        if ShapeOf(el) != Null {
          r := Ok(q + [FilterEq(owner, name, ShapeOf(el))]);
        }
      case ObjectQuery(cls, _, alias, parent, _, _) =>
        var joined := JoinOf(cls, alias, parent, q);
        if joined.Err? {
          return Err(joined.error);
        }
        r := FilterLevel(t, joined.value);
      case PropertiesQuery(_, _, cs) =>
        var cur := q;
        for i := 0 to |cs|
          invariant FilterChildren(t, i, cur) == FilterChildren(t, 0, q)
        {
          var next := Filter(cs[i].query, t.owner, cur);
          if next.Err? {
            return Err(next.error);
          }
          cur := next.value;
        }
        r := Ok(cur);
    }
  }

  /** The loop of `ObjectQuery.filter`: skip directives, refuse a name without a child
      query, and let each child query filter. */
  method FilterLevel(t: QueryTree, q: Sql) returns (r: Result<Sql>)
    requires t.ObjectQuery?
    ensures r == FilterNodes(t, 0, q)
    decreases t, 1
  {
    var nodes := ChildrenOf(t.el);
    var cur := q;
    for i := 0 to |nodes|
      invariant FilterNodes(t, i, cur) == FilterNodes(t, 0, q)
    {
      var n := nodes[i];
      if !IsExtra(n.name) {
        var c := FindChild(t.children, n.name);
        if c.None? {
          return Err(BadRequest(n.name));
        }
        var next := Filter(c.value.query, t.alias, cur);
        if next.Err? {
          return Err(next.error);
        }
        cur := next.value;
      }
    }
    r := Ok(cur);
  }

  // ---------------------------------------------------------------------------
  // add_columns

  /** `add_columns(q)`: for the field children, in the order of `self.children`, add
      the column once per node child of that name whose value is None. */
  function ColumnsOf(t: QueryTree, i: nat, q: Sql): Sql
    requires t.ObjectQuery? && i <= |t.children|
    decreases |t.children| - i
  {
    if i == |t.children| then q
    else
      var c := t.children[i];
      ColumnsOf(t, i + 1, if c.query.FieldQuery? then NodeColumns(t.alias, c.name, ChildrenOf(t.el), 0, q) else q)
  }

  /** The inner loop of `add_columns` for the field child named `name`. */
  function NodeColumns(alias: Alias, name: Value, nodes: seq<Node>, j: nat, q: Sql): Sql
    requires j <= |nodes|
    decreases |nodes| - j
  {
    if j == |nodes| then q
    else
      NodeColumns(alias, name, nodes, j + 1,
        if ShapeOf(nodes[j].el) == Null && nodes[j].name == name then q + [AddColumn(alias, name)] else q)
  }

  /** The column `k` of the level `t` is retrieved: `k` names a field child from the
      `i`-th on and a node child whose value is None. */
  predicate Projected(t: QueryTree, i: nat, k: Value)
    requires t.ObjectQuery?
  {
    && (exists m :: i <= m < |t.children| && t.children[m].query.FieldQuery? && t.children[m].name == k)
    && (exists n :: n in ChildrenOf(t.el) && n.name == k && ShapeOf(n.el) == Null)
  }

  lemma {:induction false} NodeColumnsSpec(alias: Alias, name: Value, nodes: seq<Node>, j: nat, q: Sql)
    requires j <= |nodes|
    ensures var r := NodeColumns(alias, name, nodes, j, q);
      && Appended(q, r)
      && (forall op :: op in r[|q|..] ==> op == AddColumn(alias, name))
      && (|r| > |q| <==> exists m :: j <= m < |nodes| && nodes[m].name == name && ShapeOf(nodes[m].el) == Null)
    decreases |nodes| - j
  {
    if j < |nodes| {
      var next := if ShapeOf(nodes[j].el) == Null && nodes[j].name == name then q + [AddColumn(alias, name)] else q;
      NodeColumnsSpec(alias, name, nodes, j + 1, next);
      var r := NodeColumns(alias, name, nodes, j, q);
      AppendedTrans(q, next, r);
    } else {
      assert q[|q|..] == [];
    }
  }

  /** `add_columns` appends only columns of the level, and retrieves exactly the
      columns of the field children whose node value is None. */
  lemma {:induction false} ColumnsSpec(t: QueryTree, i: nat, q: Sql)
    requires t.ObjectQuery? && i <= |t.children|
    ensures var r := ColumnsOf(t, i, q);
      && Appended(q, r)
      && (forall op :: op in r[|q|..] ==> op.AddColumn? && op.alias == t.alias)
      && (forall k :: AddColumn(t.alias, k) in r[|q|..] <==> Projected(t, i, k))
    decreases |t.children| - i
  {
    var r := ColumnsOf(t, i, q);
    if i == |t.children| {
      assert q[|q|..] == [];
    } else {
      var c := t.children[i];
      var next := if c.query.FieldQuery? then NodeColumns(t.alias, c.name, ChildrenOf(t.el), 0, q) else q;
      NodeColumnsSpec(t.alias, c.name, ChildrenOf(t.el), 0, q);
      ColumnsSpec(t, i + 1, next);
      AppendedTrans(q, next, r);
      forall k ensures AddColumn(t.alias, k) in r[|q|..] <==> Projected(t, i, k) {
        if c.query.FieldQuery? && c.name == k && |next| > |q| {
          assert next[|q|] in r[|q|..];
          var n :| n in ChildrenOf(t.el) && n.name == k && ShapeOf(n.el) == Null;
        }
        if Projected(t, i, k) && !Projected(t, i + 1, k) {
          var n :| n in ChildrenOf(t.el) && n.name == k && ShapeOf(n.el) == Null;
          var m :| 0 <= m < |ChildrenOf(t.el)| && ChildrenOf(t.el)[m] == n;
          assert next[|q|] in r[|q|..];
        }
        if Projected(t, i + 1, k) {
          var m :| i + 1 <= m < |t.children| && t.children[m].query.FieldQuery? && t.children[m].name == k;
        }
      }
    }
  }

  /** `ObjectQuery.add_columns`, with its two nested loops. */
  method AddColumns(t: QueryTree, q: Sql) returns (r: Sql)
    requires t.ObjectQuery?
    ensures r == ColumnsOf(t, 0, q)
  {
    var nodes := ChildrenOf(t.el);
    var cur := q;
    for i := 0 to |t.children|
      invariant ColumnsOf(t, i, cur) == ColumnsOf(t, 0, q)
    {
      var c := t.children[i];
      if c.query.FieldQuery? {
        ghost var before := cur;
        for j := 0 to |nodes|
          invariant NodeColumns(t.alias, c.name, nodes, j, cur) == NodeColumns(t.alias, c.name, nodes, 0, before)
        {
          if ShapeOf(nodes[j].el) == Null && nodes[j].name == c.name {
            cur := cur + [AddColumn(t.alias, c.name)];
          }
        }
      }
    }
    r := cur;
  }

  // ---------------------------------------------------------------------------
  // query

  /** `get_child_node_value(name, default)`: the value of the first node child named
      `k`, or the default. */
  function ChildValue(el: Value, k: Value, default: Value): Value
  {
    match Get(EntriesOf(el), k)
    case Some(v) => ShapeOf(v)
    case None => default
  }

  /** `get_child_node_value`, looping over the node's children. */
  method ChildNodeValue(el: Value, k: Value, default: Value) returns (r: Value)
    ensures r == ChildValue(el, k, default)
  {
    var nodes := ChildrenOf(el);
    ChildrenCount(el);
    for i := 0 to |nodes|
      invariant Get(EntriesOf(el), k) == Get(EntriesOf(el)[i..], k)
    {
      ChildAt(el, i);
      if nodes[i].name == k {
        return ShapeOf(nodes[i].el);
      }
      GetSkip(EntriesOf(el), i, k);
    }
    assert EntriesOf(el)[|nodes|..] == [];
    r := default;
  }

  /** `ObjectQuery.query(parent_ids)` for the level `t` of the tree whose root is `root`. */
  function QueryOf(root: QueryTree, t: QueryTree, parentIds: Option<seq<Value>>): Result<Sql>
    requires root.ObjectQuery? && t.ObjectQuery?
  {
    var filtered :- FilterOf(root, [], []);
    Ok(Paginate(t, parentIds, ColumnsOf(t, 0, filtered)))
  }

  /** The rest of `query` once the columns are added: the parent-id column with its
      filter, the pagination and `distinct`. */
  function Paginate(t: QueryTree, parentIds: Option<seq<Value>>, q: Sql): Sql
    requires t.ObjectQuery?
  {
    q + ParentPart(t.parent, parentIds) + [Offset(ChildValue(t.el, OffsetKey, Int(0)))] + LimitPart(t) + [Distinct]
  }

  /** `col.in_(parent_ids)` when there are parent ids, then `add_columns(col)`, for a
      level below the root. */
  function ParentPart(parent: Option<Alias>, parentIds: Option<seq<Value>>): Sql
  {
    match parent
    case None => []
    case Some(p) => (if parentIds.Some? then [FilterIn(p, parentIds.value)] else []) + [AddParentId(p)]
  }

  /** `limit(1)` for a singular level; for the root, the value of its `limit` child, or
      25 when it has none; nothing for a list level below the root. */
  function LimitPart(t: QueryTree): Sql
    requires t.ObjectQuery?
  {
    if !IsListShaped(t.el) then [Limit(Int(1))]
    else if t.parent.None? then [Limit(ChildValue(t.el, LimitKey, Int(25)))]
    else []
  }

  /** `ObjectQuery.query`, building the query call by call. */
  method Query(root: QueryTree, t: QueryTree, parentIds: Option<seq<Value>>) returns (r: Result<Sql>)
    requires root.ObjectQuery? && t.ObjectQuery?
    ensures r == QueryOf(root, t, parentIds)
  {
    var q: Sql := [];
    var filtered := Filter(root, [], q);
    if filtered.Err? {
      return Err(filtered.error);
    }
    q := AddColumns(t, filtered.value);
    ghost var columns := q;
    if t.parent.Some? {
      if parentIds.Some? {
        q := q + [FilterIn(t.parent.value, parentIds.value)];
      }
      q := q + [AddParentId(t.parent.value)];
    }
    var offset := ChildNodeValue(t.el, OffsetKey, Int(0));
    q := q + [Offset(offset)];
    if !IsListShaped(t.el) {
      q := q + [Limit(Int(1))];
    } else if t.parent.None? {
      var limit := ChildNodeValue(t.el, LimitKey, Int(25));
      q := q + [Limit(limit)];
    }
    r := Ok(q + [Distinct]);
    assert r.value == Paginate(t, parentIds, columns);
  }

  /** The values of the `offset` calls, in order. */
  function Offsets(q: Sql): seq<Value>
  {
    if q == [] then [] else (if q[0].Offset? then [q[0].n] else []) + Offsets(q[1..])
  }

  /** The values of the `limit` calls, in order. */
  function Limits(q: Sql): seq<Value>
  {
    if q == [] then [] else (if q[0].Limit? then [q[0].n] else []) + Limits(q[1..])
  }

  /** The parent ids the query is restricted to, in order. */
  function ParentFilters(q: Sql): seq<seq<Value>>
  {
    if q == [] then [] else (if q[0].FilterIn? then [q[0].ids] else []) + ParentFilters(q[1..])
  }

  /** Picking calls out of a query distributes over joining queries. */
  lemma PickConcat(a: Sql, b: Sql)
    ensures Offsets(a + b) == Offsets(a) + Offsets(b)
    ensures Limits(a + b) == Limits(a) + Limits(b)
    ensures ParentFilters(a + b) == ParentFilters(a) + ParentFilters(b)
  {
    OffsetsConcat(a, b);
    LimitsConcat(a, b);
    FiltersConcat(a, b);
  }

  lemma {:induction false} OffsetsConcat(a: Sql, b: Sql)
    ensures Offsets(a + b) == Offsets(a) + Offsets(b)
  {
    if a == [] {
      assert a + b == b;
    } else {
      assert (a + b)[0] == a[0] && (a + b)[1..] == a[1..] + b;
      OffsetsConcat(a[1..], b);
    }
  }

  lemma {:induction false} LimitsConcat(a: Sql, b: Sql)
    ensures Limits(a + b) == Limits(a) + Limits(b)
  {
    if a == [] {
      assert a + b == b;
    } else {
      assert (a + b)[0] == a[0] && (a + b)[1..] == a[1..] + b;
      LimitsConcat(a[1..], b);
    }
  }

  lemma {:induction false} FiltersConcat(a: Sql, b: Sql)
    ensures ParentFilters(a + b) == ParentFilters(a) + ParentFilters(b)
  {
    if a == [] {
      assert a + b == b;
    } else {
      assert (a + b)[0] == a[0] && (a + b)[1..] == a[1..] + b;
      FiltersConcat(a[1..], b);
    }
  }

  /** Calls that are neither offsets, limits nor parent-id filters. */
  lemma {:induction false} PickNone(s: Sql)
    requires forall op :: op in s ==> !op.Offset? && !op.Limit? && !op.FilterIn?
    ensures Offsets(s) == [] && Limits(s) == [] && ParentFilters(s) == []
  {
    if s != [] {
      assert forall op :: op in s[1..] ==> op in s;
      PickNone(s[1..]);
    }
  }

  /** `query` raises exactly when the root's `filter` does. */
  lemma QueryFails(root: QueryTree, t: QueryTree, parentIds: Option<seq<Value>>)
    requires root.ObjectQuery? && t.ObjectQuery?
    ensures QueryOf(root, t, parentIds).Ok? <==> Known(root)
  {
    FilterSpec(root, [], []);
  }

  /** The query records one offset, the level's `offset` directive or 0; a singular
      level gets limit 1, a list-shaped root the `limit` directive or 25, and any other
      level no limit; a level below the root is restricted to the parent ids it was
      given, if any; and the query ends `distinct`. */
  lemma Pagination(root: QueryTree, t: QueryTree, parentIds: Option<seq<Value>>)
    requires root.ObjectQuery? && t.ObjectQuery? && QueryOf(root, t, parentIds).Ok?
    ensures var r := QueryOf(root, t, parentIds).value;
      && Offsets(r) == [ChildValue(t.el, OffsetKey, Int(0))]
      && Limits(r) == (if !IsListShaped(t.el) then [Int(1)]
                       else if t.parent.None? then [ChildValue(t.el, LimitKey, Int(25))]
                       else [])
      && ParentFilters(r) == (if t.parent.Some? && parentIds.Some? then [parentIds.value] else [])
      && r[|r| - 1] == Distinct
  {
    var filtered := FilterOf(root, [], []).value;
    ColumnsPickNone(root, t);
    PaginateSpec(t, parentIds, ColumnsOf(t, 0, filtered));
    LimitPartPicks(t);
  }

  /** The filters and columns hold no offset, limit or parent-id filter. */
  lemma ColumnsPickNone(root: QueryTree, t: QueryTree)
    requires t.ObjectQuery? && FilterOf(root, [], []).Ok?
    ensures var q := ColumnsOf(t, 0, FilterOf(root, [], []).value);
      Offsets(q) == [] && Limits(q) == [] && ParentFilters(q) == []
  {
    FilterSpec(root, [], []);
    var filtered := FilterOf(root, [], []).value;
    ColumnsSpec(t, 0, filtered);
    var q := ColumnsOf(t, 0, filtered);
    AppendedTrans([], filtered, q);
    assert q == q[0..];
    PickNone(q);
  }

  lemma PaginateSpec(t: QueryTree, parentIds: Option<seq<Value>>, q: Sql)
    requires t.ObjectQuery? && Offsets(q) == [] && Limits(q) == [] && ParentFilters(q) == []
    ensures var r := Paginate(t, parentIds, q);
      && Offsets(r) == [ChildValue(t.el, OffsetKey, Int(0))]
      && Limits(r) == Limits(LimitPart(t))
      && ParentFilters(r) == (if t.parent.Some? && parentIds.Some? then [parentIds.value] else [])
      && r[|r| - 1] == Distinct
  {
    PaginateParts(t, parentIds, q);
    PaginateOffsets(t, parentIds, q);
    PaginateLimits(t, parentIds, q);
    PaginateParents(t, parentIds, q);
  }

  /** `Paginate` as the concatenation of its parts. */
  lemma PaginateParts(t: QueryTree, parentIds: Option<seq<Value>>, q: Sql)
    requires t.ObjectQuery?
    ensures var o := [Offset(ChildValue(t.el, OffsetKey, Int(0)))];
      Paginate(t, parentIds, q) == ((q + ParentPart(t.parent, parentIds)) + o + LimitPart(t)) + [Distinct]
  {
  }

  lemma PaginateOffsets(t: QueryTree, parentIds: Option<seq<Value>>, q: Sql)
    requires t.ObjectQuery? && Offsets(q) == []
    ensures Offsets(Paginate(t, parentIds, q)) == [ChildValue(t.el, OffsetKey, Int(0))]
  {
    var o := [Offset(ChildValue(t.el, OffsetKey, Int(0)))];
    var q1 := q + ParentPart(t.parent, parentIds);
    PaginateParts(t, parentIds, q);
    ParentPartPicks(t.parent, parentIds);
    LimitPartPicks(t);
    PickOne(o[0]);
    PickOne(Distinct);
    PickConcat(q, ParentPart(t.parent, parentIds));
    PickConcat(q1, o);
    PickConcat(q1 + o, LimitPart(t));
    PickConcat(q1 + o + LimitPart(t), [Distinct]);
  }

  lemma PaginateLimits(t: QueryTree, parentIds: Option<seq<Value>>, q: Sql)
    requires t.ObjectQuery? && Limits(q) == []
    ensures Limits(Paginate(t, parentIds, q)) == Limits(LimitPart(t))
  {
    var o := [Offset(ChildValue(t.el, OffsetKey, Int(0)))];
    var q1 := q + ParentPart(t.parent, parentIds);
    PaginateParts(t, parentIds, q);
    ParentPartPicks(t.parent, parentIds);
    PickOne(o[0]);
    PickOne(Distinct);
    PickConcat(q, ParentPart(t.parent, parentIds));
    PickConcat(q1, o);
    PickConcat(q1 + o, LimitPart(t));
    PickConcat(q1 + o + LimitPart(t), [Distinct]);
  }

  lemma PaginateParents(t: QueryTree, parentIds: Option<seq<Value>>, q: Sql)
    requires t.ObjectQuery? && ParentFilters(q) == []
    ensures ParentFilters(Paginate(t, parentIds, q)) == (if t.parent.Some? && parentIds.Some? then [parentIds.value] else [])
  {
    var o := [Offset(ChildValue(t.el, OffsetKey, Int(0)))];
    var q1 := q + ParentPart(t.parent, parentIds);
    PaginateParts(t, parentIds, q);
    ParentPartPicks(t.parent, parentIds);
    LimitPartPicks(t);
    PickOne(o[0]);
    PickOne(Distinct);
    PickConcat(q, ParentPart(t.parent, parentIds));
    PickConcat(q1, o);
    PickConcat(q1 + o, LimitPart(t));
    PickConcat(q1 + o + LimitPart(t), [Distinct]);
  }

  /** What a single call contributes. */
  lemma PickOne(op: Op)
    ensures Offsets([op]) == (if op.Offset? then [op.n] else [])
    ensures Limits([op]) == (if op.Limit? then [op.n] else [])
    ensures ParentFilters([op]) == (if op.FilterIn? then [op.ids] else [])
  {
    assert [op][1..] == [];
  }

  lemma ParentPartPicks(parent: Option<Alias>, parentIds: Option<seq<Value>>)
    ensures Offsets(ParentPart(parent, parentIds)) == [] && Limits(ParentPart(parent, parentIds)) == []
    ensures ParentFilters(ParentPart(parent, parentIds)) == (if parent.Some? && parentIds.Some? then [parentIds.value] else [])
  {
    if parent.Some? {
      var a: Sql := if parentIds.Some? then [FilterIn(parent.value, parentIds.value)] else [];
      PickOne(AddParentId(parent.value));
      if parentIds.Some? { PickOne(a[0]); }
      PickConcat(a, [AddParentId(parent.value)]);
    }
  }

  lemma LimitPartPicks(t: QueryTree)
    requires t.ObjectQuery?
    ensures Offsets(LimitPart(t)) == [] && ParentFilters(LimitPart(t)) == []
    ensures Limits(LimitPart(t)) ==
      if !IsListShaped(t.el) then [Int(1)]
      else if t.parent.None? then [ChildValue(t.el, LimitKey, Int(25))]
      else []
  {
    if LimitPart(t) != [] { PickOne(LimitPart(t)[0]); }
  }
}
