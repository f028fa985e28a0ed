/** `ObjectQuery.run` and `PropertiesQuery.run` of grano/ql/query.py: a level runs its
    query, makes a result object of every row (or a placeholder when there is none),
    runs its object children for the ids it found and stitches what they yield into
    its objects, then yields its objects grouped by parent id. The database is a
    parameter: the rows it returns for a query. Every generator is consumed in full. */
module Execute {
  import opened PyValue
  import opened Parser
  import opened Registry
  import opened Tree
  import opened Compile
  import opened Rows
  import opened Results

  /** The database: the rows a query returns. */
  type Database = Sql -> seq<Record>

  /** `self._make_object(record)`: a property level collapses its typed columns. */
  function LevelObject(t: QueryTree, record: Option<Record>): Result<seq<Entry>>
    requires t.ObjectQuery?
  {
    if IsProperty(t.cls) then MakePropertyObject(t.el, record) else MakeObject(t.el, record)
  }

  /** `self._make_object` of a level, as a function of the row. */
  function MakerOf(t: QueryTree): Record -> Result<seq<Entry>>
    requires t.ObjectQuery?
  {
    r => LevelObject(t, Some(r))
  }

  /** `[make(r) for r in rows]`, from the `i`-th row on, after `acc`. */
  function MakeAll(make: Record -> Result<seq<Entry>>, rows: seq<Record>, i: nat, acc: seq<seq<Entry>>): Result<seq<seq<Entry>>>
    requires i <= |rows|
    decreases |rows| - i
  {
    if i == |rows| then Ok(acc)
    else
      var r :- make(rows[i]);
      MakeAll(make, rows, i + 1, acc + [r])
  }

  /** `[r.get('id') for r in results]` */
  function Ids(rs: seq<seq<Entry>>): seq<Value>
  {
    seq(|rs|, i requires 0 <= i < |rs| => GetOr(rs[i], IdKey, Null))
  }

  /** The result objects of a level: its query, run on the database. */
  function Fetch(root: QueryTree, t: QueryTree, parentIds: Option<seq<Value>>, db: Database): Result<seq<seq<Entry>>>
    requires root.ObjectQuery? && t.ObjectQuery?
  {
    var q :- QueryOf(root, t, parentIds);
    MakeAll(MakerOf(t), db(q), 0, [])
  }

  /** The placeholder yielded when a level finds nothing: `_make_object({})` with its
      `__parent_id` popped, under the parent id None. */
  function Head(t: QueryTree, rs: seq<seq<Entry>>): Result<seq<Yield>>
    requires t.ObjectQuery?
  {
    if rs != [] then Ok([])
    else
      var p :- LevelObject(t, Some([]));
      if !HasKey(p, ParentId) then Err(KeyError)
      else
        var p := Remove(p, ParentId);
        Ok([Yield(Null, if IsListShaped(t.el) then List([Dict(p)]) else Dict(p))])
  }

  /** `name in [node.name for node in self.node.children]` */
  predicate NamedChild(el: Value, k: Value)
  {
    exists n :: n in ChildrenOf(el) && n.name == k
  }

  /** `ObjectQuery.run(parent_ids)` for the level `t` of the tree whose root is `root`:
      the pairs it yields. */
  function RunOf(root: QueryTree, t: QueryTree, parentIds: Option<seq<Value>>, db: Database): Result<seq<Yield>>
    requires root.ObjectQuery? && t.ObjectQuery?
    decreases t, 2
  {
    var rs :- Fetch(root, t, parentIds, db);
    var head :- Head(t, rs);
    var stitched :- Stitch(root, t, 0, Ids(rs), rs, db);
    var gs :- GroupRows(stitched);
    Ok(head + Shaped(IsListShaped(t.el), gs))
  }

  /** The loop over `children_objects` from the `i`-th child on: each object child that
      the node names runs for `ids`, and its pairs are stitched into `rs`. */
  function Stitch(root: QueryTree, t: QueryTree, i: nat, ids: seq<Value>, rs: seq<seq<Entry>>, db: Database): Result<seq<seq<Entry>>>
    requires root.ObjectQuery? && t.ObjectQuery? && i <= |t.children|
    decreases t, 1, |t.children| - i
  {
    if i == |t.children| then Ok(rs)
    else
      var c := t.children[i];
      if c.query.FieldQuery? || !NamedChild(t.el, c.name) then Stitch(root, t, i + 1, ids, rs, db)
      else
        var ys :- if c.query.ObjectQuery? then RunOf(root, c.query, Some(ids), db) else PropsRunOf(root, c.query, Some(ids), db);
        var rs :- AssignAll(ys, 0, c.name, rs);
        Stitch(root, t, i + 1, ids, rs, db)
  }

  /** `PropertiesQuery.run(parent_ids)`: `results.items()`. */
  function PropsRunOf(root: QueryTree, s: QueryTree, parentIds: Option<seq<Value>>, db: Database): Result<seq<Yield>>
    requires root.ObjectQuery? && s.PropertiesQuery?
    decreases s, 2
  {
    var merged :- PropsLoop(root, s, 0, parentIds, db, []);
    Ok(Items(merged))
  }

  /** `d.items()` as pairs. */
  function Items(d: seq<Entry>): seq<Yield>
  {
    seq(|d|, i requires 0 <= i < |d| => Yield(d[i].key, d[i].val))
  }

  /** The loop over the property children from the `i`-th on; a field has no `run`. */
  function PropsLoop(root: QueryTree, s: QueryTree, i: nat, parentIds: Option<seq<Value>>, db: Database, acc: seq<Entry>): Result<seq<Entry>>
    requires root.ObjectQuery? && s.PropertiesQuery? && i <= |s.children|
    decreases s, 1, |s.children| - i
  {
    if i == |s.children| then Ok(acc)
    else
      var c := s.children[i];
      var ys :- if c.query.FieldQuery? then Err(AttributeError)
        else if c.query.ObjectQuery? then RunOf(root, c.query, parentIds, db)
        else PropsRunOf(root, c.query, parentIds, db);
      var acc :- MergeAll(ys, 0, acc);
      PropsLoop(root, s, i + 1, parentIds, db, acc)
  }

  // ---------------------------------------------------------------------------
  // What a level yields

  /** Making the objects succeeds exactly when every row makes one. */
  lemma {:induction false} MakeAllFails(make: Record -> Result<seq<Entry>>, rows: seq<Record>, i: nat, acc: seq<seq<Entry>>)
    requires i <= |rows|
    ensures MakeAll(make, rows, i, acc).Ok? <==> forall j :: i <= j < |rows| ==> make(rows[j]).Ok?
    decreases |rows| - i
  {
    if i < |rows| && make(rows[i]).Ok? {
      MakeAllFails(make, rows, i + 1, acc + [make(rows[i]).value]);
    }
  }

  /** It then makes one object per row: as many as there are rows, after `acc`. */
  lemma {:induction false} MakeAllLength(make: Record -> Result<seq<Entry>>, rows: seq<Record>, i: nat, acc: seq<seq<Entry>>)
    requires i <= |rows| && MakeAll(make, rows, i, acc).Ok?
    ensures |MakeAll(make, rows, i, acc).value| == |acc| + |rows| - i
    decreases |rows| - i
  {
    if i < |rows| {
      MakeAllLength(make, rows, i + 1, acc + [make(rows[i]).value]);
    }
  }

  /** The objects already made stay in front. */
  lemma {:induction false} MakeAllKeeps(make: Record -> Result<seq<Entry>>, rows: seq<Record>, i: nat, acc: seq<seq<Entry>>, m: nat)
    requires i <= |rows| && MakeAll(make, rows, i, acc).Ok? && m < |acc|
    ensures m < |MakeAll(make, rows, i, acc).value| && MakeAll(make, rows, i, acc).value[m] == acc[m]
    decreases |rows| - i
  {
    if i < |rows| {
      MakeAllKeeps(make, rows, i + 1, acc + [make(rows[i]).value], m);
    }
  }

  /** The object at the place of the `j`-th row is the one made of that row. */
  lemma {:induction false} MakeAllAt(make: Record -> Result<seq<Entry>>, rows: seq<Record>, i: nat, acc: seq<seq<Entry>>, j: nat)
    requires i <= j < |rows| && MakeAll(make, rows, i, acc).Ok?
    ensures make(rows[j]).Ok?
    ensures |acc| + j - i < |MakeAll(make, rows, i, acc).value|
    ensures MakeAll(make, rows, i, acc).value[|acc| + j - i] == make(rows[j]).value
    decreases |rows| - i
  {
    var next := acc + [make(rows[i]).value];
    if j == i {
      MakeAllKeeps(make, rows, i + 1, next, |acc|);
    } else {
      MakeAllAt(make, rows, i + 1, next, j);
    }
  }

  /** A level's object is made exactly when its node's value is a dict. */
  lemma LevelObjectFails(t: QueryTree, record: Option<Record>)
    requires t.ObjectQuery?
    ensures LevelObject(t, record).Ok? <==> ShapeOf(t.el).Dict?
  {
    MakeObjectSpec(t.el, record);
    PropertyObjectFails(t.el, record);
  }

  /** The placeholder of a plain level has no `__parent_id`, and holds None for every
      field the node leaves open and the node's own value for every other key but `*`. */
  lemma PlaceholderFields(t: QueryTree)
    requires t.ObjectQuery? && ShapeOf(t.el).Dict? && !IsProperty(t.cls)
    ensures Head(t, []).Ok? && |Head(t, []).value| == 1 && Head(t, []).value[0].parentId == Null
    ensures var p := Head(t, []).value[0].nested;
      var obj := if IsListShaped(t.el) then p.items[0] else p;
      (IsListShaped(t.el) ==> p.List? && |p.items| == 1) && obj.Dict? &&
      !HasKey(obj.entries, ParentId) &&
      forall k :: k != ParentId ==>
        Get(obj.entries, k) == (if NullNode(ChildrenOf(t.el), 0, k) then Some(Null) else if k == Star then None else LastGet(ShapeOf(t.el).entries, k))
  {
    MakeObjectSpec(t.el, Some([]));
    assert LastGet([], ParentId) == None;
    assert forall k :: LastGet([], k) == None;
  }

  /** A level that finds objects yields no placeholder. */
  lemma NoPlaceholder(t: QueryTree, rs: seq<seq<Entry>>)
    requires t.ObjectQuery? && rs != []
    ensures Head(t, rs) == Ok([])
  {
  }

  /** Stitching keeps the number of result objects, and every key of theirs that no
      object child stitched from the `i`-th on is named. */
  lemma {:induction false} StitchKeeps(root: QueryTree, t: QueryTree, i: nat, ids: seq<Value>, rs: seq<seq<Entry>>, db: Database)
    requires root.ObjectQuery? && t.ObjectQuery? && i <= |t.children|
    requires Stitch(root, t, i, ids, rs, db).Ok?
    ensures |Stitch(root, t, i, ids, rs, db).value| == |rs|
    ensures forall m, key :: 0 <= m < |rs| && (forall l :: i <= l < |t.children| ==> t.children[l].name != key) ==>
      Get(Stitch(root, t, i, ids, rs, db).value[m], key) == Get(rs[m], key)
    decreases |t.children| - i
  {
    if i < |t.children| {
      var c := t.children[i];
      if c.query.FieldQuery? || !NamedChild(t.el, c.name) {
        StitchKeeps(root, t, i + 1, ids, rs, db);
      } else {
        var ys := StitchRun(root, t, i, ids, db).value;
        AssignAllKeeps(ys, 0, c.name, rs);
        var next := AssignAll(ys, 0, c.name, rs).value;
        StitchStep(root, t, i, ids, rs, db);
        StitchKeeps(root, t, i + 1, ids, next, db);
      }
    }
  }

  /** What the `i`-th child, an object child the node names, yields. */
  function StitchRun(root: QueryTree, t: QueryTree, i: nat, ids: seq<Value>, db: Database): Result<seq<Yield>>
    requires root.ObjectQuery? && t.ObjectQuery? && i < |t.children| && !t.children[i].query.FieldQuery?
  {
    var c := t.children[i];
    if c.query.ObjectQuery? then RunOf(root, c.query, Some(ids), db) else PropsRunOf(root, c.query, Some(ids), db)
  }

  /** One step of the stitching loop. */
  lemma StitchStep(root: QueryTree, t: QueryTree, i: nat, ids: seq<Value>, rs: seq<seq<Entry>>, db: Database)
    requires root.ObjectQuery? && t.ObjectQuery? && i < |t.children|
    requires !t.children[i].query.FieldQuery? && NamedChild(t.el, t.children[i].name)
    ensures Stitch(root, t, i, ids, rs, db) ==
      match StitchRun(root, t, i, ids, db)
      case Err(x) => Err(x)
      case Ok(ys) =>
        match AssignAll(ys, 0, t.children[i].name, rs)
        case Err(x) => Err(x)
        case Ok(next) => Stitch(root, t, i + 1, ids, next, db)
  {
  }

  /** The steps of `run` after the query. */
  lemma RunUnfold(root: QueryTree, t: QueryTree, parentIds: Option<seq<Value>>, db: Database)
    requires root.ObjectQuery? && t.ObjectQuery?
    ensures RunOf(root, t, parentIds, db) ==
      match Fetch(root, t, parentIds, db)
      case Err(x) => Err(x)
      case Ok(rs) =>
        match Head(t, rs)
        case Err(x) => Err(x)
        case Ok(head) =>
          match Stitch(root, t, 0, Ids(rs), rs, db)
          case Err(x) => Err(x)
          case Ok(stitched) =>
            match GroupRows(stitched)
            case Err(x) => Err(x)
            case Ok(gs) => Ok(head + Shaped(IsListShaped(t.el), gs))
  {
  }

  /** A level that finds nothing yields the placeholder alone. */
  lemma RunEmpty(root: QueryTree, t: QueryTree, parentIds: Option<seq<Value>>, db: Database)
    requires root.ObjectQuery? && t.ObjectQuery?
    requires Fetch(root, t, parentIds, db) == Ok([]) && RunOf(root, t, parentIds, db).Ok?
    ensures RunOf(root, t, parentIds, db) == Head(t, [])
    ensures |RunOf(root, t, parentIds, db).value| == 1 && RunOf(root, t, parentIds, db).value[0].parentId == Null
  {
    assert Ids([]) == [];
    RunUnfold(root, t, parentIds, db);
    var st := Stitch(root, t, 0, [], [], db);
    assert st.Ok?;
    StitchKeeps(root, t, 0, [], [], db);
    assert st.value == [];
    assert GroupRows([]) == Ok([]);
    assert Shaped(IsListShaped(t.el), []) == [];
    assert Head(t, []).value + [] == Head(t, []).value;
    HeadSingle(t);
  }

  /** The placeholder, when there is one, is a single pair under the parent id None. */
  lemma HeadSingle(t: QueryTree)
    requires t.ObjectQuery? && Head(t, []).Ok?
    ensures |Head(t, []).value| == 1 && Head(t, []).value[0].parentId == Null
  {
  }

  /** What a level yields has the node's shape: lists for a list node, dicts for a
      single one. */
  lemma RunShapes(root: QueryTree, t: QueryTree, parentIds: Option<seq<Value>>, db: Database)
    requires root.ObjectQuery? && t.ObjectQuery? && RunOf(root, t, parentIds, db).Ok?
    ensures forall y :: y in RunOf(root, t, parentIds, db).value ==>
      if IsListShaped(t.el) then y.nested.List? else y.nested.Dict?
  {
    RunUnfold(root, t, parentIds, db);
    var rs := Fetch(root, t, parentIds, db).value;
    var head := Head(t, rs).value;
    var stitched := Stitch(root, t, 0, Ids(rs), rs, db).value;
    var gs := GroupRows(stitched).value;
    HeadKinds(t, rs);
    ShapedKinds(IsListShaped(t.el), gs);
    assert RunOf(root, t, parentIds, db).value == head + Shaped(IsListShaped(t.el), gs);
  }

  /** The placeholder has the node's shape. */
  lemma HeadKinds(t: QueryTree, rs: seq<seq<Entry>>)
    requires t.ObjectQuery? && Head(t, rs).Ok?
    ensures forall y :: y in Head(t, rs).value ==> if IsListShaped(t.el) then y.nested.List? else y.nested.Dict?
  {
  }

  /** A level that finds objects yields one pair per run of equal `__parent_id`, and
      stitching keeps that key when no child is named `__parent_id`: each pair's parent
      id is that of one of the level's rows. */
  lemma RunParents(root: QueryTree, t: QueryTree, parentIds: Option<seq<Value>>, db: Database)
    requires root.ObjectQuery? && t.ObjectQuery? && RunOf(root, t, parentIds, db).Ok?
    requires Fetch(root, t, parentIds, db).Ok? && Fetch(root, t, parentIds, db).value != []
    requires forall c :: c in t.children ==> c.name != ParentId
    ensures forall y :: y in RunOf(root, t, parentIds, db).value ==>
      exists j :: 0 <= j < |Fetch(root, t, parentIds, db).value| && Get(Fetch(root, t, parentIds, db).value[j], ParentId) == Some(y.parentId)
  {
    RunUnfold(root, t, parentIds, db);
    var rs := Fetch(root, t, parentIds, db).value;
    StitchKeeps(root, t, 0, Ids(rs), rs, db);
    var stitched := Stitch(root, t, 0, Ids(rs), rs, db).value;
    var gs := GroupRows(stitched).value;
    GroupFails(stitched);
    GroupFlatten(stitched);
    ShapedSpec(IsListShaped(t.el), gs);
    forall y | y in RunOf(root, t, parentIds, db).value
      ensures exists j :: 0 <= j < |rs| && Get(rs[j], ParentId) == Some(y.parentId)
    {
      var i :| 0 <= i < |gs| && y == Shaped(IsListShaped(t.el), gs)[i];
      var j := GroupMember(gs, i);
      LabelledAt(stitched, j);
      assert t.children[..] == t.children;
      assert Get(stitched[j], ParentId) == Get(rs[j], ParentId);
    }
  }

  /** The first position, in the laid-out groups, of the `i`-th group's rows. */
  lemma GroupMember(gs: seq<Group>, i: nat) returns (j: nat)
    requires MaximalRuns(gs) && i < |gs|
    ensures j < |Flatten(gs)| && Flatten(gs)[j].key == gs[i].key
  {
    FlattenAt(gs, i);
    j := |Flatten(gs[..i])|;
  }

  lemma {:induction false} FlattenAt(gs: seq<Group>, i: nat)
    requires MaximalRuns(gs) && i < |gs|
    ensures |Flatten(gs[..i])| < |Flatten(gs)| && Flatten(gs)[|Flatten(gs[..i])|].key == gs[i].key
  {
    if i < |gs| - 1 {
      var init := gs[..|gs| - 1];
      assert init[..i] == gs[..i];
      FlattenAt(init, i);
      assert Flatten(gs) == Flatten(init) + Tagged(gs[|gs| - 1]);
    } else {
      assert gs[..i] == gs[..|gs| - 1];
      assert Flatten(gs) == Flatten(gs[..i]) + Tagged(gs[i]);
    }
  }

  /** The `j`-th laid-out row carries the `j`-th object's key. */
  lemma LabelledAt(rs: seq<seq<Entry>>, j: nat)
    requires j < |rs| && HasKey(rs[j], ParentId)
    ensures j < |Labelled(rs)| && Labelled(rs)[j].key == Get(rs[j], ParentId).value
  {
  }

  /** The properties of a level arrive as dicts, one pair per parent. */
  lemma PropsRunBuckets(root: QueryTree, s: QueryTree, parentIds: Option<seq<Value>>, db: Database)
    requires root.ObjectQuery? && s.PropertiesQuery? && PropsRunOf(root, s, parentIds, db).Ok?
    ensures forall y :: y in PropsRunOf(root, s, parentIds, db).value ==> y.nested.Dict?
    ensures forall i, j :: 0 <= i < j < |PropsRunOf(root, s, parentIds, db).value| ==>
      PropsRunOf(root, s, parentIds, db).value[i].parentId != PropsRunOf(root, s, parentIds, db).value[j].parentId
  {
    PropsLoopBuckets(root, s, 0, parentIds, db, []);
    var merged := PropsLoop(root, s, 0, parentIds, db, []).value;
    assert forall i :: 0 <= i < |merged| ==> merged[i] in merged;
  }

  lemma {:induction false} PropsLoopBuckets(root: QueryTree, s: QueryTree, i: nat, parentIds: Option<seq<Value>>, db: Database, acc: seq<Entry>)
    requires root.ObjectQuery? && s.PropertiesQuery? && i <= |s.children|
    requires Buckets(acc) && PropsLoop(root, s, i, parentIds, db, acc).Ok?
    ensures Buckets(PropsLoop(root, s, i, parentIds, db, acc).value)
    decreases |s.children| - i
  {
    if i < |s.children| {
      var ys := PropsChildRun(root, s, i, parentIds, db).value;
      PropsLoopStep(root, s, i, parentIds, db, acc);
      MergeAllBuckets(ys, 0, acc);
      PropsLoopBuckets(root, s, i + 1, parentIds, db, MergeAll(ys, 0, acc).value);
    }
  }

  /** What the `i`-th property child yields. */
  function PropsChildRun(root: QueryTree, s: QueryTree, i: nat, parentIds: Option<seq<Value>>, db: Database): Result<seq<Yield>>
    requires root.ObjectQuery? && s.PropertiesQuery? && i < |s.children|
  {
    var c := s.children[i];
    if c.query.FieldQuery? then Err(AttributeError)
    else if c.query.ObjectQuery? then RunOf(root, c.query, parentIds, db)
    else PropsRunOf(root, c.query, parentIds, db)
  }

  /** One step of the loop over the property children. */
  lemma PropsLoopStep(root: QueryTree, s: QueryTree, i: nat, parentIds: Option<seq<Value>>, db: Database, acc: seq<Entry>)
    requires root.ObjectQuery? && s.PropertiesQuery? && i < |s.children|
    ensures PropsLoop(root, s, i, parentIds, db, acc) ==
      match PropsChildRun(root, s, i, parentIds, db)
      case Err(x) => Err(x)
      case Ok(ys) =>
        match MergeAll(ys, 0, acc)
        case Err(x) => Err(x)
        case Ok(next) => PropsLoop(root, s, i + 1, parentIds, db, next)
  {
  }

  // ---------------------------------------------------------------------------
  // The generators, statement by statement

  /** `self._make_object(record)` */
  method LevelObjectNode(t: QueryTree, record: Option<Record>) returns (r: Result<seq<Entry>>)
    requires t.ObjectQuery?
    ensures r == LevelObject(t, record)
  {
    if IsProperty(t.cls) {
      r := MakePropertyObjectNode(t.el, record);
    } else {
      r := MakeObjectNode(t.el, record);
    }
  }

  /** `results = [self._make_object(r) for r in self.query(parent_ids)]` */
  method FetchResults(root: QueryTree, t: QueryTree, parentIds: Option<seq<Value>>, db: Database) returns (r: Result<seq<seq<Entry>>>)
    requires root.ObjectQuery? && t.ObjectQuery?
    ensures r == Fetch(root, t, parentIds, db)
  {
    var q := Query(root, t, parentIds);
    if q.Err? {
      return Err(q.error);
    }
    var rows := db(q.value);
    var results: seq<seq<Entry>> := [];
    for i := 0 to |rows|
      invariant MakeAll(MakerOf(t), rows, i, results) == MakeAll(MakerOf(t), rows, 0, [])
    {
      var obj := LevelObjectNode(t, Some(rows[i]));
      if obj.Err? {
        return Err(obj.error);
      }
      results := results + [obj.value];
    }
    r := Ok(results);
  }

  /** `ids = [r.get('id') for r in results]`: one id per result, in order, `None` for a
      result without one. */
  method CollectIds(rs: seq<seq<Entry>>) returns (ids: seq<Value>)
    ensures ids == Ids(rs)
  {
    ids := [];
    for i := 0 to |rs|
      invariant |ids| == i && forall j :: 0 <= j < i ==> ids[j] == GetOr(rs[j], IdKey, Null)
    {
      ids := ids + [GetOr(rs[i], IdKey, Null)];
    }
  }

  /** `if not len(results)`: the placeholder. */
  method Placeholder(t: QueryTree, rs: seq<seq<Entry>>) returns (r: Result<seq<Yield>>)
    requires t.ObjectQuery?
    ensures r == Head(t, rs)
  {
    if |rs| != 0 {
      return Ok([]);
    }
    var p := LevelObjectNode(t, Some([]));
    if p.Err? {
      return Err(p.error);
    }
    if !HasKey(p.value, ParentId) {
      return Err(KeyError);
    }
    var obj := Remove(p.value, ParentId);
    r := Ok([Yield(Null, if IsListShaped(t.el) then List([Dict(obj)]) else Dict(obj))]);
  }

  /** `ObjectQuery.run(parent_ids)`, with every pair it yields collected in order. */
  method Run(root: QueryTree, t: QueryTree, parentIds: Option<seq<Value>>, db: Database) returns (r: Result<seq<Yield>>)
    requires root.ObjectQuery? && t.ObjectQuery?
    ensures r == RunOf(root, t, parentIds, db)
    decreases t, 2
  {
    RunUnfold(root, t, parentIds, db);
    var fetched := FetchResults(root, t, parentIds, db);
    if fetched.Err? {
      return Err(fetched.error);
    }
    var results := fetched.value;
    var ids := CollectIds(results);
    var head := Placeholder(t, results);
    if head.Err? {
      return Err(head.error);
    }
    var stitched := StitchChildren(root, t, ids, results, db);
    if stitched.Err? {
      return Err(stitched.error);
    }
    var gs := GroupBy(stitched.value);
    if gs.Err? {
      return Err(gs.error);
    }
    var ys := ShapeGroups(IsListShaped(t.el), gs.value);
    r := Ok(head.value + ys);
  }

  /** `for name, child in self.children_objects`: each child the node names runs, and
      its pairs are stitched into the results. */
  method StitchChildren(root: QueryTree, t: QueryTree, ids: seq<Value>, rs: seq<seq<Entry>>, db: Database) returns (r: Result<seq<seq<Entry>>>)
    requires root.ObjectQuery? && t.ObjectQuery?
    ensures r == Stitch(root, t, 0, ids, rs, db)
    decreases t, 1
  {
    var results := rs;
    for i := 0 to |t.children|
      invariant Stitch(root, t, i, ids, results, db) == Stitch(root, t, 0, ids, rs, db)
    {
      var c := t.children[i];
      if !c.query.FieldQuery? && NamedChild(t.el, c.name) {
        StitchStep(root, t, i, ids, results, db);
        var ys: Result<seq<Yield>>;
        if c.query.ObjectQuery? {
          ys := Run(root, c.query, Some(ids), db);
        } else {
          ys := PropertiesRun(root, c.query, Some(ids), db);
        }
        if ys.Err? {
          return Err(ys.error);
        }
        var next := AssignPairs(ys.value, c.name, results);
        if next.Err? {
          return Err(next.error);
        }
        results := next.value;
      }
    }
    r := Ok(results);
  }

  /** `PropertiesQuery.run(parent_ids)` */
  method PropertiesRun(root: QueryTree, s: QueryTree, parentIds: Option<seq<Value>>, db: Database) returns (r: Result<seq<Yield>>)
    requires root.ObjectQuery? && s.PropertiesQuery?
    ensures r == PropsRunOf(root, s, parentIds, db)
    decreases s, 2
  {
    var results: seq<Entry> := [];
    for i := 0 to |s.children|
      invariant PropsLoop(root, s, i, parentIds, db, results) == PropsLoop(root, s, 0, parentIds, db, [])
    {
      PropsLoopStep(root, s, i, parentIds, db, results);
      var c := s.children[i];
      var ys: Result<seq<Yield>>;
      if c.query.FieldQuery? {
        ys := Err(AttributeError);
      } else if c.query.ObjectQuery? {
        ys := Run(root, c.query, parentIds, db);
      } else {
        ys := PropertiesRun(root, c.query, parentIds, db);
      }
      if ys.Err? {
        return Err(ys.error);
      }
      var next := MergePairs(ys.value, results);
      if next.Err? {
        return Err(next.error);
      }
      results := next.value;
    }
    r := Ok(Items(results));
  }
}
