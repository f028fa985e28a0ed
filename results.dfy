/** The parts of `ObjectQuery.run` and `PropertiesQuery.run` in grano/ql/query.py that
    work on result objects rather than on the database: grouping by `__parent_id`, the
    shape of what a level yields, stitching nested results into their parents, and
    merging property rows by name. */
module Results {
  import opened PyValue
  import opened Registry

  /** One `(parent_id, nested)` pair a level yields. */
  datatype Yield = Yield(parentId: Value, nested: Value)

  /** A run of result objects sharing one `__parent_id`, each with the key popped. */
  datatype Group = Group(key: Value, rows: seq<seq<Entry>>)

  // ---------------------------------------------------------------------------
  // groupby(results, lambda r: r.pop(PARENT_ID))

  /** Every group is non-empty and no two neighbours share a key: the groups are the
      maximal runs of equal keys. */
  predicate MaximalRuns(gs: seq<Group>)
  {
    (forall i :: 0 <= i < |gs| ==> gs[i].rows != []) &&
    (forall i :: 0 < i < |gs| ==> gs[i - 1].key != gs[i].key)
  }

  /** Feeding one more result object to `groupby`: its key is popped (a `KeyError` if it
      has none) and it joins the last group when the key is the same. */
  function GroupStep(gs: seq<Group>, r: seq<Entry>): (res: Result<seq<Group>>)
    ensures res.Ok? ==> res.value != [] && (MaximalRuns(gs) ==> MaximalRuns(res.value))
  {
    if !HasKey(r, ParentId) then Err(KeyError)
    else
      var k := Get(r, ParentId).value;
      var row := Remove(r, ParentId);
      if gs != [] && gs[|gs| - 1].key == k then Ok(gs[..|gs| - 1] + [Group(k, gs[|gs| - 1].rows + [row])])
      else Ok(gs + [Group(k, [row])])
  }

  /** The groups of `rs`, in order. */
  function GroupRows(rs: seq<seq<Entry>>): (r: Result<seq<Group>>)
    ensures r.Ok? ==> MaximalRuns(r.value)
    ensures r.Ok? ==> (rs == [] <==> r.value == [])
  {
    if rs == [] then Ok([])
    else
      var gs :- GroupRows(rs[..|rs| - 1]);
      GroupStep(gs, rs[|rs| - 1])
  }

  /** Each row of a group, tagged with the group's key. */
  function Tagged(g: Group): seq<Entry>
  {
    seq(|g.rows|, j requires 0 <= j < |g.rows| => Entry(g.key, Dict(g.rows[j])))
  }

  /** The groups laid end to end again. */
  function Flatten(gs: seq<Group>): seq<Entry>
  {
    if gs == [] then [] else Flatten(gs[..|gs| - 1]) + Tagged(gs[|gs| - 1])
  }

  /** Each result object as its key and what is left once the key is popped. */
  function Labelled(rs: seq<seq<Entry>>): seq<Entry>
  {
    seq(|rs|, i requires 0 <= i < |rs| => Entry(GetOr(rs[i], ParentId, Null), Dict(Remove(rs[i], ParentId))))
  }

  /** Grouping fails exactly when some result object has no `__parent_id`. */
  lemma {:induction false} GroupFails(rs: seq<seq<Entry>>)
    ensures GroupRows(rs).Ok? <==> forall i :: 0 <= i < |rs| ==> HasKey(rs[i], ParentId)
  {
    if rs != [] {
      var init := rs[..|rs| - 1];
      GroupFails(init);
      assert forall i :: 0 <= i < |init| ==> init[i] == rs[i];
    }
  }

  /** Laid end to end, the groups are the result objects in their order, each with its
      key popped and tagged with it: nothing is lost, duplicated or reordered. */
  lemma {:induction false} GroupFlatten(rs: seq<seq<Entry>>)
    requires GroupRows(rs).Ok?
    ensures Flatten(GroupRows(rs).value) == Labelled(rs)
  {
    if rs != [] {
      var init := rs[..|rs| - 1];
      var last := rs[|rs| - 1];
      GroupFlatten(init);
      var gs := GroupRows(init).value;
      FlattenStep(gs, last);
      LabelledSnoc(rs);
    }
  }

  lemma LabelledSnoc(rs: seq<seq<Entry>>)
    requires rs != []
    ensures Labelled(rs) == Labelled(rs[..|rs| - 1]) + [Entry(GetOr(rs[|rs| - 1], ParentId, Null), Dict(Remove(rs[|rs| - 1], ParentId)))]
  {
    var init := rs[..|rs| - 1];
    var a := Labelled(rs);
    var b := Labelled(init) + [Entry(GetOr(rs[|rs| - 1], ParentId, Null), Dict(Remove(rs[|rs| - 1], ParentId)))];
    forall i | 0 <= i < |a| ensures a[i] == b[i] {
      if i < |init| {
        assert init[i] == rs[i];
      }
    }
  }

  /** One step of the grouping adds one tagged row at the end. */
  lemma FlattenStep(gs: seq<Group>, r: seq<Entry>)
    requires GroupStep(gs, r).Ok?
    ensures Flatten(GroupStep(gs, r).value) == Flatten(gs) + [Entry(Get(r, ParentId).value, Dict(Remove(r, ParentId)))]
  {
    var k := Get(r, ParentId).value;
    var row := Remove(r, ParentId);
    if gs != [] && gs[|gs| - 1].key == k {
      var g := gs[|gs| - 1];
      var init := gs[..|gs| - 1];
      var next := init + [Group(k, g.rows + [row])];
      assert next[..|next| - 1] == init;
      assert gs == init + [g];
      assert Tagged(Group(k, g.rows + [row])) == Tagged(g) + [Entry(k, Dict(row))];
    } else {
      var next := gs + [Group(k, [row])];
      assert next[..|next| - 1] == gs;
    }
  }

  /** `groupby` over the result objects, one at a time. */
  method GroupBy(rs: seq<seq<Entry>>) returns (r: Result<seq<Group>>)
    ensures r == GroupRows(rs)
  {
    var gs: seq<Group> := [];
    for i := 0 to |rs|
      invariant GroupRows(rs[..i]) == Ok(gs)
    {
      assert rs[..i + 1][..i] == rs[..i];
      var row := rs[i];
      if !HasKey(row, ParentId) {
        assert GroupRows(rs[..i + 1]).Err?;
        GroupPrefixFails(rs, i + 1);
        return Err(KeyError);
      }
      var k := Get(row, ParentId).value;
      var rest := Remove(row, ParentId);
      if gs != [] && gs[|gs| - 1].key == k {
        gs := gs[..|gs| - 1] + [Group(k, gs[|gs| - 1].rows + [rest])];
      } else {
        gs := gs + [Group(k, [rest])];
      }
    }
    assert rs[..|rs|] == rs;
    r := Ok(gs);
  }

  /** A prefix of the result objects that cannot be grouped spoils the whole. */
  lemma GroupPrefixFails(rs: seq<seq<Entry>>, n: nat)
    requires n <= |rs| && GroupRows(rs[..n]).Err?
    ensures GroupRows(rs) == Err(KeyError)
  {
    GroupFails(rs[..n]);
    GroupFails(rs);
    var i :| 0 <= i < n && !HasKey(rs[..n][i], ParentId);
    assert rs[i] == rs[..n][i];
    GroupErrKey(rs);
  }

  /** The only error grouping raises is `KeyError`. */
  lemma {:induction false} GroupErrKey(rs: seq<seq<Entry>>)
    ensures GroupRows(rs).Err? ==> GroupRows(rs).error == KeyError
  {
    if rs != [] {
      GroupErrKey(rs[..|rs| - 1]);
    }
  }

  // ---------------------------------------------------------------------------
  // for parent_id, results in groupby(...): results = list(results);
  //   if not self.node.as_list: results = results.pop(); yield parent_id, results

  /** The rows as Python dicts. */
  function Dicts(rows: seq<seq<Entry>>): (r: seq<Value>)
    ensures |r| == |rows| && forall j :: 0 <= j < |rows| ==> r[j] == Dict(rows[j])
  {
    seq(|rows|, j requires 0 <= j < |rows| => Dict(rows[j]))
  }

  /** What a level yields for one group: a list of the group's objects for a list
      node, and the group's last object for a single one. */
  function Nested(asList: bool, g: Group): Value
    requires g.rows != []
  {
    if asList then List(Dicts(g.rows)) else Dict(g.rows[|g.rows| - 1])
  }

  /** What a level yields for its groups, in order. */
  function Shaped(asList: bool, gs: seq<Group>): seq<Yield>
    requires forall i :: 0 <= i < |gs| ==> gs[i].rows != []
  {
    seq(|gs|, i requires 0 <= i < |gs| => Yield(gs[i].key, Nested(asList, gs[i])))
  }

  /** A level yields one pair per group, neighbours never share a parent id, a list
      node yields lists holding every object of the group, and a single node yields the
      group's last object. */
  lemma ShapedSpec(asList: bool, gs: seq<Group>)
    requires MaximalRuns(gs)
    ensures |Shaped(asList, gs)| == |gs|
    ensures forall i :: 0 < i < |gs| ==> Shaped(asList, gs)[i - 1].parentId != Shaped(asList, gs)[i].parentId
    ensures forall i :: 0 <= i < |gs| ==> Shaped(asList, gs)[i].parentId == gs[i].key
    ensures forall i :: 0 <= i < |gs| ==>
      (asList ==> Shaped(asList, gs)[i].nested.List? && Shaped(asList, gs)[i].nested.items == Dicts(gs[i].rows))
    ensures forall i :: 0 <= i < |gs| ==>
      (!asList ==> Shaped(asList, gs)[i].nested == Dict(gs[i].rows[|gs[i].rows| - 1]))
  {
  }

  /** Every pair yielded for the groups has the node's shape. */
  lemma ShapedKinds(asList: bool, gs: seq<Group>)
    requires MaximalRuns(gs)
    ensures forall y :: y in Shaped(asList, gs) ==> if asList then y.nested.List? else y.nested.Dict?
  {
    ShapedSpec(asList, gs);
  }

  /** The loop over the groups. */
  method ShapeGroups(asList: bool, gs: seq<Group>) returns (ys: seq<Yield>)
    requires forall i :: 0 <= i < |gs| ==> gs[i].rows != []
    ensures ys == Shaped(asList, gs)
  {
    ys := [];
    for i := 0 to |gs|
      invariant |ys| == i
      invariant forall m :: 0 <= m < i ==> ys[m] == Yield(gs[m].key, Nested(asList, gs[m]))
    {
      var rows := gs[i].rows;
      if asList {
        ys := ys + [Yield(gs[i].key, List(Dicts(rows)))];
      } else {
        ys := ys + [Yield(gs[i].key, Dict(rows[|rows| - 1]))];
      }
    }
  }

  // ---------------------------------------------------------------------------
  // for parent_id, nested in child.run(parent_ids=ids):
  //     for result in results:
  //         if parent_id == result['id']: result[name] = nested

  /** The inner loop for one yielded pair, from the `j`-th result object on: every
      object whose `id` is the pair's parent id gets the nested value under `name`, and
      an object without `id` raises `KeyError`. */
  function AssignFrom(y: Yield, name: Value, rs: seq<seq<Entry>>, j: nat): Result<seq<seq<Entry>>>
    requires j <= |rs|
    decreases |rs| - j
  {
    if j == |rs| then Ok(rs)
    else if !HasKey(rs[j], IdKey) then Err(KeyError)
    else
      var rs := if Get(rs[j], IdKey).value == y.parentId then rs[j := Put(rs[j], name, y.nested)] else rs;
      AssignFrom(y, name, rs, j + 1)
  }

  /** The pairs from the `k`-th on, one after the other. */
  function AssignAll(ys: seq<Yield>, k: nat, name: Value, rs: seq<seq<Entry>>): Result<seq<seq<Entry>>>
    requires k <= |ys|
    decreases |ys| - k
  {
    if k == |ys| then Ok(rs)
    else
      var rs :- AssignFrom(ys[k], name, rs, 0);
      AssignAll(ys, k + 1, name, rs)
  }

  /** Every result object from the `j`-th on has an `id`. */
  predicate HaveIds(rs: seq<seq<Entry>>, j: nat)
  {
    forall m :: j <= m < |rs| ==> HasKey(rs[m], IdKey)
  }

  /** The inner loop fails exactly when an object it reaches has no `id`; otherwise it
      sets `name` on exactly the objects whose `id` is the pair's parent id. */
  lemma {:induction false} AssignFromSpec(y: Yield, name: Value, rs: seq<seq<Entry>>, j: nat)
    requires j <= |rs|
    ensures AssignFrom(y, name, rs, j).Ok? <==> HaveIds(rs, j)
    ensures AssignFrom(y, name, rs, j).Ok? ==>
      var r := AssignFrom(y, name, rs, j).value;
      |r| == |rs| &&
      (forall m :: 0 <= m < j ==> r[m] == rs[m]) &&
      forall m :: j <= m < |rs| ==> r[m] == if Get(rs[m], IdKey) == Some(y.parentId) then Put(rs[m], name, y.nested) else rs[m]
    decreases |rs| - j
  {
    if j < |rs| && HasKey(rs[j], IdKey) {
      var next := if Get(rs[j], IdKey).value == y.parentId then rs[j := Put(rs[j], name, y.nested)] else rs;
      AssignFromSpec(y, name, next, j + 1);
      assert forall m :: j < m < |rs| ==> next[m] == rs[m];
      assert HaveIds(next, j + 1) <==> HaveIds(rs, j + 1);
    }
  }

  /** The nested value of the last pair from the `k`-th on whose parent id is `id`. */
  function LastMatch(ys: seq<Yield>, k: nat, id: Value): Option<Value>
    requires k <= |ys|
    decreases |ys| - k
  {
    if k == |ys| then None
    else
      var later := LastMatch(ys, k + 1, id);
      if later.Some? then later
      else if ys[k].parentId == id then Some(ys[k].nested)
      else None
  }

  /** Stitching the pairs from the `k`-th on, when the child's name is not `id`: with no
      pair nothing happens, otherwise it fails exactly when some object has no `id`; each
      object keeps its keys but `name`, and `name` holds the nested value of the last
      pair whose parent id is the object's `id`, if there is one. */
  lemma {:induction false} AssignAllSpec(ys: seq<Yield>, k: nat, name: Value, rs: seq<seq<Entry>>)
    requires k <= |ys| && name != IdKey
    ensures AssignAll(ys, k, name, rs).Ok? <==> k == |ys| || HaveIds(rs, 0)
    ensures AssignAll(ys, k, name, rs).Ok? ==>
      var r := AssignAll(ys, k, name, rs).value;
      |r| == |rs| &&
      forall m :: 0 <= m < |rs| ==>
        (forall key :: key != name ==> Get(r[m], key) == Get(rs[m], key)) &&
        Get(r[m], name) == if HasKey(rs[m], IdKey) && LastMatch(ys, k, Get(rs[m], IdKey).value).Some?
          then LastMatch(ys, k, Get(rs[m], IdKey).value) else Get(rs[m], name)
    decreases |ys| - k
  {
    if k < |ys| {
      AssignFromSpec(ys[k], name, rs, 0);
      if AssignFrom(ys[k], name, rs, 0).Ok? {
        var next := AssignFrom(ys[k], name, rs, 0).value;
        AssignAllSpec(ys, k + 1, name, next);
        assert forall m :: 0 <= m < |rs| ==> Get(next[m], IdKey) == Get(rs[m], IdKey);
        assert HaveIds(next, 0) <==> HaveIds(rs, 0);
      }
    }
  }

  /** Stitching the pairs from the `k`-th on keeps the number of result objects and
      every key of theirs but `name`. */
  lemma {:induction false} AssignAllKeeps(ys: seq<Yield>, k: nat, name: Value, rs: seq<seq<Entry>>)
    requires k <= |ys| && AssignAll(ys, k, name, rs).Ok?
    ensures |AssignAll(ys, k, name, rs).value| == |rs|
    ensures forall m, key :: 0 <= m < |rs| && key != name ==> Get(AssignAll(ys, k, name, rs).value[m], key) == Get(rs[m], key)
    decreases |ys| - k
  {
    if k < |ys| {
      AssignFromSpec(ys[k], name, rs, 0);
      AssignAllKeeps(ys, k + 1, name, AssignFrom(ys[k], name, rs, 0).value);
    }
  }

  /** The inner loop, over the result objects. */
  method AssignPair(y: Yield, name: Value, rs: seq<seq<Entry>>) returns (r: Result<seq<seq<Entry>>>)
    ensures r == AssignFrom(y, name, rs, 0)
  {
    var results := rs;
    for j := 0 to |rs|
      invariant |results| == |rs|
      invariant AssignFrom(y, name, results, j) == AssignFrom(y, name, rs, 0)
    {
      if !HasKey(results[j], IdKey) {
        return Err(KeyError);
      }
      if Get(results[j], IdKey).value == y.parentId {
        results := results[j := Put(results[j], name, y.nested)];
      }
    }
    r := Ok(results);
  }

  /** The loop over the pairs a child yields. */
  method AssignPairs(ys: seq<Yield>, name: Value, rs: seq<seq<Entry>>) returns (r: Result<seq<seq<Entry>>>)
    ensures r == AssignAll(ys, 0, name, rs)
  {
    var results := rs;
    for k := 0 to |ys|
      invariant AssignAll(ys, k, name, results) == AssignAll(ys, 0, name, rs)
    {
      var next := AssignPair(ys[k], name, results);
      if next.Err? {
        return Err(next.error);
      }
      results := next.value;
    }
    r := Ok(results);
  }

  // ---------------------------------------------------------------------------
  // PropertiesQuery.run: results[parent_id][value.pop('name')] = value

  /** `for value in values`: a list gives its items, a dict its keys, a string its
      characters; anything else is not iterable. */
  function Iterated(v: Value): Result<seq<Value>>
  {
    match v
    case List(items) => Ok(items)
    case Dict(d) => Ok(seq(|d|, i requires 0 <= i < |d| => d[i].key))
    case Str(s) => Ok(seq(|s|, i requires 0 <= i < |s| => Str([s[i]])))
    case _ => Err(TypeError)
  }

  /** Iterating a list visits its items, a dict exactly its keys, a string its
      one-character strings; nothing else is iterable. */
  lemma IteratedSpec(v: Value)
    ensures Iterated(v).Ok? <==> v.List? || v.Dict? || v.Str?
    ensures v.List? ==> Iterated(v) == Ok(v.items)
    ensures v.Dict? ==> |Iterated(v).value| == |v.entries|
    ensures v.Dict? ==> forall k :: k in Iterated(v).value <==> HasKey(v.entries, k)
    ensures v.Str? ==> |Iterated(v).value| == |v.s| && forall i :: 0 <= i < |v.s| ==> Iterated(v).value[i] == Str([v.s[i]])
  {
    if v.Dict? {
      var d, ks := v.entries, Iterated(v).value;
      forall k
        ensures k in ks <==> HasKey(d, k)
      {
        if k in ks {
          var i :| 0 <= i < |ks| && ks[i] == k;
          InGet(d, d[i]);
        }
        if HasKey(d, k) {
          GetIn(d, k);
          var i :| 0 <= i < |d| && d[i] == Entry(k, Get(d, k).value);
          assert ks[i] == k;
        }
      }
    }
  }

  /** `results[parent_id]`, the dict of properties gathered for one parent. */
  function Inner(acc: seq<Entry>, pid: Value): seq<Entry>
  {
    match Get(acc, pid)
    case Some(Dict(d)) => d
    case _ => []
  }

  /** `for value in values: results[parent_id][value.pop('name')] = value`, from the
      `j`-th value on: a list raises `TypeError`, any other value that is not a dict
      `AttributeError`, and a dict without `name` `KeyError`. */
  function MergeValues(pid: Value, items: seq<Value>, j: nat, acc: seq<Entry>): Result<seq<Entry>>
    requires j <= |items|
    decreases |items| - j
  {
    if j == |items| then Ok(acc)
    else
      var v := items[j];
      if v.List? then Err(TypeError)   // `list.pop` wants an index
      else if !v.Dict? then Err(AttributeError)
      else if !HasKey(v.entries, NameKey) then Err(KeyError)
      else
        var n := Get(v.entries, NameKey).value;
        var acc := Put(acc, pid, Dict(Put(Inner(acc, pid), n, Dict(Remove(v.entries, NameKey)))));
        MergeValues(pid, items, j + 1, acc)
  }

  /** One pair a property child yields: `results[parent_id] = {}` for a new parent, then
      its values. */
  function MergeYield(y: Yield, acc: seq<Entry>): Result<seq<Entry>>
  {
    var acc := if HasKey(acc, y.parentId) then acc else Put(acc, y.parentId, Dict([]));
    var items :- Iterated(y.nested);
    MergeValues(y.parentId, items, 0, acc)
  }

  /** The pairs from the `k`-th on. */
  function MergeAll(ys: seq<Yield>, k: nat, acc: seq<Entry>): Result<seq<Entry>>
    requires k <= |ys|
    decreases |ys| - k
  {
    if k == |ys| then Ok(acc)
    else
      var acc :- MergeYield(ys[k], acc);
      MergeAll(ys, k + 1, acc)
  }

  /** Every value from the `j`-th on is a dict with a `name`. */
  predicate Named(items: seq<Value>, j: nat)
  {
    forall m :: j <= m < |items| ==> items[m].Dict? && HasKey(items[m].entries, NameKey)
  }

  /** Some value from the `j`-th on is named `n`, and none after it. */
  predicate LastNamed(items: seq<Value>, j: nat, m: int, n: Value)
  {
    j <= m < |items| && items[m].Dict? && Get(items[m].entries, NameKey) == Some(n) &&
    forall l :: m < l < |items| ==> !(items[l].Dict? && Get(items[l].entries, NameKey) == Some(n))
  }

  /** Merging values fails exactly when one is not a dict with a `name`; it touches no
      other parent, and under the parent each name holds the last value so named, with
      `name` popped. */
  lemma MergeValuesSpec(pid: Value, items: seq<Value>, j: nat, acc: seq<Entry>)
    requires j <= |items|
    ensures MergeValues(pid, items, j, acc).Ok? <==> Named(items, j)
    ensures MergeValues(pid, items, j, acc).Ok? ==>
      var r := MergeValues(pid, items, j, acc).value;
      (forall p :: p != pid ==> Get(r, p) == Get(acc, p)) &&
      (j < |items| ==> HasKey(r, pid)) &&
      forall n, m :: LastNamed(items, j, m, n) ==> Get(Inner(r, pid), n) == Some(Dict(Remove(items[m].entries, NameKey)))
  {
    MergeValuesOk(pid, items, j, acc);
    if MergeValues(pid, items, j, acc).Ok? {
      MergeValuesOthers(pid, items, j, acc);
      forall n, m | LastNamed(items, j, m, n)
        ensures Get(Inner(MergeValues(pid, items, j, acc).value, pid), n) == Some(Dict(Remove(items[m].entries, NameKey)))
      {
        MergeValuesLast(pid, items, j, acc, n, m);
      }
    }
  }

  /** The failure half of `MergeValuesSpec`. */
  lemma {:induction false} MergeValuesOk(pid: Value, items: seq<Value>, j: nat, acc: seq<Entry>)
    requires j <= |items|
    ensures MergeValues(pid, items, j, acc).Ok? <==> Named(items, j)
    decreases |items| - j
  {
    if j < |items| && items[j].Dict? && HasKey(items[j].entries, NameKey) {
      var v := items[j];
      var n := Get(v.entries, NameKey).value;
      MergeValuesOk(pid, items, j + 1, Put(acc, pid, Dict(Put(Inner(acc, pid), n, Dict(Remove(v.entries, NameKey))))));
      assert Named(items, j) <==> Named(items, j + 1);
    } else if j < |items| {
      assert !Named(items, j);
    }
  }

  /** Merging touches no other parent, and holds the parent once it has a value. */
  lemma {:induction false} MergeValuesOthers(pid: Value, items: seq<Value>, j: nat, acc: seq<Entry>)
    requires j <= |items| && MergeValues(pid, items, j, acc).Ok?
    ensures var r := MergeValues(pid, items, j, acc).value;
      (forall p :: p != pid ==> Get(r, p) == Get(acc, p)) && (j < |items| ==> HasKey(r, pid))
    decreases |items| - j
  {
    if j < |items| {
      var v := items[j];
      var n := Get(v.entries, NameKey).value;
      MergeValuesOthers(pid, items, j + 1, Put(acc, pid, Dict(Put(Inner(acc, pid), n, Dict(Remove(v.entries, NameKey))))));
    }
  }

  /** Under the parent, a name holds the last value so named, with `name` popped. */
  lemma {:induction false} MergeValuesLast(pid: Value, items: seq<Value>, j: nat, acc: seq<Entry>, n: Value, m: int)
    requires j <= |items| && MergeValues(pid, items, j, acc).Ok? && LastNamed(items, j, m, n)
    ensures Get(Inner(MergeValues(pid, items, j, acc).value, pid), n) == Some(Dict(Remove(items[m].entries, NameKey)))
    decreases |items| - j
  {
    var v := items[j];
    var k := Get(v.entries, NameKey).value;
    var next := Put(acc, pid, Dict(Put(Inner(acc, pid), k, Dict(Remove(v.entries, NameKey)))));
    if m > j {
      assert LastNamed(items, j + 1, m, n);
      MergeValuesLast(pid, items, j + 1, next, n, m);
    } else {
      MergeKeepsNames(pid, items, j + 1, next, n);
    }
  }

  /** A name no later value carries keeps what the parent's dict holds for it. */
  lemma {:induction false} MergeKeepsNames(pid: Value, items: seq<Value>, j: nat, acc: seq<Entry>, n: Value)
    requires j <= |items| && MergeValues(pid, items, j, acc).Ok?
    requires forall l :: j <= l < |items| ==> !(items[l].Dict? && Get(items[l].entries, NameKey) == Some(n))
    ensures Get(Inner(MergeValues(pid, items, j, acc).value, pid), n) == Get(Inner(acc, pid), n)
    decreases |items| - j
  {
    if j < |items| {
      var v := items[j];
      var m := Get(v.entries, NameKey).value;
      var next := Put(acc, pid, Dict(Put(Inner(acc, pid), m, Dict(Remove(v.entries, NameKey)))));
      MergeKeepsNames(pid, items, j + 1, next, n);
    }
  }

  /** A merge keeps every parent it had and adds exactly the parents of the pairs. */
  lemma {:induction false} MergeAllParents(ys: seq<Yield>, k: nat, acc: seq<Entry>)
    requires k <= |ys| && MergeAll(ys, k, acc).Ok?
    ensures forall p :: HasKey(MergeAll(ys, k, acc).value, p) <==>
      HasKey(acc, p) || exists m :: k <= m < |ys| && ys[m].parentId == p
    decreases |ys| - k
  {
    if k < |ys| {
      var y := ys[k];
      var start := if HasKey(acc, y.parentId) then acc else Put(acc, y.parentId, Dict([]));
      var items := Iterated(y.nested).value;
      MergeValuesSpec(y.parentId, items, 0, start);
      var next := MergeYield(y, acc).value;
      MergeAllParents(ys, k + 1, next);
      forall p ensures HasKey(MergeAll(ys, k, acc).value, p) <==>
        HasKey(acc, p) || exists m :: k <= m < |ys| && ys[m].parentId == p
      {
        if exists m :: k <= m < |ys| && ys[m].parentId == p {
          var m :| k <= m < |ys| && ys[m].parentId == p;
          if m > k {
            assert exists m' :: k + 1 <= m' < |ys| && ys[m'].parentId == p;
          }
        }
        if exists m :: k + 1 <= m < |ys| && ys[m].parentId == p {
          var m :| k + 1 <= m < |ys| && ys[m].parentId == p;
          assert k <= m < |ys| && ys[m].parentId == p;
        }
      }
    }
  }

  /** The loop over the values of one pair. */
  method MergePair(y: Yield, acc: seq<Entry>) returns (r: Result<seq<Entry>>)
    ensures r == MergeYield(y, acc)
  {
    var results := acc;
    if !HasKey(results, y.parentId) {
      results := Put(results, y.parentId, Dict([]));
    }
    var values := Iterated(y.nested);
    if values.Err? {
      return Err(values.error);
    }
    var items := values.value;
    ghost var start := results;
    for j := 0 to |items|
      invariant MergeValues(y.parentId, items, j, results) == MergeValues(y.parentId, items, 0, start)
    {
      var v := items[j];
      if v.List? {
        return Err(TypeError);
      }
      if !v.Dict? {
        return Err(AttributeError);
      }
      if !HasKey(v.entries, NameKey) {
        return Err(KeyError);
      }
      var n := Get(v.entries, NameKey).value;
      results := Put(results, y.parentId, Dict(Put(Inner(results, y.parentId), n, Dict(Remove(v.entries, NameKey)))));
    }
    r := Ok(results);
  }

  /** The loop over the pairs a property child yields. */
  method MergePairs(ys: seq<Yield>, acc: seq<Entry>) returns (r: Result<seq<Entry>>)
    ensures r == MergeAll(ys, 0, acc)
  {
    var results := acc;
    for k := 0 to |ys|
      invariant MergeAll(ys, k, results) == MergeAll(ys, 0, acc)
    {
      var next := MergePair(ys[k], results);
      if next.Err? {
        return Err(next.error);
      }
      results := next.value;
    }
    r := Ok(results);
  }

  /** A dict of parents, each holding a dict of properties, with one entry per parent. */
  predicate Buckets(acc: seq<Entry>)
  {
    UniqueKeys(acc) && forall e :: e in acc ==> e.val.Dict?
  }

  /** Merging values keeps one dict entry per parent. */
  lemma {:induction false} MergeValuesBuckets(pid: Value, items: seq<Value>, j: nat, acc: seq<Entry>)
    requires j <= |items| && Buckets(acc) && MergeValues(pid, items, j, acc).Ok?
    ensures Buckets(MergeValues(pid, items, j, acc).value)
    decreases |items| - j
  {
    if j < |items| {
      var v := items[j];
      var n := Get(v.entries, NameKey).value;
      var next := Put(acc, pid, Dict(Put(Inner(acc, pid), n, Dict(Remove(v.entries, NameKey)))));
      PutBuckets(acc, pid, Put(Inner(acc, pid), n, Dict(Remove(v.entries, NameKey))));
      MergeValuesBuckets(pid, items, j + 1, next);
    }
  }

  lemma PutBuckets(acc: seq<Entry>, pid: Value, d: seq<Entry>)
    requires Buckets(acc)
    ensures Buckets(Put(acc, pid, Dict(d)))
  {
    PutKeepsUnique(acc, pid, Dict(d));
    PutEntries(acc, pid, Dict(d));
    forall e | e in Put(acc, pid, Dict(d)) ensures e.val.Dict? {
      if e.key == pid {
        InGet(Put(acc, pid, Dict(d)), e);
        PutUniqueEntry(acc, pid, Dict(d), e);
      }
    }
  }

  /** In a dict with unique keys the entry for `k` is the one `Get` finds. */
  lemma PutUniqueEntry(acc: seq<Entry>, k: Value, v: Value, e: Entry)
    requires UniqueKeys(acc) && e in Put(acc, k, v) && e.key == k
    ensures e.val == v
  {
    PutKeepsUnique(acc, k, v);
    var r := Put(acc, k, v);
    var i :| 0 <= i < |r| && r[i] == e;
    GetAt(r, i);
  }

  /** Merging pairs keeps one dict entry per parent. */
  lemma {:induction false} MergeAllBuckets(ys: seq<Yield>, k: nat, acc: seq<Entry>)
    requires k <= |ys| && Buckets(acc) && MergeAll(ys, k, acc).Ok?
    ensures Buckets(MergeAll(ys, k, acc).value)
    decreases |ys| - k
  {
    if k < |ys| {
      var y := ys[k];
      var start := if HasKey(acc, y.parentId) then acc else Put(acc, y.parentId, Dict([]));
      if !HasKey(acc, y.parentId) {
        PutBuckets(acc, y.parentId, []);
      }
      MergeValuesBuckets(y.parentId, Iterated(y.nested).value, 0, start);
      MergeAllBuckets(ys, k + 1, MergeYield(y, acc).value);
    }
  }
}
