/** Query normalisation in grano/ql/query.py: the `patch_node` overrides, `expand_query`
    and the defaulting done by `PropertiesQuery.__init__`. Each rule is a function from
    a node's element to its new element (or the exception raised); the methods below
    perform the same steps on a `QueryNode` in place. */
module Normalize {
  import opened PyValue
  import opened Parser
  import opened Registry

  /** `t` occurs in `s` as a contiguous substring. */
  predicate IsSubstring(t: string, s: string)
  {
    exists i :: 0 <= i <= |s| && t <= s[i..]
  }

  /** Python's `k in c`: a key test on a dict, membership on a list, a substring
      test on a string; other values are not iterable. */
  function Contains(c: Value, k: Value): Result<bool>
  {
    match c
    case Dict(d) => Ok(HasKey(d, k))
    case List(items) => Ok(k in items)
    case Str(s) => if k.Str? then Ok(IsSubstring(k.s, s)) else Err(TypeError)
    case _ => Err(TypeError)
  }

  /** The shorthand of `ProjectQuery`, `AuthorQuery` and `SchemaQuery.patch_node`:
      a bare string stands for a filter on the class's naming field. */
  function PatchShorthand(cls: QueryClass, el: Value): Result<Value>
  {
    match Shorthand(cls)
    case Some(f) =>
      if ShapeOf(el).Str? then UpdatedEl(el, Dict([Entry(Str(f), ShapeOf(el))])) else Ok(el)
    case None => Ok(el)
  }

  /** The loop of `expand_query` that adds every missing default field as `None`. */
  function AddDefaults(d: seq<Entry>, fs: seq<string>): seq<Entry>
  {
    if fs == [] then d
    else
      var r := AddDefaults(d, fs[..|fs| - 1]);
      var f := Str(fs[|fs| - 1]);
      if HasKey(r, f) then r else Put(r, f, Null)
  }

  /** The loop of `PropertyQuery.patch_node` that copies a filter value into each of
      the first `n` typed columns whose type it has. */
  function MoveTyped(d: seq<Entry>, v: Value, n: nat): seq<Entry>
    requires n <= |ValueColumns|
  {
    if n == 0 then d
    else
      var r := MoveTyped(d, v, n - 1);
      if IsInstance(v, ValueColumns[n - 1].1) then Put(r, Str(ValueColumns[n - 1].0), v) else r
  }

  /** The dict `dict([(d, None) for d in default_fields])` of a property query. */
  function NullDict(fs: seq<string>): seq<Entry>
  {
    if fs == [] then [] else NullDict(fs[..|fs| - 1]) + [Entry(Str(fs[|fs| - 1]), Null)]
  }

  /** The dict-shaped steps of `PropertyQuery.patch_node`: move a non-`None` `value`
      into its typed columns, then set `name` and `active`. */
  function PatchPropertyEntries(name: Value, d: seq<Entry>): seq<Entry>
  {
    var moved :=
      match Get(d, ValueKey)
      case Some(v) => if v != Null then MoveTyped(Remove(d, ValueKey), v, |ValueColumns|) else d
      case None => d;
    var named := Put(moved, NameKey, if name == Star then Null else name);
    Put(named, ActiveKey, Bool(true))
  }

  /** `PropertyQuery.patch_node` for the property named `name`. */
  function PatchProperty(cls: QueryClass, name: Value, el: Value): Result<Value>
  {
    var e1 :- if ShapeOf(el).Str? then UpdatedEl(el, Dict([Entry(ValueKey, ShapeOf(el))])) else Ok(el);
    var e2 :- if ShapeOf(e1) == Null then UpdatedEl(e1, Dict(NullDict(Defaults(cls)))) else Ok(e1);
    var sh := ShapeOf(e2);
    if sh.Dict? then Ok(WithShape(e2, Dict(PatchPropertyEntries(name, sh.entries))))
    else Err(AttributeError)   // `node.value.get` on a value that is not a dict
  }

  /** `patch_node`, as overridden by the query class. */
  function Patch(cls: QueryClass, name: Value, el: Value): Result<Value>
  {
    if IsProperty(cls) then PatchProperty(cls, name, el) else PatchShorthand(cls, el)
  }

  /** The first dict step of `expand_query`: pop `*`, expanding it into the defaults
      when it was `None`. */
  function PopStar(cls: QueryClass, d: seq<Entry>): seq<Entry>
  {
    if HasKey(d, Star) then
      var rest := Remove(d, Star);
      if Get(d, Star).value == Null then AddDefaults(rest, Defaults(cls)) else rest
    else d
  }

  /** The dict-shaped steps of `expand_query`: `PopStar`, then make sure `id` is a key. */
  function ExpandEntries(cls: QueryClass, d: seq<Entry>): seq<Entry>
  {
    var d1 := PopStar(cls, d);
    if HasKey(d1, IdKey) then d1 else Put(d1, IdKey, Null)
  }

  /** Lines 69-74 of `expand_query` on an element whose value is not `None`. A value
      that is not a dict only gets through when it is a list or string that holds
      `"id"` and not `"*"`. */
  function ExpandShape(cls: QueryClass, e: Value): Result<Value>
  {
    var sh := ShapeOf(e);
    if sh.Dict? then Ok(WithShape(e, Dict(ExpandEntries(cls, sh.entries))))
    else
      var star :- Contains(sh, Star);
      if star then Err(if sh.List? then TypeError else AttributeError)   // `pop` of a list or string
      else
        var hasId :- Contains(sh, IdKey);
        if hasId then Ok(e) else Err(TypeError)   // item assignment on a list or string
  }

  /** `expand_query(name, node)` on the node's element: patch, turn `None` into
      `{'*': None}` (by `update`), then expand. */
  function Expand(cls: QueryClass, name: Value, el: Value): Result<Value>
  {
    var e1 :- Patch(cls, name, el);
    var e2 :- if ShapeOf(e1) == Null then UpdatedEl(e1, Dict([Entry(Star, Null)])) else Ok(e1);
    ExpandShape(cls, e2)
  }

  /** The defaulting in `PropertiesQuery.__init__`: a `None` or empty block asks for
      every property; values without a length raise. */
  function NormalizeProperties(el: Value): Result<Value>
  {
    var len :- BlockLength(ShapeOf(el));
    if len == 0 then UpdatedEl(el, Dict([Entry(Star, Null)])) else Ok(el)
  }

  /** `node.value is None or not len(node.value)`, as the length that decides it: `None`
      counts as empty, and a value without a length raises TypeError. */
  function BlockLength(sh: Value): Result<nat>
  {
    match sh
    case Null => Ok(0)
    case Dict(d) => Ok(|d|)
    case List(items) => Ok(|items|)
    case Str(s) => Ok(|s|)
    case _ => Err(TypeError)
  }

  // ---------------------------------------------------------------------------
  // Properties of the dict operations used above

  /** Adding defaults adds exactly the missing ones, as `None`, and keeps the rest. */
  lemma {:induction false} AddDefaultsSpec(d: seq<Entry>, fs: seq<string>)
    ensures forall f :: f in fs ==> HasKey(AddDefaults(d, fs), Str(f))
    ensures forall k :: HasKey(d, k) ==> Get(AddDefaults(d, fs), k) == Get(d, k)
    ensures forall k :: HasKey(AddDefaults(d, fs), k) && !HasKey(d, k) ==>
      Get(AddDefaults(d, fs), k) == Some(Null) && k.Str? && k.s in fs
    ensures UniqueKeys(d) ==> UniqueKeys(AddDefaults(d, fs))
  {
    if fs != [] {
      var init := fs[..|fs| - 1];
      AddDefaultsSpec(d, init);
      var r := AddDefaults(d, init);
      var f := Str(fs[|fs| - 1]);
      if !HasKey(r, f) && UniqueKeys(r) {
        PutKeepsUnique(r, f, Null);
      }
      assert forall g :: g in fs ==> g in init || g == fs[|fs| - 1];
    }
  }

  /** The typed copy sets exactly the columns whose type the value has. */
  lemma {:induction false} MoveTypedSpec(d: seq<Entry>, v: Value, n: nat)
    requires n <= |ValueColumns|
    ensures forall i :: 0 <= i < n && IsInstance(v, ValueColumns[i].1) ==>
      Get(MoveTyped(d, v, n), Str(ValueColumns[i].0)) == Some(v)
    ensures forall k :: !(exists i :: 0 <= i < n && IsInstance(v, ValueColumns[i].1) && k == Str(ValueColumns[i].0)) ==>
      Get(MoveTyped(d, v, n), k) == Get(d, k)
    ensures UniqueKeys(d) ==> UniqueKeys(MoveTyped(d, v, n))
  {
    if n > 0 {
      MoveTypedSpec(d, v, n - 1);
      var r := MoveTyped(d, v, n - 1);
      if IsInstance(v, ValueColumns[n - 1].1) && UniqueKeys(r) {
        PutKeepsUnique(r, Str(ValueColumns[n - 1].0), v);
      }
      forall i | 0 <= i < n && IsInstance(v, ValueColumns[i].1)
        ensures Get(MoveTyped(d, v, n), Str(ValueColumns[i].0)) == Some(v)
      {
        if i < n - 1 {
          assert ValueColumns[i].0 != ValueColumns[n - 1].0;
        }
      }
    }
  }

  // ---------------------------------------------------------------------------
  // Properties of `expand_query` and `patch_node`

  /** After `expand_query` the node's value is a dict without `*` and with `id`; the
      only other outcome that does not raise is a list or string that already holds
      `"id"` and not `"*"`, which is left as it is. */
  lemma ExpandNormalizes(cls: QueryClass, name: Value, el: Value)
    requires Expand(cls, name, el).Ok?
    ensures var sh := ShapeOf(Expand(cls, name, el).value);
      && (sh.Dict? ==> !HasKey(sh.entries, Star) && HasKey(sh.entries, IdKey))
      && (!sh.Dict? ==> (sh.List? || sh.Str?) && Contains(sh, Star) == Ok(false) && Contains(sh, IdKey) == Ok(true))
  {
    var e1 := Patch(cls, name, el).value;
    var e2 := if ShapeOf(e1) == Null then UpdatedEl(e1, Dict([Entry(Star, Null)])).value else e1;
    assert Expand(cls, name, el) == ExpandShape(cls, e2);
    ExpandShapeNormalizes(cls, e2);
  }

  lemma ExpandShapeNormalizes(cls: QueryClass, e: Value)
    requires ExpandShape(cls, e).Ok?
    ensures var sh := ShapeOf(ExpandShape(cls, e).value);
      && (sh.Dict? ==> !HasKey(sh.entries, Star) && HasKey(sh.entries, IdKey))
      && (!sh.Dict? ==> (sh.List? || sh.Str?) && Contains(sh, Star) == Ok(false) && Contains(sh, IdKey) == Ok(true))
  {
    var sh := ShapeOf(e);
    if sh.Dict? {
      ExpandEntriesSpec(cls, sh.entries);
      assert e != List([]);
      WithShapeShapeOf(e);
    }
  }

  /** No default field is spelt `*`. */
  lemma StarNotDefault(cls: QueryClass)
    ensures forall f :: f in Defaults(cls) ==> Str(f) != Star
  {
  }

  /** Popping the wildcard removes `*`, adds the defaults when it was `None` and
      keeps the caller's other entries. */
  lemma PopStarSpec(cls: QueryClass, d: seq<Entry>)
    ensures var r := PopStar(cls, d);
      && !HasKey(r, Star)
      && (Get(d, Star) == Some(Null) ==> forall f :: f in Defaults(cls) ==> HasKey(r, Str(f)))
      && (forall k :: k != Star && HasKey(d, k) ==> Get(r, k) == Get(d, k))
      && (forall k :: HasKey(r, k) && !HasKey(d, k) ==>
            Get(r, k) == Some(Null) && Get(d, Star) == Some(Null) && k.Str? && k.s in Defaults(cls))
      && (UniqueKeys(d) ==> UniqueKeys(r))
  {
    if HasKey(d, Star) {
      var rest := Remove(d, Star);
      if UniqueKeys(d) { RemoveKeepsUnique(d, Star); }
      if Get(d, Star).value == Null {
        AddDefaultsSpec(rest, Defaults(cls));
        StarNotDefault(cls);
      }
    }
  }

  /** The dict steps of `expand_query`: no `*`, an `id`, every default when `*` was
      `None`, the caller's other entries unchanged, and nothing else added but `None`s
      for `id` and the defaults. */
  lemma ExpandEntriesSpec(cls: QueryClass, d: seq<Entry>)
    ensures var r := ExpandEntries(cls, d);
      && !HasKey(r, Star)
      && HasKey(r, IdKey)
      && (Get(d, Star) == Some(Null) ==> forall f :: f in Defaults(cls) ==> HasKey(r, Str(f)))
      && (forall k :: k != Star && HasKey(d, k) ==> Get(r, k) == Get(d, k))
      && (forall k :: HasKey(r, k) && !HasKey(d, k) ==>
            Get(r, k) == Some(Null) && (k == IdKey || (Get(d, Star) == Some(Null) && k.Str? && k.s in Defaults(cls))))
      && (UniqueKeys(d) ==> UniqueKeys(r))
  {
    PopStarSpec(cls, d);
    var d1 := PopStar(cls, d);
    if !HasKey(d1, IdKey) && UniqueKeys(d1) { PutKeepsUnique(d1, IdKey, Null); }
  }

  /** A bare string becomes a filter on the class's naming field, for the three
      classes that have one; every other value passes `patch_node` untouched. */
  lemma ShorthandPatch(cls: QueryClass, el: Value)
    ensures Shorthand(cls).None? || !ShapeOf(el).Str? ==> PatchShorthand(cls, el) == Ok(el)
    ensures Shorthand(cls).Some? && ShapeOf(el).Str? ==>
      PatchShorthand(cls, el) == Ok(WithShape(el, Dict([Entry(Str(Shorthand(cls).value), ShapeOf(el))])))
    ensures Shorthand(Project) == Some("slug") && Shorthand(Author) == Some("login")
    ensures Shorthand(Schema) == Some("name") && Shorthand(Schemata) == Some("name")
  {
  }

  /** No shorthand field is `*` or `id`. */
  lemma ShorthandNotSpecial(cls: QueryClass)
    requires Shorthand(cls).Some?
    ensures Str(Shorthand(cls).value) != Star && Str(Shorthand(cls).value) != IdKey
  {
  }

  /** A one-entry dict without `*` or `id` gains only `id`. */
  lemma ExpandSingleton(cls: QueryClass, f: Value, v: Value)
    requires f != Star && f != IdKey
    ensures ExpandEntries(cls, [Entry(f, v)]) == [Entry(f, v), Entry(IdKey, Null)]
  {
    var d := [Entry(f, v)];
    assert d[1..] == [];
    assert Get(d, Star) == None && Get(d, IdKey) == None;
    assert Put(d, IdKey, Null) == [d[0]] + Put(d[1..], IdKey, Null);
  }

  /** End to end, `"s"` for a project query is normalised to `{'slug': "s", 'id': None}`
      (and likewise for the other shorthand classes). */
  lemma ShorthandExpands(cls: QueryClass, name: Value, el: Value)
    requires Shorthand(cls).Some? && ShapeOf(el).Str?
    ensures Expand(cls, name, el) ==
      Ok(WithShape(el, Dict([Entry(Str(Shorthand(cls).value), ShapeOf(el)), Entry(IdKey, Null)])))
  {
    var f := Str(Shorthand(cls).value);
    ShorthandNotSpecial(cls);
    ExpandSingleton(cls, f, ShapeOf(el));
    var d := [Entry(f, ShapeOf(el))];
    ShorthandPatch(cls, el);
    assert !IsProperty(cls);
    assert Patch(cls, name, el) == Ok(WithShape(el, Dict(d)));
    WithShapeTwice(el, Dict(d), Dict(ExpandEntries(cls, d)));
    ExpandPatchedDict(cls, name, el, WithShape(el, Dict(d)));
  }

  /** When `patch_node` leaves a dict, `expand_query` performs its dict steps on it. */
  lemma ExpandPatchedDict(cls: QueryClass, name: Value, el: Value, e1: Value)
    requires Patch(cls, name, el) == Ok(e1) && ShapeOf(e1).Dict?
    ensures Expand(cls, name, el) == Ok(WithShape(e1, Dict(ExpandEntries(cls, ShapeOf(e1).entries))))
  {
    assert ShapeOf(e1) != Null;
  }

  /** The wildcard on a `None` node: `expand_query` turns `None` into exactly the
      class's defaults plus `id`, all `None`. */
  lemma ExpandNull(cls: QueryClass, name: Value)
    requires !IsProperty(cls)
    ensures Expand(cls, name, Null) == Ok(Dict(ExpandEntries(cls, [Entry(Star, Null)])))
    ensures forall f :: f in Defaults(cls) ==> HasKey(Expand(cls, name, Null).value.entries, Str(f))
    ensures Expand(cls, name, List([])) == Err(IndexError)
  {
    ExpandEntriesSpec(cls, [Entry(Star, Null)]);
  }

  /** The typed columns are five distinct keys, none of them `value`, `name` or `active`. */
  lemma ColumnsDistinct()
    ensures forall i, j :: 0 <= i < j < |ValueColumns| ==> Str(ValueColumns[i].0) != Str(ValueColumns[j].0)
    ensures forall i :: 0 <= i < |ValueColumns| ==>
      Str(ValueColumns[i].0) != ValueKey && Str(ValueColumns[i].0) != NameKey && Str(ValueColumns[i].0) != ActiveKey
    ensures NameKey != ActiveKey && ValueKey != NameKey && ValueKey != ActiveKey
  {
  }

  /** The typed copy leaves every column it does not set, and every other key, alone. */
  lemma {:induction false} MoveTypedKeeps(d: seq<Entry>, v: Value, n: nat)
    requires n <= |ValueColumns|
    ensures forall i :: 0 <= i < |ValueColumns| && !(i < n && IsInstance(v, ValueColumns[i].1)) ==>
      Get(MoveTyped(d, v, n), Str(ValueColumns[i].0)) == Get(d, Str(ValueColumns[i].0))
    ensures forall k :: !IsValueColumn(k) ==> Get(MoveTyped(d, v, n), k) == Get(d, k)
  {
    if n > 0 {
      MoveTypedKeeps(d, v, n - 1);
      ColumnsDistinct();
    }
  }

  /** The dict steps of `PropertyQuery.patch_node`: `active` is `True`, `name` is the
      property's name (`None` for `*`), and a non-`None` `value` is moved into exactly
      the typed columns whose Python type it has; nothing else changes. */
  lemma PatchPropertyEntriesSpec(name: Value, d: seq<Entry>)
    ensures var r := PatchPropertyEntries(name, d);
      && Get(r, ActiveKey) == Some(Bool(true))
      && Get(r, NameKey) == Some(if name == Star then Null else name)
      && (match Get(d, ValueKey)
          case Some(v) =>
            v != Null ==>
              && !HasKey(r, ValueKey)
              && (forall i :: 0 <= i < |ValueColumns| ==>
                    Get(r, Str(ValueColumns[i].0)) ==
                      if IsInstance(v, ValueColumns[i].1) then Some(v) else Get(d, Str(ValueColumns[i].0)))
          case None => true)
      && (Get(d, ValueKey).None? || Get(d, ValueKey) == Some(Null) ==>
            forall k :: k != NameKey && k != ActiveKey ==> Get(r, k) == Get(d, k))
      && (forall k :: k != NameKey && k != ActiveKey && k != ValueKey && !IsValueColumn(k) ==> Get(r, k) == Get(d, k))
      && (UniqueKeys(d) ==> UniqueKeys(r))
  {
    ColumnsDistinct();
    var moved :=
      match Get(d, ValueKey)
      case Some(v) => if v != Null then MoveTyped(Remove(d, ValueKey), v, |ValueColumns|) else d
      case None => d;
    if Get(d, ValueKey).Some? && Get(d, ValueKey).value != Null {
      var v := Get(d, ValueKey).value;
      var rest := Remove(d, ValueKey);
      MoveTypedSpec(rest, v, |ValueColumns|);
      MoveTypedKeeps(rest, v, |ValueColumns|);
      assert !IsValueColumn(ValueKey);
      if UniqueKeys(d) { RemoveKeepsUnique(d, ValueKey); }
    }
    var named := Put(moved, NameKey, if name == Star then Null else name);
    if UniqueKeys(moved) {
      PutKeepsUnique(moved, NameKey, if name == Star then Null else name);
      PutKeepsUnique(named, ActiveKey, Bool(true));
    }
  }

  /** The defaults dict of a property query has exactly the default fields as keys,
      each `None`, and no `value` key. */
  lemma {:induction false} NullDictSpec(fs: seq<string>)
    ensures forall k :: HasKey(NullDict(fs), k) <==> k.Str? && k.s in fs
    ensures forall k :: HasKey(NullDict(fs), k) ==> Get(NullDict(fs), k) == Some(Null)
  {
    if fs != [] {
      var init := fs[..|fs| - 1];
      NullDictSpec(init);
      GetAppend(NullDict(init), Entry(Str(fs[|fs| - 1]), Null));
      assert forall g :: g in fs <==> g in init || g == fs[|fs| - 1];
    }
  }

  /** `Get` on a dict with one entry appended. */
  lemma {:induction false} GetAppend(d: seq<Entry>, e: Entry)
    ensures forall k :: Get(d + [e], k) == if HasKey(d, k) then Get(d, k) else if k == e.key then Some(e.val) else None
  {
    if d != [] {
      GetAppend(d[1..], e);
      assert (d + [e])[1..] == d[1..] + [e];
    }
  }

  /** `PropertyQuery.patch_node` by the shape of the node: a dict is patched in place, a
      string `s` stands for `{'value': s}`, `None` for the defaults, anything else raises,
      and an empty list cannot be updated. */
  lemma PatchPropertyCases(cls: QueryClass, name: Value, el: Value)
    requires IsProperty(cls)
    ensures el == List([]) ==> PatchProperty(cls, name, el) == Err(IndexError)
    ensures el != List([]) ==>
      var sh := ShapeOf(el);
      && (sh.Dict? ==> PatchProperty(cls, name, el) == Ok(WithShape(el, Dict(PatchPropertyEntries(name, sh.entries)))))
      && (sh.Str? ==> PatchProperty(cls, name, el) == Ok(WithShape(el, Dict(PatchPropertyEntries(name, [Entry(ValueKey, sh)])))))
      && (sh == Null ==> PatchProperty(cls, name, el) == Ok(WithShape(el, Dict(PatchPropertyEntries(name, NullDict(Defaults(cls)))))))
      && (!sh.Dict? && !sh.Str? && sh != Null ==> PatchProperty(cls, name, el) == Err(AttributeError))
  {
    if el != List([]) {
      var sh := ShapeOf(el);
      if sh.Str? {
        PatchPropertyReplaced(cls, name, el, [Entry(ValueKey, sh)]);
      } else if sh == Null {
        PatchPropertyReplaced(cls, name, el, NullDict(Defaults(cls)));
      }
    }
  }

  /** The string and `None` cases of `PropertyQuery.patch_node`: the node is first
      updated to the dict `d`, which is then patched. */
  lemma PatchPropertyReplaced(cls: QueryClass, name: Value, el: Value, d: seq<Entry>)
    requires IsProperty(cls) && el != List([])
    requires (ShapeOf(el).Str? && d == [Entry(ValueKey, ShapeOf(el))]) || (ShapeOf(el) == Null && d == NullDict(Defaults(cls)))
    ensures PatchProperty(cls, name, el) == Ok(WithShape(el, Dict(PatchPropertyEntries(name, d))))
  {
    var e1 := WithShape(el, Dict(d));
    assert ShapeOf(e1) == Dict(d);
    if ShapeOf(el).Str? {
      assert UpdatedEl(el, Dict([Entry(ValueKey, ShapeOf(el))])) == Ok(e1);
    } else {
      assert UpdatedEl(el, Dict(NullDict(Defaults(cls)))) == Ok(e1);
    }
    assert WithShape(e1, Dict(PatchPropertyEntries(name, d))) == WithShape(el, Dict(PatchPropertyEntries(name, d)));
  }

  /** A bare string property filter `s` becomes exactly
      `{'value_string': s, 'name': ..., 'active': True}`. */
  lemma PatchPropertyString(name: Value, s: string)
    ensures PatchPropertyEntries(name, [Entry(ValueKey, Str(s))]) ==
      [Entry(Str(StringColumn), Str(s)), Entry(NameKey, if name == Star then Null else name), Entry(ActiveKey, Bool(true))]
  {
    var d := [Entry(ValueKey, Str(s))];
    assert d[1..] == [];
    assert Remove(d, ValueKey) == [];
    var m := [Entry(Str(StringColumn), Str(s))];
    assert MoveTyped([], Str(s), 1) == m;
    assert MoveTyped([], Str(s), 2) == m;
    assert MoveTyped([], Str(s), 3) == m;
    assert MoveTyped([], Str(s), 4) == m;
    assert MoveTyped([], Str(s), 5) == m;
    ColumnsDistinct();
    assert m[1..] == [];
    var n := Entry(NameKey, if name == Star then Null else name);
    assert Put(m, NameKey, n.val) == m + [n];
    var mn := m + [n];
    assert mn[1..] == [n] && [n][1..] == [];
    var a := Entry(ActiveKey, Bool(true));
    assert Put([n], ActiveKey, a.val) == [n, a];
    assert Put(mn, ActiveKey, a.val) == [mn[0]] + Put([n], ActiveKey, a.val);
  }

  /** A boolean filter value matches both `value_integer` (Python 2's `bool` is an
      `int`) and `value_boolean`, and no other typed column. */
  lemma PatchPropertyBool(name: Value, d: seq<Entry>, b: bool)
    requires Get(d, ValueKey) == Some(Bool(b))
    ensures var r := PatchPropertyEntries(name, d);
      && Get(r, Str(IntegerColumn)) == Some(Bool(b))
      && Get(r, Str(BooleanColumn)) == Some(Bool(b))
      && Get(r, Str(StringColumn)) == Get(d, Str(StringColumn))
      && Get(r, Str(FloatColumn)) == Get(d, Str(FloatColumn))
      && Get(r, Str(DateTimeColumn)) == Get(d, Str(DateTimeColumn))
  {
    ColumnNames();
    assert IsInstance(Bool(b), IntegerType) && IsInstance(Bool(b), BooleanType) && !IsInstance(Bool(b), FloatType);
    PatchPropertyColumn(name, d, Bool(b), 0, StringColumn, StringType);
    PatchPropertyColumn(name, d, Bool(b), 1, DateTimeColumn, DateTimeType);
    PatchPropertyColumn(name, d, Bool(b), 2, IntegerColumn, IntegerType);
    PatchPropertyColumn(name, d, Bool(b), 3, FloatColumn, FloatType);
    PatchPropertyColumn(name, d, Bool(b), 4, BooleanColumn, BooleanType);
  }

  /** A filter value that is a `long` has no typed column: `value` is popped and every
      typed column is left as it was. */
  lemma PatchPropertyLong(name: Value, d: seq<Entry>, i: int)
    requires Get(d, ValueKey) == Some(Int(i)) && !IsMachineInt(i)
    ensures var r := PatchPropertyEntries(name, d);
      && !HasKey(r, ValueKey)
      && forall m :: 0 <= m < |ValueColumns| ==> Get(r, Str(ValueColumns[m].0)) == Get(d, Str(ValueColumns[m].0))
  {
    PatchPropertyEntriesSpec(name, d);
    forall m | 0 <= m < |ValueColumns|
      ensures !IsInstance(Int(i), ValueColumns[m].1)
    {
      ColumnNames();
    }
  }

  /** The typed column `i` after a non-null `value` has been moved. */
  lemma PatchPropertyColumn(name: Value, d: seq<Entry>, v: Value, i: nat, col: string, t: ColumnType)
    requires Get(d, ValueKey) == Some(v) && v != Null && i < |ValueColumns| && ValueColumns[i] == (col, t)
    ensures Get(PatchPropertyEntries(name, d), Str(col)) == if IsInstance(v, t) then Some(v) else Get(d, Str(col))
  {
    PatchPropertyEntriesSpec(name, d);
  }

  lemma ColumnNames()
    ensures ValueColumns[0] == (StringColumn, StringType) && ValueColumns[1] == (DateTimeColumn, DateTimeType)
    ensures ValueColumns[2] == (IntegerColumn, IntegerType) && ValueColumns[3] == (FloatColumn, FloatType)
    ensures ValueColumns[4] == (BooleanColumn, BooleanType)
  {
  }

  /** The properties block of a query: `None` and empty values ask for `{'*': None}`,
      non-empty ones are kept, and values without a length raise. */
  lemma NormalizePropertiesCases(el: Value)
    ensures var sh := ShapeOf(el);
      && (el == List([]) ==> NormalizeProperties(el) == Err(IndexError))
      && (el != List([]) && (sh == Null || sh == Dict([]) || sh == List([]) || sh == Str([])) ==>
            NormalizeProperties(el) == Ok(WithShape(el, Dict([Entry(Star, Null)]))))
      && ((sh.Dict? && sh.entries != []) || (sh.List? && sh.items != []) || (sh.Str? && sh.s != []) ==>
            NormalizeProperties(el) == Ok(el))
      && (sh.Bool? || sh.Int? || sh.Float? || sh.DateTime? ==> NormalizeProperties(el) == Err(TypeError))
  {
  }

  // ---------------------------------------------------------------------------
  // The code as written: `QueryNode.value` is a read-only property

  /** `patch_node` as written: the shorthand and the property defaults assign to
      `node.value`, which has no setter and raises AttributeError. */
  function PatchAsWritten(cls: QueryClass, name: Value, el: Value): Result<Value>
  {
    var sh := ShapeOf(el);
    if IsProperty(cls) then
      if sh.Str? || sh == Null then Err(AttributeError)
      else if sh.Dict? then Ok(WithShape(el, Dict(PatchPropertyEntries(name, sh.entries))))
      else Err(AttributeError)
    else if Shorthand(cls).Some? && sh.Str? then Err(AttributeError)
    else Ok(el)
  }

  /** `expand_query` as written: `node.value = {'*': None}` raises as well. */
  function ExpandAsWritten(cls: QueryClass, name: Value, el: Value): Result<Value>
  {
    var e1 :- PatchAsWritten(cls, name, el);
    if ShapeOf(e1) == Null then Err(AttributeError) else ExpandShape(cls, e1)
  }

  /** As written, every nested object that is asked for with `None` (so every default
      `project` of a `*` query), and every shorthand string, raises; with the
      assignment made through `update` the same nodes normalise. */
  lemma AssignToValueRaises(cls: QueryClass, name: Value, s: string)
    requires !IsProperty(cls)
    ensures ExpandAsWritten(cls, name, Null) == Err(AttributeError)
    ensures Expand(cls, name, Null).Ok?
    ensures Shorthand(cls).Some? ==> ExpandAsWritten(cls, name, Str(s)) == Err(AttributeError)
    ensures Shorthand(cls).Some? ==> Expand(cls, name, Str(s)).Ok?
  {
    ExpandNull(cls, name);
    if Shorthand(cls).Some? { ShorthandExpands(cls, name, Str(s)); }
  }

  /** Where `update` is not involved the two agree. */
  lemma AsWrittenAgreesOtherwise(cls: QueryClass, name: Value, el: Value)
    requires ShapeOf(el).Dict?
    ensures ExpandAsWritten(cls, name, el) == Expand(cls, name, el)
  {
  }

  /** `PropertiesQuery.__init__` as written: `node.value = {'*': None}` raises. */
  function NormalizePropertiesAsWritten(el: Value): Result<Value>
  {
    var len :- BlockLength(ShapeOf(el));
    if len == 0 then Err(AttributeError) else Ok(el)
  }

  /** As written, every `None` or empty properties block raises, an empty list among
      them, where `update` asks for every property (and raises IndexError only on an
      empty list); every other block is treated alike by both. */
  lemma PropertiesAssignRaises(el: Value)
    ensures BlockLength(ShapeOf(el)) == Ok(0) ==>
      && NormalizePropertiesAsWritten(el) == Err(AttributeError)
      && (el != List([]) ==> NormalizeProperties(el) == Ok(WithShape(el, Dict([Entry(Star, Null)]))))
    ensures BlockLength(ShapeOf(el)) != Ok(0) ==> NormalizePropertiesAsWritten(el) == NormalizeProperties(el)
    ensures NormalizePropertiesAsWritten(Null) == Err(AttributeError)
    ensures NormalizePropertiesAsWritten(Dict([])) == Err(AttributeError)
    ensures NormalizePropertiesAsWritten(List([])) == Err(AttributeError)
    ensures NormalizeProperties(Null) == Ok(Dict([Entry(Star, Null)]))
  {
    if BlockLength(ShapeOf(el)) == Ok(0) && el != List([]) {
      NormalizePropertiesCases(el);
    }
  }

  // ---------------------------------------------------------------------------
  // The same rules performed on a `QueryNode` in place

  /** Building `dict([(d, None) for d in default_fields])`. */
  method MakeNullDict(fs: seq<string>) returns (d: seq<Entry>)
    ensures d == NullDict(fs)
  {
    d := [];
    for i := 0 to |fs|
      invariant d == NullDict(fs[..i])
    {
      assert fs[..i + 1][..i] == fs[..i];
      d := d + [Entry(Str(fs[i]), Null)];
    }
    assert fs[..|fs|] == fs;
  }

  /** The dict steps of `PropertyQuery.patch_node` on `node.value`. */
  method PatchEntriesInPlace(name: Value, d0: seq<Entry>) returns (d: seq<Entry>)
    ensures d == PatchPropertyEntries(name, d0)
  {
    d := d0;
    var obj := Get(d, ValueKey);
    if obj.Some? && obj.value != Null {
      d := Remove(d, ValueKey);
      ghost var rest := d;
      for i := 0 to |ValueColumns|
        invariant d == MoveTyped(rest, obj.value, i)
      {
        if IsInstance(obj.value, ValueColumns[i].1) {
          d := Put(d, Str(ValueColumns[i].0), obj.value);
        }
      }
    }
    d := Put(d, NameKey, if name == Star then Null else name);
    d := Put(d, ActiveKey, Bool(true));
  }

  /** `PropertyQuery.patch_node(node)`. */
  method PatchPropertyNode(cls: QueryClass, name: Value, node: QueryNode) returns (r: Outcome)
    requires IsProperty(cls)
    modifies node
    ensures node.name == old(node.name)
    ensures PatchProperty(cls, name, old(node.el)).Ok? ==> r == Pass && node.el == PatchProperty(cls, name, old(node.el)).value
    ensures PatchProperty(cls, name, old(node.el)).Err? ==> r == Fail(PatchProperty(cls, name, old(node.el)).error)
  {
    ghost var el := node.el;
    r := Pass;
    if node.Value().Str? {
      r := node.Update(Dict([Entry(ValueKey, node.Value())]));
      if r.Fail? { return; }
    }
    ghost var e1 := node.el;
    if node.Value() == Null {
      var defaults := MakeNullDict(Defaults(cls));
      r := node.Update(Dict(defaults));
      if r.Fail? { return; }
    }
    if !node.Value().Dict? {
      return Fail(AttributeError);
    }
    var d := PatchEntriesInPlace(name, node.Value().entries);
    node.el := WithShape(node.el, Dict(d));
  }

  /** `patch_node(node)`, as overridden by the query class. */
  method PatchNode(cls: QueryClass, name: Value, node: QueryNode) returns (r: Outcome)
    modifies node
    ensures node.name == old(node.name)
    ensures Patch(cls, name, old(node.el)).Ok? ==> r == Pass && node.el == Patch(cls, name, old(node.el)).value
    ensures Patch(cls, name, old(node.el)).Err? ==> r == Fail(Patch(cls, name, old(node.el)).error)
  {
    if IsProperty(cls) {
      r := PatchPropertyNode(cls, name, node);
    } else if Shorthand(cls).Some? && node.Value().Str? {
      r := node.Update(Dict([Entry(Str(Shorthand(cls).value), node.Value())]));
    } else {
      r := Pass;
    }
  }

  /** Lines 69-74 of `expand_query` on the dict `node.value`. */
  method ExpandEntriesInPlace(cls: QueryClass, d0: seq<Entry>) returns (d: seq<Entry>)
    ensures d == ExpandEntries(cls, d0)
  {
    d := d0;
    if HasKey(d, Star) {
      var popped := Get(d, Star).value;
      d := Remove(d, Star);
      if popped == Null {
        var fs := Defaults(cls);
        ghost var rest := d;
        for i := 0 to |fs|
          invariant d == AddDefaults(rest, fs[..i])
        {
          assert fs[..i + 1][..i] == fs[..i];
          if !HasKey(d, Str(fs[i])) {
            d := Put(d, Str(fs[i]), Null);
          }
        }
        assert fs[..|fs|] == fs;
      }
    }
    if !HasKey(d, IdKey) {
      d := Put(d, IdKey, Null);
    }
  }

  /** Lines 69-74 of `expand_query` on a node whose value is not `None`. */
  method ExpandShapeNode(cls: QueryClass, node: QueryNode) returns (r: Outcome)
    modifies node
    ensures node.name == old(node.name)
    ensures ExpandShape(cls, old(node.el)).Ok? ==> r == Pass && node.el == ExpandShape(cls, old(node.el)).value
    ensures ExpandShape(cls, old(node.el)).Err? ==> r == Fail(ExpandShape(cls, old(node.el)).error)
  {
    var sh := node.Value();
    if !sh.Dict? {
      var star := Contains(sh, Star);
      if star.Err? { return Fail(star.error); }
      if star.value { return Fail(if sh.List? then TypeError else AttributeError); }
      var hasId := Contains(sh, IdKey);
      if hasId.Err? { return Fail(hasId.error); }
      if !hasId.value { return Fail(TypeError); }
      return Pass;
    }
    var d := ExpandEntriesInPlace(cls, sh.entries);
    node.el := WithShape(node.el, Dict(d));
    r := Pass;
  }

  /** `expand_query(name, node)`. */
  method ExpandQuery(cls: QueryClass, name: Value, node: QueryNode) returns (r: Outcome)
    modifies node
    ensures node.name == old(node.name)
    ensures Expand(cls, name, old(node.el)).Ok? ==> r == Pass && node.el == Expand(cls, name, old(node.el)).value
    ensures Expand(cls, name, old(node.el)).Err? ==> r == Fail(Expand(cls, name, old(node.el)).error)
  {
    r := PatchNode(cls, name, node);
    if r.Fail? { return; }
    if node.Value() == Null {
      r := node.Update(Dict([Entry(Star, Null)]));
      if r.Fail? { return; }
    }
    r := ExpandShapeNode(cls, node);
  }

  /** The defaulting at the start of `PropertiesQuery.__init__`. */
  method NormalizePropertiesNode(node: QueryNode) returns (r: Outcome)
    modifies node
    ensures node.name == old(node.name)
    ensures NormalizeProperties(old(node.el)).Ok? ==> r == Pass && node.el == NormalizeProperties(old(node.el)).value
    ensures NormalizeProperties(old(node.el)).Err? ==> r == Fail(NormalizeProperties(old(node.el)).error)
  {
    var v := node.Value();
    if v.Bool? || v.Int? || v.Float? || v.DateTime? {
      return Fail(TypeError);   // `len` of a value that has none
    }
    if v == Null || (v.Dict? && |v.entries| == 0) || (v.List? && |v.items| == 0) || (v.Str? && |v.s| == 0) {
      r := node.Update(Dict([Entry(Star, Null)]));
    } else {
      r := Pass;
    }
  }
}
