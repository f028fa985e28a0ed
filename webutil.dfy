/** The dotted-path helpers of webif/util.js. `getTree(obj, 'a.b')` collects the
    values at that path below every element of `obj`, and `setTree(obj, 'a.b', v)`
    stores a value there, creating the objects on the way. JavaScript values are
    modelled as values; an object's changes show up in the value the call returns. */
module WebUtil {

  /** JavaScript values; an object's properties are kept in insertion order. */
  datatype Js =
    | Undefined
    | Null
    | Bool(b: bool)
    | Num(n: real)
    | Str(s: string)
    | Arr(items: seq<Js>)
    | Obj(fields: seq<Field>)

  datatype Field = Field(key: string, val: Js)

  /** How a statement completes: normally, or by throwing a TypeError (reading or
      setting a property of `undefined` or `null`). */
  datatype Completion<T> = Normal(value: T) | TypeError {
    predicate IsFailure() { TypeError? }
    function PropagateFailure<U>(): Completion<U> requires TypeError? { TypeError }
    function Extract(): T requires Normal? { value }
  }

  // ---------------------------------------------------------------------------
  // Properties

  /** The value of the property `k`, `undefined` when there is none. */
  function Lookup(fs: seq<Field>, k: string): Js
  {
    if fs == [] then Undefined
    else if fs[0].key == k then fs[0].val
    else Lookup(fs[1..], k)
  }

  /** Setting the property `k`: an existing one keeps its place, a new one goes last. */
  function Assign(fs: seq<Field>, k: string, v: Js): (r: seq<Field>)
    ensures Lookup(r, k) == v
    ensures forall j :: j != k ==> Lookup(r, j) == Lookup(fs, j)
  {
    if fs == [] then [Field(k, v)]
    else if fs[0].key == k then [Field(k, v)] + fs[1..]
    else [fs[0]] + Assign(fs[1..], k, v)
  }

  /** `o[k]`: `undefined` and `null` have no properties; the other values that are not
      objects have none that a path names. */
  function Member(o: Js, k: string): Completion<Js>
  {
    match o
    case Undefined => TypeError
    case Null => TypeError
    case Obj(fs) => Normal(Lookup(fs, k))
    case _ => Normal(Undefined)
  }

  /** `o[k] = v` outside strict mode: an object gets the property, on any other value
      but `undefined` and `null` the assignment is dropped. */
  function Store(o: Js, k: string, v: Js): (r: Completion<Js>)
    ensures r.Normal? <==> !o.Undefined? && !o.Null?
    ensures r.Normal? && o.Obj? ==> r.value.Obj? && Member(r.value, k) == Normal(v)
    ensures r.Normal? && !o.Obj? ==> r.value == o
  {
    match o
    case Undefined => TypeError
    case Null => TypeError
    case Obj(fs) => Normal(Obj(Assign(fs, k, v)))
    case _ => Normal(o)
  }

  // ---------------------------------------------------------------------------
  // Paths

  /** `path.split('.')[0]` */
  function Next(path: string): (r: string)
    ensures '.' !in r && r <= path
  {
    if path == [] || path[0] == '.' then [] else [path[0]] + Next(path[1..])
  }

  /** `path.split('.').slice(1).join('.')`: everything after the first dot. */
  function Rest(path: string): (r: string)
    ensures path != [] ==> |r| < |path|
  {
    if path == [] then [] else if path[0] == '.' then path[1..] else Rest(path[1..])
  }

  /** Splitting a path at its first dot and joining the parts gives it back. */
  lemma {:induction false} PathParts(path: string)
    ensures path == Next(path) + (if '.' in path then "." + Rest(path) else "")
  {
    if path != [] && path[0] != '.' {
      PathParts(path[1..]);
      assert path == [path[0]] + path[1..];
      assert ('.' in path) == ('.' in path[1..]);
    }
  }

  // ---------------------------------------------------------------------------
  // ensureArray

  /** `ensureArray(obj)`: the elements of an array, or the value alone. */
  function EnsureArray(obj: Js): seq<Js>
  {
    if obj.Arr? then obj.items else [obj]
  }

  /** An array's elements are taken as they are and any other value becomes the one
      element; doing it twice changes nothing. */
  lemma EnsureArraySpec(obj: Js)
    ensures obj.Arr? ==> EnsureArray(obj) == obj.items
    ensures !obj.Arr? ==> |EnsureArray(obj)| == 1 && EnsureArray(obj)[0] == obj
    ensures EnsureArray(Arr(EnsureArray(obj))) == EnsureArray(obj)
  {
  }

  // ---------------------------------------------------------------------------
  // getTree

  /** `getTree(obj, path)` */
  function GetTree(obj: Js, path: string): Completion<seq<Js>>
    decreases |path|, 1
  {
    if Next(path) == "" then Normal(EnsureArray(obj))
    else GetAll(EnsureArray(obj), 0, Next(path), Rest(path), [])
  }

  /** The `forEach` of `getTree` from the `i`-th element on, after `acc`: an element
      whose property `next` is defined adds what lies at `rest` below it. */
  function GetAll(items: seq<Js>, i: nat, next: string, rest: string, acc: seq<Js>): Completion<seq<Js>>
    requires i <= |items|
    decreases |rest| + 1, 0, |items| - i
  {
    if i == |items| then Normal(acc)
    else
      var m :- Member(items[i], next);
      if m.Undefined? then GetAll(items, i + 1, next, rest, acc)
      else
        var sub :- GetTree(m, rest);
        GetAll(items, i + 1, next, rest, acc + sub)
  }

  /** The loop goes on from what it has collected. */
  lemma {:induction false} GetAllFrom(items: seq<Js>, i: nat, next: string, rest: string, acc: seq<Js>)
    requires i <= |items|
    ensures GetAll(items, i, next, rest, acc) ==
      match GetAll(items, i, next, rest, [])
      case Normal(r) => Normal(acc + r)
      case TypeError => TypeError
    decreases |items| - i
  {
    if i < |items| {
      var m := Member(items[i], next);
      if m.Normal? {
        if m.value.Undefined? {
          GetAllFrom(items, i + 1, next, rest, acc);
        } else {
          var sub := GetTree(m.value, rest);
          if sub.Normal? {
            GetAllFrom(items, i + 1, next, rest, acc + sub.value);
            GetAllFrom(items, i + 1, next, rest, sub.value);
            assert [] + sub.value == sub.value;
            match GetAll(items, i + 1, next, rest, []) {
              case Normal(r) =>
                assert acc + sub.value + r == acc + (sub.value + r);
              case TypeError =>
            }
          }
        }
      }
    } else {
      assert acc + [] == acc;
    }
  }

  /** On a value that is not an array, `getTree` finds nothing when the value lacks the
      path's first property, and what lies at the rest of the path below it otherwise. */
  lemma GetTreeStep(o: Js, path: string)
    requires !o.Arr? && !o.Undefined? && !o.Null? && Next(path) != ""
    ensures Member(o, Next(path)).Normal?
    ensures Member(o, Next(path)).value.Undefined? ==> GetTree(o, path) == Normal([])
    ensures !Member(o, Next(path)).value.Undefined? ==> GetTree(o, path) == GetTree(Member(o, Next(path)).value, Rest(path))
  {
    var next, rest := Next(path), Rest(path);
    assert EnsureArray(o) == [o];
    assert GetTree(o, path) == GetAll([o], 0, next, rest, []);
    var m := Member(o, next).value;
    if !m.Undefined? {
      match GetTree(m, rest) {
        case Normal(sub) =>
          assert GetAll([o], 1, next, rest, [] + sub) == Normal([] + sub);
          assert [] + sub == sub;
        case TypeError =>
      }
    } else {
      assert [o][0] == o;
      assert GetAll([o], 1, next, rest, []) == Normal([]);
    }
  }

  /** Over an array, `getTree` concatenates, in element order, what it finds below each
      element, and throws when one of them throws. */
  lemma {:induction false} GetTreeConcat(a: seq<Js>, b: seq<Js>, path: string)
    requires Next(path) != ""
    ensures GetTree(Arr(a + b), path) ==
      match GetTree(Arr(a), path)
      case TypeError => TypeError
      case Normal(x) =>
        match GetTree(Arr(b), path)
        case TypeError => TypeError
        case Normal(y) => Normal(x + y)
  {
    GetAllSplit(a, b, 0, Next(path), Rest(path));
  }

  lemma {:induction false} GetAllSplit(a: seq<Js>, b: seq<Js>, i: nat, next: string, rest: string)
    requires i <= |a|
    ensures GetAll(a + b, i, next, rest, []) ==
      match GetAll(a, i, next, rest, [])
      case TypeError => TypeError
      case Normal(x) =>
        match GetAll(b, 0, next, rest, [])
        case TypeError => TypeError
        case Normal(y) => Normal(x + y)
    decreases |a| - i
  {
    if i == |a| {
      GetAllShift(a, b, 0, next, rest, []);
      match GetAll(b, 0, next, rest, []) {
        case Normal(y) => assert [] + y == y;
        case TypeError =>
      }
    } else {
      assert (a + b)[i] == a[i];
      var m := Member(a[i], next);
      if m.Normal? {
        GetAllSplit(a, b, i + 1, next, rest);
        if m.value.Undefined? {
        } else {
          var sub := GetTree(m.value, rest);
          if sub.Normal? {
            assert [] + sub.value == sub.value;
            GetAllFrom(a + b, i + 1, next, rest, sub.value);
            GetAllFrom(a, i + 1, next, rest, sub.value);
            match GetAll(a, i + 1, next, rest, []) {
              case Normal(x) =>
                match GetAll(b, 0, next, rest, []) {
                  case Normal(y) => assert sub.value + (x + y) == (sub.value + x) + y;
                  case TypeError =>
                }
              case TypeError =>
            }
          }
        }
      }
    }
  }

  /** Starting the loop on the elements after `a` is starting it on those elements. */
  lemma {:induction false} GetAllShift(a: seq<Js>, b: seq<Js>, j: nat, next: string, rest: string, acc: seq<Js>)
    requires j <= |b|
    ensures GetAll(a + b, |a| + j, next, rest, acc) == GetAll(b, j, next, rest, acc)
    decreases |b| - j
  {
    if j < |b| {
      assert (a + b)[|a| + j] == b[j];
      var m := Member(b[j], next);
      if m.Normal? {
        if m.value.Undefined? {
          GetAllShift(a, b, j + 1, next, rest, acc);
        } else {
          var sub := GetTree(m.value, rest);
          if sub.Normal? {
            GetAllShift(a, b, j + 1, next, rest, acc + sub.value);
          }
        }
      }
    }
  }

  /** `getTree`, statement by statement, with the `forEach` as a loop. */
  method GetTreeLoop(obj: Js, path: string) returns (r: Completion<seq<Js>>)
    ensures r == GetTree(obj, path)
    decreases |path|, 1
  {
    var next := Next(path);
    var rest := Rest(path);
    var items := EnsureArray(obj);
    if next == "" {
      return Normal(items);
    }
    var result: seq<Js> := [];
    for i := 0 to |items|
      invariant GetAll(items, i, next, rest, result) == GetAll(items, 0, next, rest, [])
    {
      var m := Member(items[i], next);
      if m.TypeError? {
        return TypeError;
      }
      if !m.value.Undefined? {
        var sub := GetTreeLoop(m.value, rest);
        if sub.TypeError? {
          return TypeError;
        }
        result := result + sub.value;
      }
    }
    r := Normal(result);
  }

  // ---------------------------------------------------------------------------
  // setTree

  /** How far the recursion of `setTree` may still go below a level that continues with
      `rest`: an empty rest stops it. */
  function Below(rest: string): nat
  {
    if rest == "" then 0 else |rest| + 1
  }

  /** `setTree(obj, path, value)` with the value passed on to the recursive call: the
      new `obj`. */
  function SetTree(obj: Js, path: string, value: Js): Completion<Js>
    decreases |path|, 1
  {
    var items := EnsureArray(obj);
    var updated :- SetAll(items, 0, Next(path), Rest(path), value, []);
    Normal(if obj.Arr? then Arr(updated) else updated[0])
  }

  /** The `forEach` of `setTree` from the `i`-th element on, after the elements
      already changed. */
  function SetAll(items: seq<Js>, i: nat, next: string, rest: string, value: Js, acc: seq<Js>): (r: Completion<seq<Js>>)
    requires i <= |items|
    ensures r.Normal? ==> |r.value| == |acc| + |items| - i
    decreases Below(rest), 0, |items| - i
  {
    if i == |items| then Normal(acc)
    else
      var o :- SetOne(items[i], next, rest, value);
      SetAll(items, i + 1, next, rest, value, acc + [o])
  }

  /** The body of the `forEach` for one element `o`. */
  function SetOne(o: Js, next: string, rest: string, value: Js): Completion<Js>
    decreases Below(rest), 0, 0
  {
    if rest == "" then Store(o, next, value)
    else
      var m :- Member(o, next);
      var o :- if m.Undefined? then Store(o, next, Obj([])) else Normal(o);
      var child :- Member(o, next);
      var child :- SetTree(child, rest, value);
      Store(o, next, child)
  }

  /** `setTree(obj, path, value)` as it is written: the recursive call passes no value,
      so `value` is `undefined` below the first segment. */
  function SetTreeAsWritten(obj: Js, path: string, value: Js): Completion<Js>
    decreases |path|, 1
  {
    var items := EnsureArray(obj);
    var updated :- SetAllAsWritten(items, 0, Next(path), Rest(path), value, []);
    Normal(if obj.Arr? then Arr(updated) else updated[0])
  }

  function SetAllAsWritten(items: seq<Js>, i: nat, next: string, rest: string, value: Js, acc: seq<Js>): (r: Completion<seq<Js>>)
    requires i <= |items|
    ensures r.Normal? ==> |r.value| == |acc| + |items| - i
    decreases Below(rest), 0, |items| - i
  {
    if i == |items| then Normal(acc)
    else
      var o :- SetOneAsWritten(items[i], next, rest, value);
      SetAllAsWritten(items, i + 1, next, rest, value, acc + [o])
  }

  function SetOneAsWritten(o: Js, next: string, rest: string, value: Js): Completion<Js>
    decreases Below(rest), 0, 0
  {
    if rest == "" then Store(o, next, value)
    else
      var m :- Member(o, next);
      var o :- if m.Undefined? then Store(o, next, Obj([])) else Normal(o);
      var child :- Member(o, next);
      var child :- SetTreeAsWritten(child, rest, Undefined);
      Store(o, next, child)
  }

  /** As written, `setTree` with a path of several segments does what the corrected
      one does with `undefined` for the value. */
  lemma {:induction false} AsWrittenDropsValue(obj: Js, path: string, value: Js)
    ensures SetTreeAsWritten(obj, path, value) == SetTree(obj, path, if Rest(path) == "" then value else Undefined)
    decreases |path|, 1
  {
    AllAsWritten(EnsureArray(obj), 0, Next(path), Rest(path), value, []);
  }

  lemma {:induction false} AllAsWritten(items: seq<Js>, i: nat, next: string, rest: string, value: Js, acc: seq<Js>)
    requires i <= |items|
    ensures SetAllAsWritten(items, i, next, rest, value, acc) == SetAll(items, i, next, rest, if rest == "" then value else Undefined, acc)
    decreases Below(rest), 0, |items| - i
  {
    if i < |items| {
      OneAsWritten(items[i], next, rest, value);
      var o := SetOneAsWritten(items[i], next, rest, value);
      if o.Normal? {
        AllAsWritten(items, i + 1, next, rest, value, acc + [o.value]);
      }
    }
  }

  lemma {:induction false} OneAsWritten(o: Js, next: string, rest: string, value: Js)
    ensures SetOneAsWritten(o, next, rest, value) == SetOne(o, next, rest, if rest == "" then value else Undefined)
    decreases Below(rest), 0, 0
  {
    if rest != "" {
      var m := Member(o, next);
      if m.Normal? {
        var o1 := if m.value.Undefined? then Store(o, next, Obj([])) else Normal(o);
        if o1.Normal? {
          var child := Member(o1.value, next);
          if child.Normal? {
            AsWrittenDropsValue(child.value, rest, Undefined);
            assert (if Rest(rest) == "" then Undefined else Undefined) == Undefined;
          }
        }
      }
    }
  }

  /** The value is lost: setting `a.b` to 1 on an empty object stores `undefined`, and
      `getTree` then finds nothing there; the corrected `setTree` finds the 1. */
  lemma AsWrittenLosesValue()
    ensures SetTreeAsWritten(Obj([]), "a.b", Num(1.0)) == Normal(Obj([Field("a", Obj([Field("b", Undefined)]))]))
    ensures GetTree(SetTreeAsWritten(Obj([]), "a.b", Num(1.0)).value, "a.b") == Normal([])
    ensures SetTree(Obj([]), "a.b", Num(1.0)) == Normal(Obj([Field("a", Obj([Field("b", Num(1.0))]))]))
    ensures GetTree(SetTree(Obj([]), "a.b", Num(1.0)).value, "a.b") == Normal([Num(1.0)])
  {
    assert Next("a.b") == "a" && Rest("a.b") == "b";
    assert Next("b") == "b" && Rest("b") == "";
    AsWrittenDropsValue(Obj([]), "a.b", Num(1.0));
    SetAB(Undefined);
    SetAB(Num(1.0));
    assert Walkable(Obj([]), "a.b");
    SetThenGet(Obj([]), "a.b", Undefined);
    SetThenGet(Obj([]), "a.b", Num(1.0));
  }

  /** Setting `a.b` on an empty object. */
  lemma SetAB(v: Js)
    requires Next("a.b") == "a" && Rest("a.b") == "b" && Next("b") == "b" && Rest("b") == ""
    ensures SetTree(Obj([]), "a.b", v) == Normal(Obj([Field("a", Obj([Field("b", v)]))]))
  {
    SetTreeOne(Obj([]), "b", v);
    assert SetTree(Obj([]), "b", v) == Normal(Obj([Field("b", v)]));
    SetTreeOne(Obj([]), "a.b", v);
    assert Assign([Field("a", Obj([]))], "a", Obj([Field("b", v)])) == [Field("a", Obj([Field("b", v)]))];
  }

  /** A path whose every segment is non-empty. */
  predicate Segmented(path: string)
    decreases |path|
  {
    Next(path) != "" && (Rest(path) != "" ==> Segmented(Rest(path)))
  }

  /** A path with non-empty segments that goes through objects, or stops where a
      property is missing. */
  predicate Walkable(obj: Js, path: string)
    decreases |path|
  {
    obj.Obj? && Segmented(path) &&
    (Rest(path) != "" ==>
      var m := Lookup(obj.fields, Next(path));
      m.Undefined? || Walkable(m, Rest(path)))
  }

  /** Setting a value at a walkable path of an object and getting that path again gives
      the value's elements back, or nothing for `undefined`. */
  lemma {:induction false} SetThenGet(obj: Js, path: string, value: Js)
    requires Walkable(obj, path)
    ensures SetTree(obj, path, value).Normal?
    ensures SetTree(obj, path, value).value.Obj?
    ensures GetTree(SetTree(obj, path, value).value, path) == Normal(if value.Undefined? then [] else EnsureArray(value))
    decreases |path|
  {
    var next, rest := Next(path), Rest(path);
    var o := SetOne(obj, next, rest, value);
    SetTreeOne(obj, path, value);
    if rest == "" {
      assert o == Normal(Obj(Assign(obj.fields, next, value)));
    } else {
      var m := Lookup(obj.fields, next);
      var o1 := if m.Undefined? then Obj(Assign(obj.fields, next, Obj([]))) else obj;
      var child := Lookup(o1.fields, next);
      if m.Undefined? {
        assert Walkable(Obj([]), rest);
      }
      SetThenGet(child, rest, value);
    }
    GetTreeStep(o.value, path);
  }

  /** Setting on an object is setting on its one element. */
  lemma SetTreeOne(obj: Js, path: string, value: Js)
    requires !obj.Arr?
    ensures SetTree(obj, path, value) == SetOne(obj, Next(path), Rest(path), value)
  {
    var next, rest := Next(path), Rest(path);
    assert EnsureArray(obj) == [obj];
    match SetOne(obj, next, rest, value) {
      case Normal(o) =>
        assert [] + [o] == [o] && |[obj]| == 1;
        assert SetAll([obj], 0, next, rest, value, []) == SetAll([obj], 1, next, rest, value, [o]);
      case TypeError =>
    }
  }

  /** On an array, `setTree` does to every element what it does to a single value. */
  lemma SetTreeEach(obj: Js, path: string, value: Js, j: nat)
    requires obj.Arr? && j < |obj.items| && SetTree(obj, path, value).Normal?
    ensures SetOne(obj.items[j], Next(path), Rest(path), value).Normal?
    ensures var r := SetTree(obj, path, value).value;
      r.Arr? && |r.items| == |obj.items| && r.items[j] == SetOne(obj.items[j], Next(path), Rest(path), value).value
  {
    SetAllAt(obj.items, 0, Next(path), Rest(path), value, [], j);
  }

  lemma {:induction false} SetAllAt(items: seq<Js>, i: nat, next: string, rest: string, value: Js, acc: seq<Js>, j: nat)
    requires i <= j < |items| && SetAll(items, i, next, rest, value, acc).Normal?
    ensures SetOne(items[j], next, rest, value).Normal?
    ensures SetAll(items, i, next, rest, value, acc).value[|acc| + j - i] == SetOne(items[j], next, rest, value).value
    decreases |items| - i
  {
    var o := SetOne(items[i], next, rest, value).value;
    if j == i {
      SetAllKeeps(items, i + 1, next, rest, value, acc + [o], |acc|);
    } else {
      SetAllAt(items, i + 1, next, rest, value, acc + [o], j);
    }
  }

  lemma {:induction false} SetAllKeeps(items: seq<Js>, i: nat, next: string, rest: string, value: Js, acc: seq<Js>, m: nat)
    requires i <= |items| && SetAll(items, i, next, rest, value, acc).Normal? && m < |acc|
    ensures SetAll(items, i, next, rest, value, acc).value[m] == acc[m]
    decreases |items| - i
  {
    if i < |items| {
      var o := SetOne(items[i], next, rest, value).value;
      SetAllKeeps(items, i + 1, next, rest, value, acc + [o], m);
    }
  }

  /** `setTree` on an object changes only the property the path starts with. */
  lemma SetKeepsOthers(obj: Js, path: string, value: Js, k: string)
    requires obj.Obj? && SetTree(obj, path, value).Normal? && k != Next(path)
    ensures SetTree(obj, path, value).value.Obj?
    ensures Lookup(SetTree(obj, path, value).value.fields, k) == Lookup(obj.fields, k)
  {
    SetTreeOne(obj, path, value);
  }

  /** `setTree`, statement by statement, with the `forEach` as a loop. */
  method SetTreeLoop(obj: Js, path: string, value: Js) returns (r: Completion<Js>)
    ensures r == SetTree(obj, path, value)
    decreases |path|, 1
  {
    var next := Next(path);
    var rest := Rest(path);
    var items := EnsureArray(obj);
    var updated: seq<Js> := [];
    for i := 0 to |items|
      invariant |updated| == i
      invariant SetAll(items, i, next, rest, value, updated) == SetAll(items, 0, next, rest, value, [])
    {
      var o := items[i];
      var done: Completion<Js>;
      if |rest| == 0 {
        done := Store(o, next, value);
      } else {
        done := SetBelow(o, next, rest, value);
      }
      if done.TypeError? {
        return TypeError;
      }
      updated := updated + [done.value];
    }
    r := Normal(if obj.Arr? then Arr(updated) else updated[0]);
  }

  /** The branch of the loop body for a path of several segments. */
  method SetBelow(o: Js, next: string, rest: string, value: Js) returns (r: Completion<Js>)
    requires rest != ""
    ensures r == SetOne(o, next, rest, value)
    decreases Below(rest), 0, 0
  {
    var m := Member(o, next);
    if m.TypeError? {
      return TypeError;
    }
    var o1 := o;
    if m.value.Undefined? {
      var made := Store(o, next, Obj([]));
      if made.TypeError? {
        return TypeError;
      }
      o1 := made.value;
    }
    var child := Member(o1, next);
    if child.TypeError? {
      return TypeError;
    }
    var sub := SetTreeLoop(child.value, rest, value);
    if sub.TypeError? {
      return TypeError;
    }
    r := Store(o1, next, sub.value);
  }
}
