/**
 * The deep copy an executor is shown (pkg/engine/engine.go:473-501). Maps and slices are objects that the
 * program can update in place, so what matters is not only what the copy says but which objects it is made of.
 */
module Clones {
  import opened Prelude

  /** A dynamically typed value as it sits in memory: a scalar, or a reference to a map or a slice. */
  datatype Ref = Scalar(v: Value) | MapRef(m: MapObject) | SliceRef(s: array<Ref>)

  class MapObject {
    var fields: map<string, Ref>

    constructor ()
      ensures fields == map[]
    {
      fields := map[];
    }
  }

  /**
   * `r` is laid out in memory as the tree `v`, every map and slice of it among `repr`. Being a picture of a finite
   * tree rules out cycles; the same object may still be met twice.
   */
  ghost predicate Depicts(r: Ref, v: Value, repr: set<object>)
    reads repr
    decreases v
  {
    match v
    case Object(fields) =>
      r.MapRef? && r.m in repr && r.m.fields.Keys == fields.Keys
      && forall k :: k in fields ==> Depicts(r.m.fields[k], fields[k], repr)
    case List(items) =>
      r.SliceRef? && r.s in repr && r.s.Length == |items|
      && forall k :: 0 <= k < |items| ==> Depicts(r.s[k], items[k], repr)
    case _ => r == Scalar(v)
  }

  /** One dereference: a key of a map or an index of a slice. */
  datatype Hop = Key(k: string) | Index(n: nat)

  /** Where a path leads, if it leads anywhere. */
  function Follow(r: Ref, path: seq<Hop>): Option<Ref>
    reads *
    decreases |path|
  {
    if path == [] then Some(r)
    else match (r, path[0])
      case (MapRef(m), Key(k)) => if k in m.fields then Follow(m.fields[k], path[1..]) else None
      case (SliceRef(s), Index(n)) => if n < s.Length then Follow(s[n], path[1..]) else None
      case _ => None
  }

  /** The map or slice a reference points at. */
  ghost function Pointee(r: Ref): set<object> {
    match r
    case Scalar(_) => {}
    case MapRef(m) => {m}
    case SliceRef(s) => {s}
  }

  /** `o` can be reached, and so written, from `r`. */
  ghost predicate Reachable(r: Ref, o: object)
    reads *
  {
    exists path :: Follow(r, path).Some? && o in Pointee(Follow(r, path).value)
  }

  /** Nothing outside the footprint can be reached. */
  lemma {:induction false} PathStaysInside(r: Ref, v: Value, repr: set<object>, path: seq<Hop>)
    requires Depicts(r, v, repr) && Follow(r, path).Some?
    ensures Pointee(Follow(r, path).value) <= repr
    decreases |path|
  {
    if path == [] {
    } else {
      match v
      case Object(fields) => PathStaysInside(r.m.fields[path[0].k], fields[path[0].k], repr, path[1..]);
      case List(items) => PathStaysInside(r.s[path[0].n], items[path[0].n], repr, path[1..]);
      case _ =>
    }
  }

  lemma ReachStaysInside(r: Ref, v: Value, repr: set<object>, o: object)
    requires Depicts(r, v, repr) && Reachable(r, o)
    ensures o in repr
  {
    var path :| Follow(r, path).Some? && o in Pointee(Follow(r, path).value);
    PathStaysInside(r, v, repr, path);
  }

  lemma {:induction false} Widen(r: Ref, v: Value, repr: set<object>, wide: set<object>)
    requires Depicts(r, v, repr) && repr <= wide
    ensures Depicts(r, v, wide)
    decreases v
  {
    match v
    case Object(fields) =>
      forall k | k in fields ensures Depicts(r.m.fields[k], fields[k], wide) { Widen(r.m.fields[k], fields[k], repr, wide); }
    case List(items) =>
      forall k | 0 <= k < |items| ensures Depicts(r.s[k], items[k], wide) { Widen(r.s[k], items[k], repr, wide); }
    case _ =>
  }

  ghost predicate FieldsDepict(refs: map<string, Ref>, fields: map<string, Value>, repr: set<object>)
    reads repr
  {
    forall k :: k in refs ==> k in fields && Depicts(refs[k], fields[k], repr)
  }

  lemma WidenFields(refs: map<string, Ref>, fields: map<string, Value>, repr: set<object>, wide: set<object>)
    requires FieldsDepict(refs, fields, repr) && repr <= wide
    ensures FieldsDepict(refs, fields, wide)
    ensures forall k :: k in refs ==> Pointee(refs[k]) <= repr
  {
    forall k | k in refs ensures Depicts(refs[k], fields[k], wide) { Widen(refs[k], fields[k], repr, wide); }
  }

  lemma NoFields(fields: map<string, Value>, repr: set<object>)
    ensures FieldsDepict(map[], fields, repr)
  {
  }

  lemma FieldAt(refs: map<string, Ref>, fields: map<string, Value>, repr: set<object>, k: string)
    requires FieldsDepict(refs, fields, repr) && k in refs
    ensures k in fields && Depicts(refs[k], fields[k], repr)
  {
  }

  /** One more field, with what it is made of. */
  lemma AddField(refs: map<string, Ref>, fields: map<string, Value>, repr: set<object>, k: string, x: Ref, xs: set<object>)
    requires FieldsDepict(refs, fields, repr) && k in fields && Depicts(x, fields[k], xs)
    ensures FieldsDepict(refs[k := x], fields, repr + xs)
  {
    hide Depicts;
    WidenFields(refs, fields, repr, repr + xs);
    Widen(x, fields[k], xs, repr + xs);
  }

  lemma MapDepicts(m: MapObject, v: Value, repr: set<object>)
    requires v.Object?
    ensures Depicts(MapRef(m), v, repr) <==> m in repr && m.fields.Keys == v.fields.Keys && FieldsDepict(m.fields, v.fields, repr)
  {
  }

  /** No reference held inside the set leads out of it. */
  ghost predicate Closed(objs: set<object>)
    reads objs
  {
    && (forall m: MapObject, k :: m in objs && k in m.fields ==> Pointee(m.fields[k]) <= objs)
    && (forall s: array<Ref>, k :: s in objs && 0 <= k < s.Length ==> Pointee(s[k]) <= objs)
  }

  lemma {:induction false} ClosedConfines(r: Ref, objs: set<object>, path: seq<Hop>)
    requires Closed(objs) && Pointee(r) <= objs && Follow(r, path).Some?
    ensures Pointee(Follow(r, path).value) <= objs
    decreases |path|
  {
    if path == [] {
    } else {
      match (r, path[0])
      case (MapRef(m), Key(k)) => ClosedConfines(m.fields[k], objs, path[1..]);
      case (SliceRef(s), Index(n)) => ClosedConfines(s[n], objs, path[1..]);
      case _ =>
    }
  }

  lemma EmptyClosed()
    ensures Closed({})
  {
  }

  lemma ClosedJoin(a: set<object>, b: set<object>)
    requires Closed(a) && Closed(b)
    ensures Closed(a + b)
  {
  }

  lemma ClosedWithMap(kids: set<object>, m: MapObject)
    requires Closed(kids) && forall k :: k in m.fields ==> Pointee(m.fields[k]) <= kids
    ensures Closed(kids + {m})
  {
  }

  lemma ClosedWithSlice(kids: set<object>, s: array<Ref>)
    requires Closed(kids) && forall k :: 0 <= k < s.Length ==> Pointee(s[k]) <= kids
    ensures Closed(kids + {s})
  {
  }

  /** A structurally equal copy made of new objects only; nothing old is written. */
  method DeepClone(r: Ref, ghost v: Value, ghost repr: set<object>) returns (c: Ref, ghost made: set<object>)
    requires Depicts(r, v, repr)
    ensures Depicts(c, v, made) && fresh(made) && Closed(made)
    decreases v, 1
  {
    match r
    case MapRef(m) =>
      var cp;
      cp, made := CloneMap(m, v, repr);
      c := MapRef(cp);
    case SliceRef(s) =>
      var cp;
      cp, made := CloneSlice(s, v, repr);
      c := SliceRef(cp);
    case Scalar(_) =>
      c, made := r, {};
  }

  method CloneMap(m: MapObject, ghost v: Value, ghost repr: set<object>) returns (cp: MapObject, ghost made: set<object>)
    requires Depicts(MapRef(m), v, repr)
    ensures Depicts(MapRef(cp), v, made) && fresh(made) && fresh(cp) && Closed(made)
    decreases v, 0
  {
    assert v.Object?;
    MapDepicts(m, v, repr);
    hide Closed, Depicts, FieldsDepict;
    cp := new MapObject();
    EmptyClosed();
    NoFields(v.fields, {});
    ghost var kids: set<object> := {};
    var left := m.fields.Keys;
    while left != {}
      invariant left <= m.fields.Keys && cp.fields.Keys == m.fields.Keys - left
      invariant fresh(cp) && fresh(kids) && cp !in kids + repr && Closed(kids)
      invariant FieldsDepict(m.fields, v.fields, repr)
      invariant FieldsDepict(cp.fields, v.fields, kids)
      decreases left
    {
      var k :| k in left;
      left := left - {k};
      kids := CloneField(m, cp, k, v.fields, repr, kids);
    }
    made := kids + {cp};
    WidenFields(cp.fields, v.fields, kids, made);
    ClosedWithMap(kids, cp);
    MapDepicts(cp, v, made);
  }

  /** One iteration over the map: the field's copy, made of new objects, goes into `cp`. */
  method CloneField(m: MapObject, cp: MapObject, k: string, ghost fields: map<string, Value>, ghost repr: set<object>, ghost kids: set<object>)
    returns (ghost more: set<object>)
    requires k in m.fields && k in fields && m.fields.Keys == fields.Keys && cp !in kids + repr && cp != m
    requires FieldsDepict(m.fields, fields, repr) && FieldsDepict(cp.fields, fields, kids) && Closed(kids)
    modifies cp
    ensures cp.fields.Keys == old(cp.fields.Keys) + {k}
    ensures FieldsDepict(m.fields, fields, repr) && FieldsDepict(cp.fields, fields, more) && Closed(more)
    ensures kids <= more && fresh(more - kids) && cp !in more
    decreases fields[k], 2
  {
    hide Closed, Depicts, FieldsDepict;
    FieldAt(m.fields, fields, repr, k);
    var x, xs := DeepClone(m.fields[k], fields[k], repr);
    AddField(cp.fields, fields, kids, k, x, xs);
    ClosedJoin(kids, xs);
    more := kids + xs;
    cp.fields := cp.fields[k := x];
  }

  method CloneSlice(s: array<Ref>, ghost v: Value, ghost repr: set<object>) returns (cp: array<Ref>, ghost made: set<object>)
    requires Depicts(SliceRef(s), v, repr)
    ensures Depicts(SliceRef(cp), v, made) && fresh(made) && fresh(cp) && Closed(made)
    decreases v, 0
  {
    hide Closed;
    EmptyClosed();
    cp := new Ref[s.Length](_ => Scalar(Null));
    ghost var kids: set<object> := {};
    var i := 0;
    while i < s.Length
      invariant i <= s.Length
      invariant fresh(cp) && fresh(kids) && cp !in kids && Closed(kids)
      invariant Depicts(SliceRef(s), v, repr)
      invariant forall k :: 0 <= k < i ==> Depicts(cp[k], v.items[k], kids)
    {
      var x, xs := DeepClone(s[i], v.items[i], repr);
      forall j | 0 <= j < i ensures Depicts(cp[j], v.items[j], kids + xs) { Widen(cp[j], v.items[j], kids, kids + xs); }
      Widen(x, v.items[i], xs, kids + xs);
      ClosedJoin(kids, xs);
      kids := kids + xs;
      cp[i] := x;
      i := i + 1;
    }
    made := kids + {cp};
    ClosedWithSlice(kids, cp);
    forall j | 0 <= j < i ensures Depicts(cp[j], v.items[j], made) { Widen(cp[j], v.items[j], kids, made); }
  }

  /** The executor's view of a payload: equal to it, and nothing that can be reached from it existed before. A missing payload is shown as empty. */
  method ClonePayload(p: MapObject?, ghost v: Value, ghost repr: set<object>) returns (cp: MapObject, ghost made: set<object>)
    requires if p == null then v == Object(map[]) else Depicts(MapRef(p), v, repr)
    ensures Depicts(MapRef(cp), v, made) && fresh(made) && Closed(made)
    ensures forall o: object :: Reachable(MapRef(cp), o) ==> fresh(o)
  {
    if p == null {
      cp := new MapObject();
      made := {cp};
    } else {
      cp, made := CloneMap(p, v, repr);
    }
    forall o: object | Reachable(MapRef(cp), o) ensures fresh(o) { ReachStaysInside(MapRef(cp), v, made, o); }
  }

  /** A new layout of a tree, sharing nothing with anything. */
  method Build(v: Value) returns (r: Ref, ghost made: set<object>)
    ensures Depicts(r, v, made) && fresh(made) && Closed(made)
    decreases v, 1
  {
    match v
    case Object(fields) =>
      var m;
      m, made := BuildMap(fields);
      r := MapRef(m);
    case List(items) =>
      var s;
      s, made := BuildSlice(items);
      r := SliceRef(s);
    case _ =>
      r, made := Scalar(v), {};
  }

  method BuildMap(fields: map<string, Value>) returns (m: MapObject, ghost made: set<object>)
    ensures Depicts(MapRef(m), Object(fields), made) && fresh(made) && Closed(made)
    decreases Object(fields), 0
  {
    hide Closed, Depicts, FieldsDepict;
    m := new MapObject();
    EmptyClosed();
    NoFields(fields, {});
    ghost var kids: set<object> := {};
    var left := fields.Keys;
    while left != {}
      invariant left <= fields.Keys && m.fields.Keys == fields.Keys - left
      invariant fresh(m) && fresh(kids) && m !in kids && Closed(kids)
      invariant FieldsDepict(m.fields, fields, kids)
      decreases left
    {
      var k :| k in left;
      left := left - {k};
      var x, xs := Build(fields[k]);
      AddField(m.fields, fields, kids, k, x, xs);
      ClosedJoin(kids, xs);
      kids := kids + xs;
      m.fields := m.fields[k := x];
    }
    made := kids + {m};
    WidenFields(m.fields, fields, kids, made);
    ClosedWithMap(kids, m);
    MapDepicts(m, Object(fields), made);
  }

  method BuildSlice(items: seq<Value>) returns (s: array<Ref>, ghost made: set<object>)
    ensures Depicts(SliceRef(s), List(items), made) && fresh(made) && Closed(made)
    decreases List(items), 0
  {
    hide Closed;
    EmptyClosed();
    s := new Ref[|items|](_ => Scalar(Null));
    ghost var kids: set<object> := {};
    var i := 0;
    while i < |items|
      invariant i <= |items|
      invariant fresh(s) && fresh(kids) && s !in kids && Closed(kids)
      invariant forall k :: 0 <= k < i ==> Depicts(s[k], items[k], kids)
    {
      var x, xs := Build(items[i]);
      forall j | 0 <= j < i ensures Depicts(s[j], items[j], kids + xs) { Widen(s[j], items[j], kids, kids + xs); }
      Widen(x, items[i], xs, kids + xs);
      ClosedJoin(kids, xs);
      kids := kids + xs;
      s[i] := x;
      i := i + 1;
    }
    made := kids + {s};
    ClosedWithSlice(kids, s);
    forall j | 0 <= j < i ensures Depicts(s[j], items[j], made) { Widen(s[j], items[j], kids, made); }
  }

  /**
   * What code holding a reference can do with it: find a map or slice by some path, and store there a value it makes
   * itself, maps and slices included, or anything else it can find.
   */
  datatype Write = Write(at: seq<Hop>, slot: Hop, what: Source)

  datatype Source = Built(v: Value) | Found(path: seq<Hop>)

  /** What the write stores, if there is such a thing; `objs` grows by what had to be made. */
  method Obtain(c: MapObject, what: Source, ghost objs: set<object>) returns (r: Option<Ref>, ghost wide: set<object>)
    requires c in objs && Closed(objs)
    ensures objs <= wide && fresh(wide - objs) && Closed(wide)
    ensures r.Some? ==> Pointee(r.value) <= wide
  {
    match what
    case Built(v) =>
      var x, made := Build(v);
      ClosedJoin(objs, made);
      r, wide := Some(x), objs + made;
    case Found(path) =>
      r, wide := Follow(MapRef(c), path), objs;
      if r.Some? { ClosedConfines(MapRef(c), objs, path); }
  }

  method Scribble(c: MapObject, writes: seq<Write>, ghost objs: set<object>)
    requires c in objs && Closed(objs)
    modifies objs
  {
    ghost var reach := objs;
    for n := 0 to |writes|
      invariant objs <= reach && fresh(reach - objs) && Closed(reach)
    {
      var w := writes[n];
      var what, wide := Obtain(c, w.what, reach);
      reach := wide;
      var target := Follow(MapRef(c), w.at);
      if target.Some? && what.Some? {
        ClosedConfines(MapRef(c), reach, w.at);
        match (target.value, w.slot)
        case (MapRef(m), Key(k)) => m.fields := m.fields[k := what.value];
        case (SliceRef(s), Index(i)) => if i < s.Length { s[i] := what.value; }
        case _ =>
      }
    }
  }

  /**
   * An executor is shown a copy and may do what it likes with it. There is no modifies clause: whatever the writes,
   * they touch no object that existed before the call, so the instance payload still says exactly what it said.
   */
  method ShowAndScribble(p: MapObject, ghost v: Value, ghost repr: set<object>, writes: seq<Write>)
    requires Depicts(MapRef(p), v, repr)
    ensures Depicts(MapRef(p), v, repr)
  {
    var cp, made := ClonePayload(p, v, repr);
    Scribble(cp, writes, made);
  }
}
