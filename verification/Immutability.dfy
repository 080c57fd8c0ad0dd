/** The webhook that keeps tagged fields of a resource's spec from changing.

    Values are those of Go's reflection: structs, pointers, slices, and everything else as a scalar whose
    zero value is 0. Structural equality of values is reflect.DeepEqual: a nil slice is not an empty one.
 */
module Immutability {
  import opened Optional

  datatype Tag = NoTag | Inmutable | InmutableInit

  datatype Type =
    | ScalarType
    | PointerType(elem: Type)
    | SliceType(elem: Type)
    | StructType(fields: seq<Field>)

  datatype Field = Field(exported: bool, tag: Tag, ty: Type)

  datatype Value =
    | Scalar(n: int)
    | NilPointer
    | Pointer(target: Value)
    | NilSlice
    | Slice(elems: seq<Value>)
    | Struct(fields: seq<Value>)

  predicate HasType(v: Value, t: Type)
    decreases v
  {
    match t
    case ScalarType => v.Scalar?
    case PointerType(e) => v.NilPointer? || (v.Pointer? && HasType(v.target, e))
    case SliceType(e) => v.NilSlice? || (v.Slice? && forall j | 0 <= j < |v.elems| :: HasType(v.elems[j], e))
    case StructType(fs) =>
      v.Struct? && |v.fields| == |fs| && forall i | 0 <= i < |fs| :: HasType(v.fields[i], fs[i].ty)
  }

  // isNilOrZero.
  predicate IsZero(v: Value) {
    match v
    case Scalar(n) => n == 0
    case NilPointer => true
    case Pointer(_) => false
    case NilSlice => true
    case Slice(_) => false
    case Struct(fs) => forall i | 0 <= i < |fs| :: IsZero(fs[i])
  }

  function Indirect(v: Value): (w: Value)
    ensures w == v || w < v
  {
    if v.Pointer? then v.target else v
  }

  // isValidStruct.
  predicate IsValidStruct(v: Value) {
    !IsZero(v) && Indirect(v).Struct?
  }

  function IndirectType(t: Type): Type {
    if t.PointerType? then t.elem else t
  }

  // ---- The promise, path by path ----

  // A path descends into field i, or into element j of the slice in field i; it ends with a field.
  datatype Hop = Into(i: nat) | Elem(i: nat, j: nat)

  type Path = seq<Hop>

  predicate Violates(f: Field, new_: Value, old_: Value) {
    f.exported && match f.tag
                  case NoTag => false
                  case Inmutable => new_ != old_
                  case InmutableInit => !IsZero(old_) && new_ != old_
  }

  predicate HasHop(v: Value, hop: Hop)
    requires v.Struct?
  {
    && hop.i < |v.fields|
    && (hop.Elem? ==> v.fields[hop.i].Slice? && hop.j < |v.fields[hop.i].elems|)
  }

  // What lies one hop below a struct, and its type.
  function Below(fs: seq<Field>, v: Value, hop: Hop): (w: (Type, Value))
    requires HasType(v, StructType(fs)) && HasHop(v, hop)
    ensures w.1 < v && HasType(w.1, w.0)
    ensures hop.Into? ==> w == (fs[hop.i].ty, v.fields[hop.i])
    ensures hop.Elem? ==> fs[hop.i].ty.SliceType? && w == (fs[hop.i].ty.elem, v.fields[hop.i].elems[hop.j])
  {
    assert HasType(v.fields[hop.i], fs[hop.i].ty);
    match hop
    case Into(i) => (fs[i].ty, v.fields[i])
    case Elem(i, j) => (fs[i].ty.elem, v.fields[i].elems[j])
  }

  lemma ValidStructType(v: Value, t: Type)
    requires HasType(v, t) && IsValidStruct(v)
    ensures IndirectType(t).StructType? && HasType(Indirect(v), IndirectType(t))
  {
    assert t.PointerType? ==> HasType(v.target, t.elem);
    assert HasType(Indirect(v), IndirectType(t));
  }

  // At the end of the path there is a tagged field that was changed, and all its parents are valid
  // structs before and after the change.
  predicate Broken(fs: seq<Field>, new_: Value, old_: Value, path: Path)
    requires HasType(new_, StructType(fs)) && HasType(old_, StructType(fs))
    decreases |path|, 0
  {
    if path == [] then false
    else if |path| == 1 then
      path[0].Into? && path[0].i < |fs| && Violates(fs[path[0].i], new_.fields[path[0].i], old_.fields[path[0].i])
    else
      && HasHop(new_, path[0]) && HasHop(old_, path[0])
      && var n, o := Below(fs, new_, path[0]), Below(fs, old_, path[0]);
         IsValidStruct(n.1) && IsValidStruct(o.1) && BrokenBelow(n.0, n.1, o.1, path[1..])
  }

  predicate BrokenBelow(t: Type, new_: Value, old_: Value, path: Path)
    requires HasType(new_, t) && HasType(old_, t) && IsValidStruct(new_) && IsValidStruct(old_)
    requires path != []
    decreases |path|, 1
  {
    ValidStructType(new_, t);
    ValidStructType(old_, t);
    Broken(IndirectType(t).fields, Indirect(new_), Indirect(old_), path)
  }

  // What the walk reports for a field: itself, when it cannot descend, or what is broken below it.
  predicate Reports(f: Field, new_: Value, old_: Value, path: Path)
    requires HasType(new_, f.ty) && HasType(old_, f.ty)
  {
    if IsValidStruct(new_) && IsValidStruct(old_) then path != [] && BrokenBelow(f.ty, new_, old_, path)
    else path == [] && Violates(f, new_, old_)
  }

  // An accepted update breaks no path of the spec.
  ghost predicate Accepts(spec: Field, new_: Value, old_: Value)
    requires HasType(new_, spec.ty) && HasType(old_, spec.ty)
  {
    forall path: Path :: !Reports(spec, new_, old_, path)
  }

  // ---- The walk ----

  // validateInmutable: the error list holds exactly the broken paths.
  method ValidateInmutable(f: Field, new_: Value, old_: Value) returns (errs: seq<Path>)
    requires HasType(new_, f.ty) && HasType(old_, f.ty)
    ensures forall p: Path :: p in errs <==> Reports(f, new_, old_, p)
    decreases new_
  {
    errs := [];
    if !IsValidStruct(new_) || !IsValidStruct(old_) {
      if Violates(f, new_, old_) {
        errs := [[]];
      }
      return;
    }
    ValidStructType(new_, f.ty);
    ValidStructType(old_, f.ty);
    var n, o := Indirect(new_), Indirect(old_);
    var fs := IndirectType(f.ty).fields;
    for i := 0 to |fs|
      invariant forall p: Path :: p in errs <==> p != [] && p[0].i < i && Broken(fs, n, o, p)
    {
      ghost var before := errs;
      var nested := WalkField(fs, n, o, i);
      errs := errs + nested;
      if Violates(fs[i], n.fields[i], o.fields[i]) {
        errs := errs + [[Into(i)]];
      }
      forall p: Path ensures p in errs <==> p != [] && p[0].i < i + 1 && Broken(fs, n, o, p) {
        assert p in nested ==> p != [] && p[0].i == i;
        if p != [] && p[0].i == i && Broken(fs, n, o, p) {
          assert |p| == 1 ==> p == [Into(i)];
        }
      }
    }
    assert forall p: Path | p != [] && Broken(fs, n, o, p) :: p[0].i < |fs|;
  }

  function Prefix(hop: Hop, ps: seq<Path>): (qs: seq<Path>)
    ensures forall q: Path :: q in qs <==> q != [] && q[0] == hop && q[1..] in ps
  {
    if ps == [] then []
    else
      assert forall q: Path | q != [] && q[0] == hop :: q == [hop] + q[1..];
      [[hop] + ps[0]] + Prefix(hop, ps[1..])
  }

  // What is reported below field i, through the struct it holds or the elements of its slice.
  method WalkField(fs: seq<Field>, n: Value, o: Value, i: nat) returns (errs: seq<Path>)
    requires HasType(n, StructType(fs)) && HasType(o, StructType(fs)) && i < |fs|
    ensures forall p: Path | p in errs :: p != [] && p[0].i == i && Broken(fs, n, o, p)
    ensures forall p: Path | |p| > 1 && p[0].i == i && Broken(fs, n, o, p) :: p in errs
    decreases n, 2
  {
    errs := [];
    if IsValidStruct(n.fields[i]) {
      var sub := ValidateInmutable(fs[i], n.fields[i], o.fields[i]);
      errs := Prefix(Into(i), sub);
      forall p: Path | p in errs ensures Broken(fs, n, o, p) {
        assert p == [Into(i)] + p[1..];
      }
    }
    if fs[i].ty.SliceType? && n.fields[i].Slice? && o.fields[i].Slice? {
      var below := WalkSlice(fs, n, o, i);
      errs := errs + below;
    }
  }

  // When an element of a tagged slice is at fault, so is the slice.
  lemma ElementTag(f: Field, n: Value, o: Value, j: nat)
    requires f.ty.SliceType? && HasType(n, f.ty) && HasType(o, f.ty) && n.Slice? && o.Slice?
    requires j < |n.elems| && j < |o.elems| && IsValidStruct(n.elems[j]) && !IsValidStruct(o.elems[j])
    requires Violates(Field(f.exported, f.tag, f.ty.elem), n.elems[j], o.elems[j])
    ensures Violates(f, n, o)
  {
  }

  // One element. If it was nil or zero it is measured with the tag of the slice.
  method WalkElement(fs: seq<Field>, n: Value, o: Value, i: nat, j: nat) returns (errs: seq<Path>)
    requires HasType(n, StructType(fs)) && HasType(o, StructType(fs))
    requires HasHop(n, Elem(i, j)) && HasHop(o, Elem(i, j))
    ensures forall p: Path | p in errs :: p != [] && p[0].i == i && Broken(fs, n, o, p)
    ensures forall p: Path | |p| > 1 && p[0] == Elem(i, j) && Broken(fs, n, o, p) :: p in errs
    decreases n, 0
  {
    errs := [];
    var ne, oe := Below(fs, n, Elem(i, j)), Below(fs, o, Elem(i, j));
    if IsValidStruct(ne.1) {
      var f := Field(fs[i].exported, fs[i].tag, ne.0);
      var sub := ValidateInmutable(f, ne.1, oe.1);
      if [] in sub {
        ElementTag(fs[i], n.fields[i], o.fields[i], j);
        errs := [[Into(i)]];
      } else {
        errs := Prefix(Elem(i, j), sub);
      }
    }
  }

  // The elements at the indices both slices have.
  method WalkSlice(fs: seq<Field>, n: Value, o: Value, i: nat) returns (errs: seq<Path>)
    requires HasType(n, StructType(fs)) && HasType(o, StructType(fs)) && i < |fs|
    requires n.fields[i].Slice? && o.fields[i].Slice?
    ensures forall p: Path | p in errs :: p != [] && p[0].i == i && Broken(fs, n, o, p)
    ensures forall p: Path | |p| > 1 && p[0].i == i && p[0].Elem? && Broken(fs, n, o, p) :: p in errs
    decreases n, 1
  {
    errs := [];
    var j := 0;
    while j < |n.fields[i].elems| && j < |o.fields[i].elems|
      invariant 0 <= j <= |n.fields[i].elems| && j <= |o.fields[i].elems|
      invariant forall p: Path | p in errs :: p != [] && p[0].i == i && Broken(fs, n, o, p)
      invariant forall p: Path | |p| > 1 && p[0].i == i && p[0].Elem? && p[0].j < j && Broken(fs, n, o, p) :: p in errs
    {
      var here := WalkElement(fs, n, o, i, j);
      errs := errs + here;
      j := j + 1;
    }
  }

  // ---- The same promise, said of the two objects side by side ----

  // The struct a path leads to and its fields, when every value on the way is a valid struct.
  function Lookup(t: Type, v: Value, path: Path): (r: Option<(seq<Field>, Value)>)
    requires HasType(v, t)
    ensures r.Some? ==> HasType(r.value.1, StructType(r.value.0))
    decreases |path|
  {
    if !IsValidStruct(v) then None
    else
      ValidStructType(v, t);
      var fs, s := IndirectType(t).fields, Indirect(v);
      if path == [] then Some((fs, s))
      else if !HasHop(s, path[0]) then None
      else var w := Below(fs, s, path[0]); Lookup(w.0, w.1, path[1..])
  }

  lemma {:induction false} LookupType(t: Type, v: Value, w: Value, path: Path)
    requires HasType(v, t) && HasType(w, t) && Lookup(t, v, path).Some? && Lookup(t, w, path).Some?
    ensures Lookup(t, v, path).value.0 == Lookup(t, w, path).value.0
    decreases |path|
  {
    if path != [] {
      ValidStructType(v, t);
      ValidStructType(w, t);
      var fs := IndirectType(t).fields;
      var a, b := Below(fs, Indirect(v), path[0]), Below(fs, Indirect(w), path[0]);
      LookupType(a.0, a.1, b.1, path[1..]);
    }
  }

  // A path to field i is broken exactly when both objects have a valid struct at its parent, and the
  // tag of the field forbids the change of its value.
  lemma {:induction false} BrokenIsLookup(t: Type, n: Value, o: Value, path: Path, i: nat)
    requires HasType(n, t) && HasType(o, t) && IsValidStruct(n) && IsValidStruct(o)
    ensures
      var a, b := Lookup(t, n, path), Lookup(t, o, path);
      BrokenBelow(t, n, o, path + [Into(i)]) <==>
        && a.Some? && b.Some? && i < |a.value.0| && i < |b.value.0|
        && Violates(a.value.0[i], a.value.1.fields[i], b.value.1.fields[i])
    decreases |path|
  {
    ValidStructType(n, t);
    ValidStructType(o, t);
    var fs, ns, os := IndirectType(t).fields, Indirect(n), Indirect(o);
    var p := path + [Into(i)];
    if path == [] {
      assert p == [Into(i)];
    } else {
      assert p[0] == path[0] && p[1..] == path[1..] + [Into(i)];
      if HasHop(ns, p[0]) && HasHop(os, p[0]) {
        var a, b := Below(fs, ns, p[0]), Below(fs, os, p[0]);
        if IsValidStruct(a.1) && IsValidStruct(b.1) {
          BrokenIsLookup(a.0, a.1, b.1, path[1..], i);
        }
      }
    }
  }

  // ---- Histories ----

  // Versions of an object, each an accepted update of the one before.
  ghost predicate History(spec: Field, vs: seq<Value>) {
    && (forall k | 0 <= k < |vs| :: HasType(vs[k], spec.ty))
    && (forall k | 0 < k < |vs| :: Accepts(spec, vs[k], vs[k - 1]))
  }

  // The value of a tagged field in a version that has its parent.
  function FieldAt(spec: Field, v: Value, path: Path, i: nat): Value
    requires HasType(v, spec.ty) && Lookup(spec.ty, v, path).Some? && i < |Lookup(spec.ty, v, path).value.0|
  {
    Lookup(spec.ty, v, path).value.1.fields[i]
  }

  lemma AcceptedKeeps(spec: Field, n: Value, o: Value, path: Path, i: nat, fs: seq<Field>)
    requires HasType(n, spec.ty) && HasType(o, spec.ty) && Accepts(spec, n, o)
    requires Lookup(spec.ty, n, path).Some? && Lookup(spec.ty, o, path).Some?
    requires fs == Lookup(spec.ty, o, path).value.0 && i < |fs|
    ensures Lookup(spec.ty, n, path).value.0 == fs
    ensures !Violates(fs[i], FieldAt(spec, n, path, i), FieldAt(spec, o, path, i))
  {
    LookupType(spec.ty, n, o, path);
    BrokenIsLookup(spec.ty, n, o, path, i);
    assert !Reports(spec, n, o, path + [Into(i)]);
  }

  // As long as the parents of a field stay valid structs, at whatever depth, an inmutable field keeps
  // its first value and an inmutableinit field keeps the first value that is not zero.
  lemma {:induction false} HistoryKeeps(spec: Field, vs: seq<Value>, path: Path, i: nat, a: nat, b: nat)
    requires History(spec, vs) && a <= b < |vs|
    requires forall k | a <= k <= b :: Lookup(spec.ty, vs[k], path).Some?
    requires i < |Lookup(spec.ty, vs[a], path).value.0| && Lookup(spec.ty, vs[a], path).value.0[i].exported
    ensures Lookup(spec.ty, vs[b], path).value.0 == Lookup(spec.ty, vs[a], path).value.0
    ensures
      var f := Lookup(spec.ty, vs[a], path).value.0[i];
      var first, last := FieldAt(spec, vs[a], path, i), FieldAt(spec, vs[b], path, i);
      && (f.tag == Inmutable ==> last == first)
      && (f.tag == InmutableInit && !IsZero(first) ==> last == first)
    decreases b - a
  {
    if a < b {
      HistoryKeeps(spec, vs, path, i, a, b - 1);
      AcceptedKeeps(spec, vs[b], vs[b - 1], path, i, Lookup(spec.ty, vs[a], path).value.0);
    }
  }

  // ---- How far the promise reaches ----

  function Zero(t: Type): (v: Value)
    ensures HasType(v, t) && IsZero(v)
    decreases t
  {
    match t
    case ScalarType => Scalar(0)
    case PointerType(_) => NilPointer
    case SliceType(_) => NilSlice
    case StructType(fs) => Struct(seq(|fs|, i requires 0 <= i < |fs| => Zero(fs[i].ty)))
  }

  // A type has one zero value: an empty slice, for one, is not zero unless it is nil.
  lemma {:induction false} ZeroIsUnique(v: Value, t: Type)
    requires HasType(v, t)
    ensures IsZero(v) <==> v == Zero(t)
    decreases v
  {
    if t.StructType? {
      forall i | 0 <= i < |t.fields| ensures IsZero(v.fields[i]) <==> v.fields[i] == Zero(t.fields[i].ty) {
        ZeroIsUnique(v.fields[i], t.fields[i].ty);
      }
      if IsZero(v) {
        assert v.fields == Zero(t).fields;
      }
    }
  }

  // A field whose value an update may not change.
  predicate Protects(f: Field, v: Value) {
    f.exported && (f.tag == Inmutable || (f.tag == InmutableInit && !IsZero(v)))
  }

  // A way from one version to another through accepted updates, the spec never being entirely zero.
  ghost predicate Leads(spec: Field, vs: seq<Value>, a: Value, b: Value) {
    && History(spec, vs) && vs != [] && vs[0] == a && vs[|vs| - 1] == b
    && forall k | 0 <= k < |vs| :: IsValidStruct(vs[k])
  }

  // Everything in a top-level field, whatever is tagged below it, can be changed by accepted updates if
  // and only if that field itself is not protected: the way leads through its zero value.
  lemma LaunderExactly(spec: Field, fs: seq<Field>, i: nat, a: Value, b: Value)
    requires spec.ty == StructType(fs) && spec.tag == NoTag && i < |fs|
    requires HasType(a, spec.ty) && HasType(b, spec.ty) && a.fields[i] != b.fields[i]
    requires forall j | 0 <= j < |fs| && j != i :: a.fields[j] == b.fields[j]
    requires exists j | 0 <= j < |fs| && j != i :: !IsZero(a.fields[j])
    ensures (exists vs: seq<Value> :: Leads(spec, vs, a, b)) <==> !Protects(fs[i], a.fields[i])
  {
    if Protects(fs[i], a.fields[i]) {
      forall vs: seq<Value> ensures !Leads(spec, vs, a, b) {
        if Leads(spec, vs, a, b) {
          ProtectedStays(spec, fs, i, vs);
          assert false;
        }
      }
    } else {
      var vs := Launder(spec, fs, i, a, b);
    }
  }

  lemma ProtectedStays(spec: Field, fs: seq<Field>, i: nat, vs: seq<Value>)
    requires spec.ty == StructType(fs) && i < |fs| && History(spec, vs) && vs != []
    requires forall k | 0 <= k < |vs| :: IsValidStruct(vs[k])
    requires HasType(vs[0], spec.ty) && Protects(fs[i], vs[0].fields[i])
    ensures HasType(vs[|vs| - 1], spec.ty) && vs[|vs| - 1].fields[i] == vs[0].fields[i]
  {
    forall k | 0 <= k < |vs| ensures Lookup(spec.ty, vs[k], []) == Some((fs, vs[k])) {
      assert HasType(vs[k], spec.ty);
    }
    HistoryKeeps(spec, vs, [], i, 0, |vs| - 1);
  }

  lemma Launder(spec: Field, fs: seq<Field>, i: nat, a: Value, b: Value) returns (vs: seq<Value>)
    requires spec.ty == StructType(fs) && spec.tag == NoTag && i < |fs|
    requires HasType(a, spec.ty) && HasType(b, spec.ty) && !Protects(fs[i], a.fields[i])
    requires forall j | 0 <= j < |fs| && j != i :: a.fields[j] == b.fields[j]
    requires exists j | 0 <= j < |fs| && j != i :: !IsZero(a.fields[j])
    ensures Leads(spec, vs, a, b)
  {
    var j :| 0 <= j < |fs| && j != i && !IsZero(a.fields[j]);
    assert !IsZero(a.fields[j]) && !IsZero(b.fields[j]);
    if IsZero(a.fields[i]) {
      SameElsewhere(spec, fs, i, b, a);
      vs := [a, b];
    } else {
      var z := Struct(a.fields[i := Zero(fs[i].ty)]);
      assert forall k | 0 <= k < |fs| :: HasType(z.fields[k], fs[k].ty);
      assert !IsZero(z.fields[j]);
      SameElsewhere(spec, fs, i, z, a);
      SameElsewhere(spec, fs, i, b, z);
      vs := [a, z, b];
    }
  }

  // An update of one field to or from zero is judged by that field's tag alone.
  lemma SameElsewhere(spec: Field, fs: seq<Field>, i: nat, n: Value, o: Value)
    requires spec.ty == StructType(fs) && i < |fs| && spec.tag == NoTag
    requires HasType(n, spec.ty) && HasType(o, spec.ty) && !Violates(fs[i], n.fields[i], o.fields[i])
    requires forall j | 0 <= j < |fs| && j != i :: n.fields[j] == o.fields[j]
    requires IsZero(n.fields[i]) || IsZero(o.fields[i])
    ensures Accepts(spec, n, o)
  {
    forall p: Path ensures !Reports(spec, n, o, p) {
      assert Indirect(n) == n && Indirect(o) == o && IndirectType(spec.ty) == spec.ty;
      if |p| > 1 && HasHop(n, p[0]) && HasHop(o, p[0]) {
        var a, b := Below(fs, n, p[0]), Below(fs, o, p[0]);
        if p[0].i != i {
          assert a == b;
          SameIsKept(a.0, a.1, p[1..]);
        } else {
          assert !IsValidStruct(a.1) || !IsValidStruct(b.1);
        }
      }
      if |p| > 0 {
        assert !Broken(fs, n, o, p);
      }
    }
  }

  lemma {:induction false} SameIsKept(t: Type, v: Value, path: Path)
    requires HasType(v, t) && path != []
    ensures IsValidStruct(v) ==> !BrokenBelow(t, v, v, path)
    decreases |path|
  {
    if IsValidStruct(v) && |path| > 1 {
      ValidStructType(v, t);
      var fs, s := IndirectType(t).fields, Indirect(v);
      if HasHop(s, path[0]) {
        var w := Below(fs, s, path[0]);
        SameIsKept(w.0, w.1, path[1..]);
      }
    }
  }
}
