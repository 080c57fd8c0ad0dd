/** Defaulting of a MariaDB object, against the admission webhooks. Strings are numbers with 0 for the
    empty one. Fields that defaulting neither reads nor writes are kept as reflected values of any types
    and tags; what the validators read from them is any function of them.
 */
module Defaults {
  import opened Optional
  import opened Immutability
  import Switchover

  // A Secret or ConfigMap key selector.
  datatype Selector = Selector(name: int, key: int, optional: Option<bool>)

  const NO_SELECTOR := Selector(0, 0, None)

  datatype Metrics = Metrics(
    enabled: bool, exporterImage: int, exporterPort: int, exporterRest: seq<Value>, username: int,
    password: Selector, rest: seq<Value>)

  datatype Spec = Spec(
    image: int, ephemeralStorage: Option<bool>, rootEmptyPassword: Option<bool>, rootPassword: Selector, port: int,
    username: Option<int>, myCnf: Option<int>, myCnfRef: Option<Selector>, password: Option<Selector>,
    metrics: Option<Metrics>, maxScaleRef: Option<int>, maxScaleEnabled: Option<bool>, volumeClaim: Value,
    rest: seq<Value>)

  // The operator's images, and the names derived from the object's own.
  datatype Environment = Environment(image: int, exporterImage: int)

  datatype Names = Names(root: Selector, myCnf: Selector, password: Selector, metrics: int, metricsPassword: Selector, maxScale: int)

  predicate IsTrue(b: Option<bool>) { b == Some(true) }

  // ---- SetDefaults ----

  function DefaultedMetrics(env: Environment, names: Names, m: Metrics): Metrics {
    m.(exporterImage := if m.exporterImage == 0 then env.exporterImage else m.exporterImage,
       exporterPort := if m.exporterPort == 0 then 9104 else m.exporterPort,
       username := if m.username == 0 then names.metrics else m.username,
       password := if m.password == NO_SELECTOR then names.metricsPassword else m.password)
  }

  function Defaulted(env: Environment, names: Names, s: Spec): Spec {
    s.(image := if s.image == 0 then env.image else s.image,
       ephemeralStorage := if s.ephemeralStorage.None? then Some(false) else s.ephemeralStorage,
       rootEmptyPassword := if s.rootEmptyPassword.None? then Some(false) else s.rootEmptyPassword,
       rootPassword := if s.rootPassword == NO_SELECTOR && !IsTrue(s.rootEmptyPassword) then names.root else s.rootPassword,
       port := if s.port == 0 then 3306 else s.port,
       myCnfRef := if s.myCnf.Some? && s.myCnfRef.None? then Some(names.myCnf) else s.myCnfRef,
       password := if s.username.Some? && s.password.None? then Some(names.password) else s.password,
       metrics := if s.metrics.Some? && s.metrics.value.enabled
                  then Some(DefaultedMetrics(env, names, s.metrics.value)) else s.metrics,
       maxScaleRef := if IsTrue(s.maxScaleEnabled) && s.maxScaleRef.None? then Some(names.maxScale) else s.maxScaleRef)
  }

  class MariaDB {
    const names: Names
    var spec: Spec

    constructor (names: Names, spec: Spec)
      ensures this.names == names && this.spec == spec
    {
      this.names, this.spec := names, spec;
    }

    method SetDefaults(env: Environment)
      modifies this
      ensures spec == Defaulted(env, names, old(spec))
    {
      SetStorageDefaults(env);
      SetRootDefaults();
      SetReferenceDefaults();
      SetMetricsDefaults(env);
    }

    method SetStorageDefaults(env: Environment)
      modifies this
      ensures spec == old(spec).(
        image := if old(spec).image == 0 then env.image else old(spec).image,
        ephemeralStorage := if old(spec).ephemeralStorage.None? then Some(false) else old(spec).ephemeralStorage,
        port := if old(spec).port == 0 then 3306 else old(spec).port)
    {
      if spec.image == 0 {
        spec := spec.(image := env.image);
      }
      if spec.ephemeralStorage.None? {
        spec := spec.(ephemeralStorage := Some(false));
      }
      if spec.port == 0 {
        spec := spec.(port := 3306);
      }
    }

    method SetRootDefaults()
      modifies this
      ensures spec == old(spec).(
        rootEmptyPassword := if old(spec).rootEmptyPassword.None? then Some(false) else old(spec).rootEmptyPassword,
        rootPassword := if old(spec).rootPassword == NO_SELECTOR && !IsTrue(old(spec).rootEmptyPassword)
                        then names.root else old(spec).rootPassword)
    {
      if spec.rootEmptyPassword.None? {
        spec := spec.(rootEmptyPassword := Some(false));
      }
      if spec.rootPassword == NO_SELECTOR && !IsTrue(spec.rootEmptyPassword) {
        spec := spec.(rootPassword := names.root);
      }
    }

    method SetReferenceDefaults()
      modifies this
      ensures spec == old(spec).(
        myCnfRef := if old(spec).myCnf.Some? && old(spec).myCnfRef.None? then Some(names.myCnf) else old(spec).myCnfRef,
        password := if old(spec).username.Some? && old(spec).password.None? then Some(names.password) else old(spec).password,
        maxScaleRef := if IsTrue(old(spec).maxScaleEnabled) && old(spec).maxScaleRef.None?
                       then Some(names.maxScale) else old(spec).maxScaleRef)
    {
      if spec.myCnf.Some? && spec.myCnfRef.None? {
        spec := spec.(myCnfRef := Some(names.myCnf));
      }
      if spec.username.Some? && spec.password.None? {
        spec := spec.(password := Some(names.password));
      }
      if IsTrue(spec.maxScaleEnabled) && spec.maxScaleRef.None? {
        spec := spec.(maxScaleRef := Some(names.maxScale));
      }
    }

    method SetMetricsDefaults(env: Environment)
      modifies this
      ensures spec == old(spec).(metrics :=
        if old(spec).metrics.Some? && old(spec).metrics.value.enabled
        then Some(DefaultedMetrics(env, names, old(spec).metrics.value)) else old(spec).metrics)
    {
      if spec.metrics.None? || !spec.metrics.value.enabled {
        return;
      }
      var m := spec.metrics.value;
      if m.exporterImage == 0 {
        m := m.(exporterImage := env.exporterImage);
      }
      if m.exporterPort == 0 {
        m := m.(exporterPort := 9104);
      }
      if m.username == 0 {
        m := m.(username := names.metrics);
      }
      if m.password == NO_SELECTOR {
        m := m.(password := names.metricsPassword);
      }
      spec := spec.(metrics := Some(m));
    }
  }

  lemma Idempotent(env: Environment, names: Names, s: Spec)
    ensures Defaulted(env, names, Defaulted(env, names, s)) == Defaulted(env, names, s)
  {
    if s.metrics.Some? && s.metrics.value.enabled {
      var m := DefaultedMetrics(env, names, s.metrics.value);
      assert DefaultedMetrics(env, names, m) == m;
    }
  }

  // An object that says everything the operator needs of it.
  predicate Settled(s: Spec) {
    && s.image != 0 && s.port != 0 && s.ephemeralStorage.Some? && s.rootEmptyPassword.Some?
    && (IsTrue(s.rootEmptyPassword) || s.rootPassword != NO_SELECTOR)
    && (s.myCnf.Some? ==> s.myCnfRef.Some?) && (s.username.Some? ==> s.password.Some?)
    && (IsTrue(s.maxScaleEnabled) ==> s.maxScaleRef.Some?)
    && (s.metrics.Some? && s.metrics.value.enabled ==> SettledMetrics(s.metrics.value))
  }

  predicate SettledMetrics(m: Metrics) {
    m.exporterImage != 0 && m.exporterPort != 0 && m.username != 0 && m.password != NO_SELECTOR
  }

  predicate Named(env: Environment, names: Names) {
    && env.image != 0 && env.exporterImage != 0 && names.metrics != 0
    && names.root != NO_SELECTOR && names.metricsPassword != NO_SELECTOR
  }

  // Defaulting settles every object, and changes exactly those that are not settled.
  lemma DefaultingSettles(env: Environment, names: Names, s: Spec)
    requires Named(env, names)
    ensures Settled(Defaulted(env, names, s))
    ensures Defaulted(env, names, s) == s <==> Settled(s)
  {
    if s.metrics.Some? && s.metrics.value.enabled {
      var m := DefaultedMetrics(env, names, s.metrics.value);
      assert SettledMetrics(m) && (m == s.metrics.value <==> SettledMetrics(s.metrics.value));
    }
  }

  // An object that says nothing gets the ports 3306 and 9104, its own Secrets and ConfigMaps, a root password
  // and no ephemeral storage.
  lemma BareDefaults(env: Environment, names: Names, user: Option<int>, cnf: Option<int>, claim: Value, rest: seq<Value>, more: seq<Value>)
    ensures
      var bare := Metrics(true, 0, 0, more, 0, NO_SELECTOR, rest);
      var full := Metrics(true, env.exporterImage, 9104, more, names.metrics, names.metricsPassword, rest);
      Defaulted(env, names, Spec(0, None, None, NO_SELECTOR, 0, user, cnf, None, None, Some(bare), None, Some(true), claim, rest))
      == Spec(env.image, Some(false), Some(false), names.root, 3306, user, cnf,
              if cnf.Some? then Some(names.myCnf) else None, if user.Some? then Some(names.password) else None,
              Some(full), Some(names.maxScale), Some(true), claim, rest)
  {}

  // ---- The immutability webhook ----

  // The types of the fields this model does not name.
  datatype Schema = Schema(exporter: seq<Field>, metrics: seq<Field>, claim: Type, rest: seq<Field>)

  const SCALAR := Field(true, NoTag, ScalarType)
  const INIT_SCALAR := Field(true, InmutableInit, ScalarType)

  function SelectorType(): Type {
    StructType([Field(true, NoTag, StructType([SCALAR])), SCALAR, Field(true, NoTag, PointerType(ScalarType))])
  }

  function ExporterType(k: Schema): Type { StructType([SCALAR, SCALAR] + k.exporter) }

  function MetricsType(k: Schema): Type {
    StructType([SCALAR, Field(true, NoTag, ExporterType(k)), INIT_SCALAR,
                Field(true, InmutableInit, SelectorType())] + k.metrics)
  }

  const STORAGE: seq<Field> :=
    [SCALAR, Field(true, InmutableInit, PointerType(ScalarType)), Field(true, InmutableInit, PointerType(ScalarType)),
     Field(true, InmutableInit, SelectorType()), SCALAR]

  const REFERENCES: seq<Field> :=
    [Field(true, Inmutable, PointerType(ScalarType)), Field(true, Inmutable, PointerType(ScalarType)),
     Field(true, InmutableInit, PointerType(SelectorType())), Field(true, InmutableInit, PointerType(SelectorType()))]

  function MetricsField(k: Schema): Field { Field(true, NoTag, PointerType(MetricsType(k))) }

  function Extras(k: Schema): seq<Field> {
    [MetricsField(k), Field(true, NoTag, PointerType(ScalarType)), Field(true, NoTag, PointerType(ScalarType)),
     Field(true, Inmutable, k.claim)]
  }

  function SpecFields(k: Schema): seq<Field> { STORAGE + REFERENCES + Extras(k) + k.rest }

  function SpecField(k: Schema): Field { Field(true, NoTag, StructType(SpecFields(k))) }

  function Bit(b: bool): Value { Scalar(if b then 1 else 0) }

  function Flag(b: Option<bool>): Value { if b.Some? then Pointer(Bit(b.value)) else NilPointer }

  function Text(n: Option<int>): Value { if n.Some? then Pointer(Scalar(n.value)) else NilPointer }

  function OfSelector(r: Selector): Value {
    Struct([Struct([Scalar(r.name)]), Scalar(r.key), Flag(r.optional)])
  }

  function OfSelectorPtr(r: Option<Selector>): Value { if r.Some? then Pointer(OfSelector(r.value)) else NilPointer }

  function OfExporter(m: Metrics): Value { Struct([Scalar(m.exporterImage), Scalar(m.exporterPort)] + m.exporterRest) }

  function OfMetrics(m: Metrics): Value {
    Struct([Bit(m.enabled), OfExporter(m), Scalar(m.username), OfSelector(m.password)] + m.rest)
  }

  function OfMetricsPtr(m: Option<Metrics>): Value { if m.Some? then Pointer(OfMetrics(m.value)) else NilPointer }

  function OfStorage(s: Spec): seq<Value> {
    [Scalar(s.image), Flag(s.ephemeralStorage), Flag(s.rootEmptyPassword), OfSelector(s.rootPassword), Scalar(s.port)]
  }

  function OfReferences(s: Spec): seq<Value> {
    [Text(s.username), Text(s.myCnf), OfSelectorPtr(s.myCnfRef), OfSelectorPtr(s.password)]
  }

  function OfExtras(s: Spec): seq<Value> {
    [OfMetricsPtr(s.metrics), Text(s.maxScaleRef), Flag(s.maxScaleEnabled), s.volumeClaim]
  }

  function OfSpec(s: Spec): Value { Struct(OfStorage(s) + OfReferences(s) + OfExtras(s) + s.rest) }

  predicate HaveTypes(vs: seq<Value>, fs: seq<Field>) {
    |vs| == |fs| && forall i | 0 <= i < |fs| :: HasType(vs[i], fs[i].ty)
  }

  predicate WellTyped(k: Schema, s: Spec) {
    && HasType(s.volumeClaim, k.claim) && HaveTypes(s.rest, k.rest)
    && (s.metrics.Some? ==> HaveTypes(s.metrics.value.exporterRest, k.exporter) && HaveTypes(s.metrics.value.rest, k.metrics))
  }

  // An update that leaves a value alone, fills it where it was nil or zero and not inmutable, or does so
  // below a struct without a tag.
  predicate Fills(f: Field, n: Value, o: Value)
    requires HasType(n, f.ty) && HasType(o, f.ty)
    decreases n
  {
    || n == o
    || (f.tag != Inmutable && IsZero(o))
    || (&& f.tag == NoTag && IsValidStruct(n) && IsValidStruct(o)
        && (ValidStructType(n, f.ty); ValidStructType(o, f.ty);
            var fs := IndirectType(f.ty).fields;
            forall i | 0 <= i < |fs| ::
              HasType(Indirect(n).fields[i], fs[i].ty) && HasType(Indirect(o).fields[i], fs[i].ty)
              && Fills(fs[i], Indirect(n).fields[i], Indirect(o).fields[i])))
  }

  // Such updates are always accepted.
  lemma {:induction false} FillsReportsNothing(f: Field, n: Value, o: Value, path: Path)
    requires HasType(n, f.ty) && HasType(o, f.ty) && Fills(f, n, o)
    ensures !Reports(f, n, o, path)
    decreases |path|
  {
    if n == o {
      if path != [] {
        SameIsKept(f.ty, n, path);
      }
    } else if IsValidStruct(n) && IsValidStruct(o) && path != [] {
      ValidStructType(n, f.ty);
      ValidStructType(o, f.ty);
      var fs, a, b := IndirectType(f.ty).fields, Indirect(n), Indirect(o);
      if path[0].i < |fs| && HasHop(a, path[0]) && HasHop(b, path[0]) {
        var i := path[0].i;
        assert Fills(fs[i], a.fields[i], b.fields[i]);
        assert !Violates(fs[i], a.fields[i], b.fields[i]);
        var x, y := Below(fs, a, path[0]), Below(fs, b, path[0]);
        if |path| > 1 && IsValidStruct(x.1) && IsValidStruct(y.1) {
          if path[0].Into? {
            FillsReportsNothing(fs[i], a.fields[i], b.fields[i], path[1..]);
          } else {
            assert a.fields[i] == b.fields[i];
            SameIsKept(x.0, x.1, path[1..]);
          }
          assert !BrokenBelow(x.0, x.1, y.1, path[1..]);
        }
      }
      assert !Broken(fs, a, b, path);
    }
  }

  lemma TypedSelector(r: Selector)
    ensures HasType(OfSelector(r), SelectorType())
    ensures IsZero(OfSelector(r)) <==> r == NO_SELECTOR
  {
    var v := OfSelector(r);
    assert HasType(v.fields[0], StructType([SCALAR])) && HasType(v.fields[1], ScalarType);
    assert HasType(v.fields[2], PointerType(ScalarType));
    assert IsZero(v.fields[0]) <==> IsZero(v.fields[0].fields[0]);
    assert IsZero(v) <==> IsZero(v.fields[0]) && IsZero(v.fields[1]) && IsZero(v.fields[2]);
  }

  lemma TypedExporter(k: Schema, m: Metrics)
    requires HaveTypes(m.exporterRest, k.exporter)
    ensures HasType(OfExporter(m), ExporterType(k))
  {
    var v, fs := OfExporter(m), ExporterType(k).fields;
    forall i | 0 <= i < |fs| ensures HasType(v.fields[i], fs[i].ty) {
      if i >= 2 {
        assert v.fields[i] == m.exporterRest[i - 2] && fs[i] == k.exporter[i - 2];
      }
    }
  }

  lemma TypedMetrics(k: Schema, m: Metrics)
    requires HaveTypes(m.exporterRest, k.exporter) && HaveTypes(m.rest, k.metrics)
    ensures HasType(OfMetrics(m), MetricsType(k))
  {
    var v, fs := OfMetrics(m), MetricsType(k).fields;
    TypedExporter(k, m);
    TypedSelector(m.password);
    forall i | 0 <= i < |fs| ensures HasType(v.fields[i], fs[i].ty) {
      if i >= 4 {
        assert v.fields[i] == m.rest[i - 4] && fs[i] == k.metrics[i - 4];
      }
    }
  }

  lemma TypedSelectorPtr(r: Option<Selector>)
    ensures HasType(OfSelectorPtr(r), PointerType(SelectorType()))
  {
    if r.Some? {
      TypedSelector(r.value);
    }
  }

  lemma TypedGroups(k: Schema, s: Spec)
    requires WellTyped(k, s)
    ensures HaveTypes(OfStorage(s), STORAGE) && HaveTypes(OfReferences(s), REFERENCES)
    ensures HaveTypes(OfExtras(s), Extras(k))
  {
    TypedSelector(s.rootPassword);
    TypedSelectorPtr(s.myCnfRef);
    TypedSelectorPtr(s.password);
    if s.metrics.Some? {
      TypedMetrics(k, s.metrics.value);
    }
  }

  lemma TypedSpec(k: Schema, s: Spec)
    requires WellTyped(k, s)
    ensures HaveTypes(OfStorage(s), STORAGE) && HaveTypes(OfReferences(s), REFERENCES)
    ensures HaveTypes(OfExtras(s), Extras(k))
    ensures HasType(OfSpec(s), SpecField(k).ty)
  {
    TypedGroups(k, s);
    TypedConcat(OfStorage(s), OfReferences(s), STORAGE, REFERENCES);
    TypedConcat(OfStorage(s) + OfReferences(s), OfExtras(s), STORAGE + REFERENCES, Extras(k));
    TypedConcat(OfStorage(s) + OfReferences(s) + OfExtras(s), s.rest, STORAGE + REFERENCES + Extras(k), k.rest);
  }

  lemma TypedConcat(a: seq<Value>, b: seq<Value>, fs: seq<Field>, gs: seq<Field>)
    requires HaveTypes(a, fs) && HaveTypes(b, gs)
    ensures HaveTypes(a + b, fs + gs)
  {}

  predicate FillAll(fs: seq<Field>, n: seq<Value>, o: seq<Value>)
    requires HaveTypes(n, fs) && HaveTypes(o, fs)
  {
    forall i | 0 <= i < |fs| :: Fills(fs[i], n[i], o[i])
  }

  lemma FillConcat(fs: seq<Field>, n: seq<Value>, o: seq<Value>, gs: seq<Field>, p: seq<Value>, q: seq<Value>)
    requires HaveTypes(n, fs) && HaveTypes(o, fs) && FillAll(fs, n, o)
    requires HaveTypes(p, gs) && HaveTypes(q, gs) && FillAll(gs, p, q)
    ensures HaveTypes(n + p, fs + gs) && HaveTypes(o + q, fs + gs) && FillAll(fs + gs, n + p, o + q)
  {}

  // A struct, or a pointer to one, of which each field is filled is filled.
  lemma FillsStruct(f: Field, n: Value, o: Value)
    requires HasType(n, f.ty) && HasType(o, f.ty) && f.tag == NoTag && IsValidStruct(n) && IsValidStruct(o)
    requires IndirectType(f.ty).StructType? && Indirect(n).Struct? && Indirect(o).Struct?
    requires HaveTypes(Indirect(n).fields, IndirectType(f.ty).fields)
    requires HaveTypes(Indirect(o).fields, IndirectType(f.ty).fields)
    requires FillAll(IndirectType(f.ty).fields, Indirect(n).fields, Indirect(o).fields)
    ensures Fills(f, n, o)
  {}

  lemma ExporterFills(env: Environment, names: Names, k: Schema, m: Metrics)
    requires HaveTypes(m.exporterRest, k.exporter)
    ensures
      var d := DefaultedMetrics(env, names, m);
      && HasType(OfExporter(d), ExporterType(k)) && HasType(OfExporter(m), ExporterType(k))
      && Fills(Field(true, NoTag, ExporterType(k)), OfExporter(d), OfExporter(m))
  {
    var d := DefaultedMetrics(env, names, m);
    TypedExporter(k, d);
    TypedExporter(k, m);
    var n, o := OfExporter(d), OfExporter(m);
    if !IsZero(o) {
      assert !IsZero(n.fields[1]);
      var a, b := [Scalar(d.exporterImage), Scalar(d.exporterPort)], [Scalar(m.exporterImage), Scalar(m.exporterPort)];
      FillConcat([SCALAR, SCALAR], a, b, k.exporter, m.exporterRest, m.exporterRest);
      FillsStruct(Field(true, NoTag, ExporterType(k)), n, o);
    }
  }

  lemma MetricsFills(env: Environment, names: Names, k: Schema, m: Metrics)
    requires HaveTypes(m.exporterRest, k.exporter) && HaveTypes(m.rest, k.metrics)
    ensures
      var n, o := OfMetricsPtr(Some(DefaultedMetrics(env, names, m))), OfMetricsPtr(Some(m));
      && HasType(n, MetricsField(k).ty) && HasType(o, MetricsField(k).ty)
      && Fills(MetricsField(k), n, o)
  {
    var d := DefaultedMetrics(env, names, m);
    TypedMetrics(k, d);
    TypedMetrics(k, m);
    ExporterFills(env, names, k, m);
    TypedSelector(m.password);
    TypedSelector(d.password);
    var fs := [SCALAR, Field(true, NoTag, ExporterType(k)), INIT_SCALAR, Field(true, InmutableInit, SelectorType())];
    var a := [Bit(d.enabled), OfExporter(d), Scalar(d.username), OfSelector(d.password)];
    var b := [Bit(m.enabled), OfExporter(m), Scalar(m.username), OfSelector(m.password)];
    FillConcat(fs, a, b, k.metrics, m.rest, m.rest);
    FillsStruct(MetricsField(k), OfMetricsPtr(Some(d)), OfMetricsPtr(Some(m)));
  }

  lemma StorageFills(env: Environment, names: Names, s: Spec)
    requires HaveTypes(OfStorage(s), STORAGE) && HaveTypes(OfStorage(Defaulted(env, names, s)), STORAGE)
    ensures FillAll(STORAGE, OfStorage(Defaulted(env, names, s)), OfStorage(s))
  {
    TypedSelector(s.rootPassword);
    var n, o := OfStorage(Defaulted(env, names, s)), OfStorage(s);
    assert forall i | 0 <= i < 5 :: n[i] == o[i] || IsZero(o[i]);
  }

  lemma ReferencesFill(env: Environment, names: Names, s: Spec)
    requires HaveTypes(OfReferences(s), REFERENCES) && HaveTypes(OfReferences(Defaulted(env, names, s)), REFERENCES)
    ensures FillAll(REFERENCES, OfReferences(Defaulted(env, names, s)), OfReferences(s))
  {
    var n, o := OfReferences(Defaulted(env, names, s)), OfReferences(s);
    assert n[0] == o[0] && n[1] == o[1];
    assert forall i | 2 <= i < 4 :: n[i] == o[i] || IsZero(o[i]);
  }

  lemma ExtrasFill(env: Environment, names: Names, k: Schema, s: Spec)
    requires WellTyped(k, s)
    requires HaveTypes(OfExtras(s), Extras(k)) && HaveTypes(OfExtras(Defaulted(env, names, s)), Extras(k))
    ensures FillAll(Extras(k), OfExtras(Defaulted(env, names, s)), OfExtras(s))
  {
    if s.metrics.Some? && s.metrics.value.enabled {
      MetricsFills(env, names, k, s.metrics.value);
    }
    var n, o := OfExtras(Defaulted(env, names, s)), OfExtras(s);
    assert n[2] == o[2] && n[3] == o[3];
    assert n[1] == o[1] || IsZero(o[1]);
    assert Fills(Extras(k)[0], n[0], o[0]);
  }

  // Defaulting only fills: it changes no field that is inmutable, and none that has a value.
  lemma DefaultedFills(env: Environment, names: Names, k: Schema, s: Spec)
    requires WellTyped(k, s)
    ensures
      var n, o := OfSpec(Defaulted(env, names, s)), OfSpec(s);
      HasType(n, SpecField(k).ty) && HasType(o, SpecField(k).ty) && Fills(SpecField(k), n, o)
  {
    var d := Defaulted(env, names, s);
    TypedSpec(k, d);
    TypedSpec(k, s);
    StorageFills(env, names, s);
    ReferencesFill(env, names, s);
    ExtrasFill(env, names, k, s);
    FillConcat(STORAGE, OfStorage(d), OfStorage(s), REFERENCES, OfReferences(d), OfReferences(s));
    FillConcat(STORAGE + REFERENCES, OfStorage(d) + OfReferences(d), OfStorage(s) + OfReferences(s),
               Extras(k), OfExtras(d), OfExtras(s));
    FillConcat(STORAGE + REFERENCES + Extras(k), OfStorage(d) + OfReferences(d) + OfExtras(d),
               OfStorage(s) + OfReferences(s) + OfExtras(s), k.rest, s.rest, s.rest);
    var n, o := OfSpec(d), OfSpec(s);
    if !IsZero(o) {
      assert n.fields[4] == OfStorage(d)[4] && !IsZero(n.fields[4]);
      FillsStruct(SpecField(k), n, o);
    }
  }

  // The immutability webhook accepts the update that defaulting makes.
  lemma DefaultingIsAccepted(env: Environment, names: Names, k: Schema, s: Spec)
    requires WellTyped(k, s)
    ensures
      var n, o := OfSpec(Defaulted(env, names, s)), OfSpec(s);
      HasType(n, SpecField(k).ty) && HasType(o, SpecField(k).ty) && Accepts(SpecField(k), n, o)
  {
    DefaultedFills(env, names, k, s);
    var n, o := OfSpec(Defaulted(env, names, s)), OfSpec(s);
    forall path: Path ensures !Reports(SpecField(k), n, o, path) {
      FillsReportsNothing(SpecField(k), n, o, path);
    }
  }

  // ---- The validators ----

  // What they read from the other fields: high availability and the replica count, the Galera settings, and
  // whether the replica settings, the bootstrap source and the disruption budget are valid.
  datatype View = View(
    ha: Switchover.Spec, replicas: nat, galeraTarget: int, sstValid: bool, threads: int, replicaValid: bool,
    bootstrapValid: bool, budgetValid: bool)

  predicate ValidSettings(v: View) {
    && (v.ha.galera ==> 0 <= v.galeraTarget < v.replicas && v.sstValid && v.threads >= 1)
    && (v.ha.replication ==> v.replicaValid) && v.bootstrapValid && v.budgetValid
  }

  predicate ValidStorage(s: Spec) { IsTrue(s.ephemeralStorage) <==> IsZero(s.volumeClaim) }

  predicate ValidRootPassword(s: Spec) { !(IsTrue(s.rootEmptyPassword) && s.rootPassword != NO_SELECTOR) }

  predicate ValidMaxScale(s: Spec) { !(s.maxScaleRef.Some? && s.maxScaleEnabled.Some?) }

  predicate ValidSpec(view: seq<Value> -> View, s: Spec) {
    && Switchover.ValidHA(view(s.rest).ha, view(s.rest).replicas)
    && Switchover.ValidTarget(view(s.rest).ha, view(s.rest).replicas)
    && ValidSettings(view(s.rest)) && ValidStorage(s) && ValidRootPassword(s)
  }

  predicate ValidCreate(view: seq<Value> -> View, s: Spec) { ValidSpec(view, s) && ValidMaxScale(s) }

  ghost predicate ValidUpdate(view: seq<Value> -> View, k: Schema, n: Spec, o: Spec, switching: bool)
    requires WellTyped(k, n) && WellTyped(k, o)
  {
    TypedSpec(k, n);
    TypedSpec(k, o);
    && Accepts(SpecField(k), OfSpec(n), OfSpec(o)) && ValidSpec(view, n)
    && Switchover.ValidPrimarySwitchover(view(o.rest).ha, view(n.rest).ha, switching)
  }

  // Every object that can be created can be updated to its defaulted form, at any time. That form could
  // itself be created if and only if the object does not ask for a MaxScale of its own.
  lemma DefaultingIsAdmitted(
      view: seq<Value> -> View, env: Environment, names: Names, k: Schema, s: Spec, switching: bool)
    requires WellTyped(k, s) && ValidCreate(view, s)
    ensures WellTyped(k, Defaulted(env, names, s))
    ensures ValidUpdate(view, k, Defaulted(env, names, s), s, switching)
    ensures ValidCreate(view, Defaulted(env, names, s)) <==> !IsTrue(s.maxScaleEnabled)
  {
    DefaultingIsAccepted(env, names, k, s);
  }
}
