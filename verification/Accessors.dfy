/** The filling accessors of the replication and Galera settings. A plan says, field by field, what
    FillWithDefaults does: nothing, fill what is nil or zero, or go on inside a struct that is there.
 */
module Accessors {
  import opened Immutability
  import opened Defaults

  datatype Plan = Keep | WhenZero | Within(plans: seq<Plan>)

  function Filled(p: Plan, v: Value, d: Value): Value
    decreases v
  {
    match p
    case Keep => v
    case WhenZero => if IsZero(v) then d else v
    case Within(ps) =>
      if v.NilPointer? then d
      else if v.Pointer? && v.target.Struct? && d.Pointer? && d.target.Struct? then
        Pointer(Struct(FilledAll(ps, v.target.fields, d.target.fields)))
      else if v.Struct? && d.Struct? then Struct(FilledAll(ps, v.fields, d.fields))
      else v
  }

  function FilledAll(ps: seq<Plan>, vs: seq<Value>, ds: seq<Value>): (r: seq<Value>)
    ensures |r| == |vs|
    decreases vs
  {
    seq(|vs|, i requires 0 <= i < |vs| => if i < |ps| && i < |ds| then Filled(ps[i], vs[i], ds[i]) else vs[i])
  }

  lemma {:induction false} FilledHasType(p: Plan, t: Type, v: Value, d: Value)
    requires HasType(v, t) && HasType(d, t)
    ensures HasType(Filled(p, v, d), t)
    decreases v
  {
    if p.Within? {
      if v.Pointer? && v.target.Struct? && d.Pointer? && d.target.Struct? {
        FilledAllHasType(p.plans, t.elem.fields, v.target, d.target);
      } else if v.Struct? && d.Struct? {
        FilledAllHasType(p.plans, t.fields, v, d);
      }
    }
  }

  lemma {:induction false} FilledAllHasType(ps: seq<Plan>, fs: seq<Field>, v: Value, d: Value)
    requires HasType(v, StructType(fs)) && HasType(d, StructType(fs))
    ensures HasType(Struct(FilledAll(ps, v.fields, d.fields)), StructType(fs))
    decreases v, 0
  {
    var r := FilledAll(ps, v.fields, d.fields);
    forall i | 0 <= i < |fs| ensures HasType(r[i], fs[i].ty) {
      if i < |ps| {
        FilledHasType(ps[i], fs[i].ty, v.fields[i], d.fields[i]);
      }
    }
  }

  // ---- Idempotence ----

  lemma {:induction false} FilledSelf(p: Plan, d: Value)
    ensures Filled(p, d, d) == d
    decreases d
  {
    if p.Within? {
      if d.Pointer? && d.target.Struct? {
        FilledAllSelf(p.plans, d.target);
      } else if d.Struct? {
        FilledAllSelf(p.plans, d);
      }
    }
  }

  lemma {:induction false} FilledAllSelf(ps: seq<Plan>, d: Value)
    requires d.Struct?
    ensures FilledAll(ps, d.fields, d.fields) == d.fields
    decreases d, 0
  {
    forall i | 0 <= i < |d.fields| ensures FilledAll(ps, d.fields, d.fields)[i] == d.fields[i] {
      if i < |ps| {
        FilledSelf(ps[i], d.fields[i]);
      }
    }
  }

  // Filling twice is filling once, whatever the plan and the defaults.
  lemma {:induction false} FilledTwice(p: Plan, v: Value, d: Value)
    ensures Filled(p, Filled(p, v, d), d) == Filled(p, v, d)
    decreases v
  {
    FilledSelf(p, d);
    if p.Within? {
      if v.Pointer? && v.target.Struct? && d.Pointer? && d.target.Struct? {
        FilledAllTwice(p.plans, v.target, d.target);
      } else if v.Struct? && d.Struct? {
        FilledAllTwice(p.plans, v, d);
      }
    }
  }

  lemma {:induction false} FilledAllTwice(ps: seq<Plan>, v: Value, d: Value)
    requires v.Struct? && d.Struct?
    ensures
      var r := FilledAll(ps, v.fields, d.fields);
      FilledAll(ps, r, d.fields) == r
    decreases v, 0
  {
    var r := FilledAll(ps, v.fields, d.fields);
    forall i | 0 <= i < |r| ensures FilledAll(ps, r, d.fields)[i] == r[i] {
      if i < |ps| && i < |d.fields| {
        FilledTwice(ps[i], v.fields[i], d.fields[i]);
      }
    }
  }

  // ---- Acceptance ----

  lemma {:induction false} FilledNonZero(p: Plan, v: Value, d: Value)
    requires !IsZero(v)
    ensures !IsZero(Filled(p, v, d))
    decreases v
  {
    if p.Within? && v.Struct? && d.Struct? {
      var i :| 0 <= i < |v.fields| && !IsZero(v.fields[i]);
      if i < |p.plans| && i < |d.fields| {
        FilledNonZero(p.plans[i], v.fields[i], d.fields[i]);
      }
      assert !IsZero(FilledAll(p.plans, v.fields, d.fields)[i]);
    }
  }

  // The plan fills no inmutable field and goes on only inside structs without a tag.
  predicate Compatible(p: Plan, f: Field)
    decreases p
  {
    match p
    case Keep => true
    case WhenZero => f.tag != Inmutable
    case Within(ps) =>
      && f.tag == NoTag && IndirectType(f.ty).StructType? && |ps| <= |IndirectType(f.ty).fields|
      && forall i | 0 <= i < |ps| :: Compatible(ps[i], IndirectType(f.ty).fields[i])
  }

  lemma {:induction false} FilledFills(p: Plan, f: Field, v: Value, d: Value)
    requires HasType(v, f.ty) && HasType(d, f.ty) && Compatible(p, f)
    ensures HasType(Filled(p, v, d), f.ty) && Fills(f, Filled(p, v, d), v)
    decreases v
  {
    FilledHasType(p, f.ty, v, d);
    if p.Within? && !IsZero(v) {
      if v.Pointer? && d.Pointer? {
        assert HasType(v.target, f.ty.elem) && HasType(d.target, f.ty.elem);
        FilledAllFills(p.plans, f.ty.elem.fields, v.target, d.target);
        FillsStruct(f, Filled(p, v, d), v);
      } else if v.Struct? {
        FilledNonZero(p, v, d);
        FilledAllFills(p.plans, f.ty.fields, v, d);
        FillsStruct(f, Filled(p, v, d), v);
      }
    }
  }

  lemma {:induction false} FilledAllFills(ps: seq<Plan>, fs: seq<Field>, v: Value, d: Value)
    requires HasType(v, StructType(fs)) && HasType(d, StructType(fs)) && |ps| <= |fs|
    requires forall i | 0 <= i < |ps| :: Compatible(ps[i], fs[i])
    ensures
      var r := FilledAll(ps, v.fields, d.fields);
      HaveTypes(r, fs) && HaveTypes(v.fields, fs) && FillAll(fs, r, v.fields)
    decreases v, 0
  {
    var r := FilledAll(ps, v.fields, d.fields);
    FilledAllHasType(ps, fs, v, d);
    assert HaveTypes(r, fs) && HaveTypes(v.fields, fs);
    forall i | 0 <= i < |fs| ensures Fills(fs[i], r[i], v.fields[i]) {
      if i < |ps| {
        FilledFills(ps[i], fs[i], v.fields[i], d.fields[i]);
      }
    }
  }

  // The immutability webhook accepts an object in which an accessor has filled one field.
  lemma FillingIsAccepted(spec: Field, i: nat, p: Plan, o: Value, d: Value)
    requires spec.tag == NoTag && spec.ty.StructType? && i < |spec.ty.fields| && HasType(o, spec.ty)
    requires Compatible(p, spec.ty.fields[i]) && HasType(d, spec.ty.fields[i].ty)
    ensures
      var n := Struct(o.fields[i := Filled(p, o.fields[i], d)]);
      HasType(n, spec.ty) && Accepts(spec, n, o)
  {
    var fs := spec.ty.fields;
    assert HasType(o.fields[i], fs[i].ty);
    FilledFills(p, fs[i], o.fields[i], d);
    var n := Struct(o.fields[i := Filled(p, o.fields[i], d)]);
    assert forall k | 0 <= k < |fs| :: HasType(n.fields[k], fs[k].ty);
    if !IsZero(o) {
      var k :| 0 <= k < |fs| && !IsZero(o.fields[k]);
      if k == i {
        FilledNonZero(p, o.fields[i], d);
      }
      assert !IsZero(n.fields[k]);
      FillsStruct(spec, n, o);
    }
    forall path: Path ensures !Reports(spec, n, o, path) {
      FillsReportsNothing(spec, n, o, path);
    }
  }

  // ---- The two accessors ----

  const NILABLE := Field(true, NoTag, PointerType(ScalarType))

  function StructField(fs: seq<Field>): Field { Field(true, NoTag, StructType(fs)) }

  function PointerField(fs: seq<Field>): Field { Field(true, NoTag, PointerType(StructType(fs))) }

  // Pod index and automatic failover.
  const PRIMARY_PLAN := Within([WhenZero, WhenZero])
  const PRIMARY := PointerField([NILABLE, NILABLE])

  // Wait point, GTID, password reference, connection timeout and retries, sync timeout.
  const REPLICA_PLAN := Within([WhenZero, WhenZero, Keep, WhenZero, WhenZero, WhenZero])
  const REPLICA := PointerField([NILABLE, NILABLE, Field(true, NoTag, PointerType(SelectorType())), NILABLE, NILABLE, NILABLE])

  // The embedded specification (primary, replica, binary log, probes) and the enabled flag.
  const REPLICATION_PLAN := Within([Within([PRIMARY_PLAN, REPLICA_PLAN, WhenZero, WhenZero]), Keep])
  const REPLICATION := PointerField([StructField([PRIMARY, REPLICA, NILABLE, NILABLE]), SCALAR])

  // Agent: container template, image, pull policy, port, authentication, shutdown timeout.
  const AGENT_PLAN := Within([Keep, WhenZero, WhenZero, WhenZero, WhenZero, WhenZero])

  // Recovery: the enabled flag and four timeouts.
  const RECOVERY_PLAN := Within([Keep, WhenZero, WhenZero, WhenZero, WhenZero])
  const RECOVERY := PointerField([SCALAR, NILABLE, NILABLE, NILABLE, NILABLE])

  // Primary, snapshot transfer, threads, agent, recovery, init container, volume claim; enabled flag.
  const GALERA_PLAN :=
    Within([Within([PRIMARY_PLAN, WhenZero, WhenZero, AGENT_PLAN, RECOVERY_PLAN, WhenZero, WhenZero]), Keep])

  // The types of the container template, the authentication, the init container and the volume claim
  // may be any, with any tags inside.
  function GaleraField(template: Field, auth: Type, container: Type, claim: Type): Field {
    PointerField([
      StructField([PRIMARY, NILABLE, NILABLE,
        PointerField([template, SCALAR, SCALAR, NILABLE, Field(true, NoTag, PointerType(auth)), NILABLE]), RECOVERY,
        Field(true, NoTag, PointerType(container)), Field(true, NoTag, PointerType(claim))]), SCALAR])
  }

  lemma PrimaryCompatible()
    ensures Compatible(PRIMARY_PLAN, PRIMARY)
  {
    assert Compatible(WhenZero, NILABLE);
  }

  lemma ReplicationCompatible()
    ensures Compatible(REPLICATION_PLAN, REPLICATION)
  {
    PrimaryCompatible();
    assert Compatible(WhenZero, NILABLE);
    assert Compatible(REPLICA_PLAN, REPLICA);
    assert Compatible(REPLICATION_PLAN.plans[0], IndirectType(REPLICATION.ty).fields[0]);
  }

  lemma GaleraCompatible(template: Field, auth: Type, container: Type, claim: Type)
    ensures Compatible(GALERA_PLAN, GaleraField(template, auth, container, claim))
  {
    PrimaryCompatible();
    assert Compatible(WhenZero, NILABLE) && Compatible(WhenZero, SCALAR);
    assert Compatible(RECOVERY_PLAN, RECOVERY);
    var f := IndirectType(GaleraField(template, auth, container, claim).ty).fields[0];
    assert Compatible(AGENT_PLAN, f.ty.fields[3]);
    assert Compatible(GALERA_PLAN.plans[0], f);
  }

  // Whichever accessor has filled its field of a spec, the webhook accepts the result as an update of
  // what it was, and calling the accessor again changes nothing.
  lemma AccessorsAreHarmless(
      spec: Field, i: nat, o: Value, d: Value, template: Field, auth: Type, container: Type, claim: Type, p: Plan)
    requires spec.tag == NoTag && spec.ty.StructType? && i < |spec.ty.fields| && HasType(o, spec.ty)
    requires HasType(d, spec.ty.fields[i].ty)
    requires (p == REPLICATION_PLAN && spec.ty.fields[i] == REPLICATION)
          || (p == GALERA_PLAN && spec.ty.fields[i] == GaleraField(template, auth, container, claim))
    ensures
      var n := Struct(o.fields[i := Filled(p, o.fields[i], d)]);
      HasType(n, spec.ty) && Accepts(spec, n, o) && Filled(p, n.fields[i], d) == n.fields[i]
  {
    if p == REPLICATION_PLAN && spec.ty.fields[i] == REPLICATION {
      ReplicationCompatible();
    } else {
      GaleraCompatible(template, auth, container, claim);
    }
    FillingIsAccepted(spec, i, p, o, d);
    FilledTwice(p, o.fields[i], d);
  }

  // ---- Nothing the operator reads is left unset ----

  // Field i of the struct a value points to, or is.
  function At(v: Value, i: nat): Value {
    var w := Indirect(v);
    if w.Struct? && i < |w.fields| then w.fields[i] else NilPointer
  }

  predicate AllSet(v: Value, ix: seq<nat>) {
    forall k | 0 <= k < |ix| :: !IsZero(At(v, ix[k]))
  }

  predicate FullPrimary(v: Value) { v.Pointer? && AllSet(v, [0, 1]) }

  predicate FullReplica(v: Value) { v.Pointer? && AllSet(v, [0, 1, 3, 4, 5]) }

  predicate FullReplication(v: Value) {
    v.Pointer? && FullPrimary(At(At(v, 0), 0)) && FullReplica(At(At(v, 0), 1)) && AllSet(At(v, 0), [2, 3])
  }

  predicate FullGalera(v: Value) {
    var g := At(v, 0);
    && v.Pointer? && FullPrimary(At(g, 0)) && AllSet(g, [1, 2, 5, 6])
    && At(g, 3).Pointer? && AllSet(At(g, 3), [1, 2, 3, 4, 5]) && At(g, 4).Pointer? && AllSet(At(g, 4), [1, 2, 3, 4])
  }

  // Filling a struct leaves each field to its own plan.
  lemma FilledAt(ps: seq<Plan>, v: Value, d: Value, i: nat)
    requires Indirect(v).Struct? && Indirect(d).Struct? && v.Pointer? == d.Pointer? && (v.Pointer? || v.Struct?)
    requires d.Pointer? || d.Struct?
    requires i < |ps| && i < |Indirect(v).fields| && i < |Indirect(d).fields|
    ensures At(Filled(Within(ps), v, d), i) == Filled(ps[i], At(v, i), At(d, i))
  {
  }

  // What was set stays, and what was not becomes what the defaults say.
  lemma FilledLeaf(v: Value, d: Value)
    requires !IsZero(d)
    ensures !IsZero(Filled(WhenZero, v, d)) && Filled(Keep, v, d) == v
    ensures Filled(WhenZero, v, d) == if IsZero(v) then d else v
  {
  }

  lemma FilledAllSet(ps: seq<Plan>, v: Value, d: Value, ix: seq<nat>)
    requires v.Pointer? && d.Pointer? && v.target.Struct? && d.target.Struct?
    requires forall k | 0 <= k < |ix| ::
      ix[k] < |ps| && ix[k] < |v.target.fields| && ix[k] < |d.target.fields| && ps[ix[k]] == WhenZero
    requires AllSet(d, ix)
    ensures AllSet(Filled(Within(ps), v, d), ix)
  {
    var r := Filled(Within(ps), v, d);
    forall k | 0 <= k < |ix| ensures !IsZero(At(r, ix[k])) {
      FilledAt(ps, v, d, ix[k]);
    }
  }

  lemma PrimaryIsFilled(v: Value, d: Value)
    requires HasType(v, PRIMARY.ty) && HasType(d, PRIMARY.ty) && FullPrimary(d)
    ensures FullPrimary(Filled(PRIMARY_PLAN, v, d))
  {
    if v.Pointer? {
      FilledAllSet(PRIMARY_PLAN.plans, v, d, [0, 1]);
    }
  }

  lemma ReplicaIsFilled(v: Value, d: Value)
    requires HasType(v, REPLICA.ty) && HasType(d, REPLICA.ty) && FullReplica(d)
    ensures FullReplica(Filled(REPLICA_PLAN, v, d))
    ensures v.Pointer? ==> At(Filled(REPLICA_PLAN, v, d), 2) == At(v, 2)
  {
    if v.Pointer? {
      FilledAllSet(REPLICA_PLAN.plans, v, d, [0, 1, 3, 4, 5]);
      FilledAt(REPLICA_PLAN.plans, v, d, 2);
    }
  }

  // With full defaults, whatever was set: every replication setting the operator reads is set, and whether
  // replication is enabled is left alone.
  lemma ReplicationIsFilled(v: Value, d: Value)
    requires HasType(v, REPLICATION.ty) && HasType(d, REPLICATION.ty) && FullReplication(d)
    ensures FullReplication(Filled(REPLICATION_PLAN, v, d))
    ensures v.Pointer? ==> At(Filled(REPLICATION_PLAN, v, d), 1) == At(v, 1)
  {
    if v.Pointer? {
      var fs := IndirectType(REPLICATION.ty).fields;
      assert HasType(v.target, StructType(fs)) && HasType(d.target, StructType(fs));
      assert HasType(At(v, 0), fs[0].ty) && HasType(At(d, 0), fs[0].ty);
      FilledAt(REPLICATION_PLAN.plans, v, d, 0);
      FilledAt(REPLICATION_PLAN.plans, v, d, 1);
      SpecIsFilled(At(v, 0), At(d, 0));
    }
  }

  lemma SpecIsFilled(v: Value, d: Value)
    requires HasType(v, StructType([PRIMARY, REPLICA, NILABLE, NILABLE]))
    requires HasType(d, StructType([PRIMARY, REPLICA, NILABLE, NILABLE]))
    requires FullPrimary(At(d, 0)) && FullReplica(At(d, 1)) && AllSet(d, [2, 3])
    ensures
      var r := Filled(Within([PRIMARY_PLAN, REPLICA_PLAN, WhenZero, WhenZero]), v, d);
      FullPrimary(At(r, 0)) && FullReplica(At(r, 1)) && AllSet(r, [2, 3])
  {
    var fs, ps := [PRIMARY, REPLICA, NILABLE, NILABLE], [PRIMARY_PLAN, REPLICA_PLAN, WhenZero, WhenZero];
    assert HasType(v.fields[0], fs[0].ty) && HasType(d.fields[0], fs[0].ty);
    assert HasType(v.fields[1], fs[1].ty) && HasType(d.fields[1], fs[1].ty);
    forall i: nat | i < 4 {
      FilledAt(ps, v, d, i);
    }
    PrimaryIsFilled(At(v, 0), At(d, 0));
    ReplicaIsFilled(At(v, 1), At(d, 1));
    assert !IsZero(At(d, [2, 3][0])) && !IsZero(At(d, [2, 3][1]));
  }

  // And so for Galera.
  lemma GaleraIsFilled(v: Value, d: Value, template: Field, auth: Type, container: Type, claim: Type)
    requires HasType(v, GaleraField(template, auth, container, claim).ty)
    requires HasType(d, GaleraField(template, auth, container, claim).ty) && FullGalera(d)
    ensures FullGalera(Filled(GALERA_PLAN, v, d))
    ensures v.Pointer? ==> At(Filled(GALERA_PLAN, v, d), 1) == At(v, 1)
  {
    if v.Pointer? {
      var fs := IndirectType(GaleraField(template, auth, container, claim).ty).fields;
      assert HasType(v.target, StructType(fs)) && HasType(d.target, StructType(fs));
      assert HasType(At(v, 0), fs[0].ty) && HasType(At(d, 0), fs[0].ty);
      FilledAt(GALERA_PLAN.plans, v, d, 0);
      FilledAt(GALERA_PLAN.plans, v, d, 1);
      GaleraSpecIsFilled(fs[0].ty.fields, At(v, 0), At(d, 0));
    }
  }

  lemma GaleraSpecIsFilled(fs: seq<Field>, v: Value, d: Value)
    requires |fs| == 7 && fs[0] == PRIMARY && fs[4] == RECOVERY
    requires fs[3].ty.PointerType? && fs[3].ty.elem.StructType? && |fs[3].ty.elem.fields| == 6
    requires HasType(v, StructType(fs)) && HasType(d, StructType(fs)) && FullGalera(Pointer(Struct([d])))
    ensures FullGalera(Pointer(Struct([Filled(GALERA_PLAN.plans[0], v, d)])))
  {
    var ps := GALERA_PLAN.plans[0].plans;
    forall i: nat | i < 7 ensures HasType(v.fields[i], fs[i].ty) && HasType(d.fields[i], fs[i].ty) {}
    forall i: nat | i < 7 {
      FilledAt(ps, v, d, i);
    }
    var r := Filled(Within(ps), v, d);
    assert At(Pointer(Struct([d])), 0) == d && At(Pointer(Struct([r])), 0) == r;
    PrimaryIsFilled(At(v, 0), At(d, 0));
    SomeSet(d, r);
    AgentIsFilled(At(v, 3), At(d, 3), fs[3].ty);
    RecoveryIsFilled(At(v, 4), At(d, 4));
  }

  lemma SomeSet(d: Value, r: Value)
    requires AllSet(d, [1, 2, 5, 6])
    requires forall i | i in [1, 2, 5, 6] :: !IsZero(At(d, i)) ==> !IsZero(At(r, i))
    ensures AllSet(r, [1, 2, 5, 6])
  {
    var ix := [1, 2, 5, 6];
    forall k | 0 <= k < |ix| ensures !IsZero(At(r, ix[k])) {
      assert ix[k] in ix && !IsZero(At(d, ix[k]));
    }
  }

  lemma AgentIsFilled(v: Value, d: Value, t: Type)
    requires t.PointerType? && t.elem.StructType? && |t.elem.fields| == 6
    requires HasType(v, t) && HasType(d, t) && d.Pointer? && AllSet(d, [1, 2, 3, 4, 5])
    ensures Filled(AGENT_PLAN, v, d).Pointer? && AllSet(Filled(AGENT_PLAN, v, d), [1, 2, 3, 4, 5])
  {
    if v.Pointer? {
      assert HasType(v.target, t.elem) && HasType(d.target, t.elem);
      FilledAllSet(AGENT_PLAN.plans, v, d, [1, 2, 3, 4, 5]);
    }
  }

  lemma RecoveryIsFilled(v: Value, d: Value)
    requires HasType(v, RECOVERY.ty) && HasType(d, RECOVERY.ty) && d.Pointer? && AllSet(d, [1, 2, 3, 4])
    ensures Filled(RECOVERY_PLAN, v, d).Pointer? && AllSet(Filled(RECOVERY_PLAN, v, d), [1, 2, 3, 4])
  {
    if v.Pointer? {
      assert HasType(v.target, RECOVERY.ty.elem) && HasType(d.target, RECOVERY.ty.elem);
      FilledAllSet(RECOVERY_PLAN.plans, v, d, [1, 2, 3, 4]);
    }
  }
}
