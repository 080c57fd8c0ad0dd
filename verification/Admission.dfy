/** The validating webhook of a MariaDB object: validators in a fixed order, of which the first that refuses
    decides.
 */
module Admission {
  import opened Optional
  import opened Immutability
  import opened Defaults
  import Switchover

  datatype Refusal =
    | TwoMethods | NoMethod | OneReplica
    | GaleraIndex | GaleraTransfer | GaleraThreads
    | ReplicationIndex | ReplicaSettings
    | BootstrapSource
    | DisruptionBudget
    | NoStorage | TwoStorages
    | RootPassword
    | TwoMaxScales
    | FieldChanged
    | TargetFrozen | FailoverFrozen

  type Outcome = Option<Refusal>

  // ---- When each refusal is due ----

  predicate Due(x: Refusal, v: View, s: Spec) {
    match x
    case TwoMethods => v.ha.replication && v.ha.galera
    case NoMethod => !v.ha.replication && !v.ha.galera && v.replicas > 1
    case OneReplica => (v.ha.replication || v.ha.galera) && v.replicas <= 1
    case GaleraIndex => v.ha.galera && !(0 <= v.galeraTarget < v.replicas)
    case GaleraTransfer => v.ha.galera && !v.sstValid
    case GaleraThreads => v.ha.galera && v.threads < 1
    case ReplicationIndex => v.ha.replication && !(0 <= v.ha.target < v.replicas)
    case ReplicaSettings => v.ha.replication && !v.replicaValid
    case BootstrapSource => !v.bootstrapValid
    case DisruptionBudget => !v.budgetValid
    case NoStorage => !IsTrue(s.ephemeralStorage) && IsZero(s.volumeClaim)
    case TwoStorages => IsTrue(s.ephemeralStorage) && !IsZero(s.volumeClaim)
    case RootPassword => IsTrue(s.rootEmptyPassword) && s.rootPassword != NO_SELECTOR
    case TwoMaxScales => s.maxScaleRef.Some? && s.maxScaleEnabled.Some?
    case _ => false
  }

  predicate DueInSwitchover(x: Refusal, old_: Switchover.Spec, new_: Switchover.Spec, switching: bool) {
    match x
    case TargetFrozen => switching && old_.replication && new_.target != old_.target
    case FailoverFrozen => switching && old_.replication && new_.automaticFailover && !old_.automaticFailover
    case _ => false
  }

  // The order in which the refusals are looked for.
  function Rank(x: Refusal): nat {
    match x
    case TwoMethods => 0
    case NoMethod => 1
    case OneReplica => 2
    case GaleraIndex => 3
    case GaleraTransfer => 4
    case GaleraThreads => 5
    case ReplicationIndex => 6
    case ReplicaSettings => 7
    case BootstrapSource => 8
    case DisruptionBudget => 9
    case NoStorage => 10
    case TwoStorages => 11
    case RootPassword => 12
    case TwoMaxScales => 13
    case _ => 14
  }

  // Of the refusals of some ranks, the first that is due.
  ghost predicate Answers(r: Outcome, v: View, s: Spec, lo: nat, hi: nat) {
    match r
    case None => forall y | lo <= Rank(y) < hi :: !Due(y, v, s)
    case Some(x) => lo <= Rank(x) < hi && Due(x, v, s) && forall y | lo <= Rank(y) < Rank(x) :: !Due(y, v, s)
  }

  lemma AnswersJoin(a: Outcome, b: Outcome, v: View, s: Spec, lo: nat, mid: nat, hi: nat)
    requires lo <= mid <= hi && Answers(a, v, s, lo, mid) && Answers(b, v, s, mid, hi)
    ensures Answers(if a.Some? then a else b, v, s, lo, hi)
  {
  }

  // ---- The validators, as they run ----

  function ValidateHA(v: View): Outcome {
    if v.ha.replication && v.ha.galera then Some(TwoMethods)
    else
      var enabled := v.ha.replication || v.ha.galera;
      if !enabled && v.replicas > 1 then Some(NoMethod)
      else if enabled && v.replicas <= 1 then Some(OneReplica)
      else None
  }

  function ValidateGalera(v: View): Outcome {
    if !v.ha.galera then None
    else if v.galeraTarget < 0 || v.galeraTarget >= v.replicas then Some(GaleraIndex)
    else if !v.sstValid then Some(GaleraTransfer)
    else if v.threads < 1 then Some(GaleraThreads)
    else None
  }

  function ValidateReplication(v: View): Outcome {
    if !v.ha.replication then None
    else if v.ha.target < 0 || v.ha.target >= v.replicas then Some(ReplicationIndex)
    else if !v.replicaValid then Some(ReplicaSettings)
    else None
  }

  function ValidateBootstrapFrom(v: View): Outcome {
    if v.bootstrapValid then None else Some(BootstrapSource)
  }

  function ValidatePodDisruptionBudget(v: View): Outcome {
    if v.budgetValid then None else Some(DisruptionBudget)
  }

  function ValidateStorage(s: Spec): Outcome {
    var ephemeral, claimed := IsTrue(s.ephemeralStorage), !IsZero(s.volumeClaim);
    if !ephemeral && !claimed then Some(NoStorage) else if ephemeral && claimed then Some(TwoStorages) else None
  }

  function ValidateRootPassword(s: Spec): Outcome {
    if IsTrue(s.rootEmptyPassword) && s.rootPassword != NO_SELECTOR then Some(RootPassword) else None
  }

  function ValidateMaxScale(s: Spec): Outcome {
    if s.maxScaleRef.Some? && s.maxScaleEnabled.Some? then Some(TwoMaxScales) else None
  }

  function ValidatePrimarySwitchover(old_: Switchover.Spec, new_: Switchover.Spec, switching: bool): Outcome {
    if old_.replication && switching then
      if old_.target != new_.target then Some(TargetFrozen)
      else if old_.automaticFailover != new_.automaticFailover && new_.automaticFailover then Some(FailoverFrozen)
      else None
    else None
  }

  lemma HAAnswers(v: View, s: Spec)
    ensures Answers(ValidateHA(v), v, s, 0, 3)
  {
  }

  lemma GaleraAnswers(v: View, s: Spec)
    ensures Answers(ValidateGalera(v), v, s, 3, 6)
  {
  }

  lemma ReplicationAnswers(v: View, s: Spec)
    ensures Answers(ValidateReplication(v), v, s, 6, 8)
  {
  }

  lemma OthersAnswer(v: View, s: Spec)
    ensures Answers(ValidateBootstrapFrom(v), v, s, 8, 9) && Answers(ValidatePodDisruptionBudget(v), v, s, 9, 10)
    ensures Answers(ValidateRootPassword(s), v, s, 12, 13) && Answers(ValidateMaxScale(s), v, s, 13, 14)
  {
  }

  lemma StorageAnswers(v: View, s: Spec)
    ensures Answers(ValidateStorage(s), v, s, 10, 12)
  {
  }

  // ---- The loops over the validators ----

  function First(outcomes: seq<Outcome>): Outcome {
    if outcomes == [] then None else if outcomes[0].Some? then outcomes[0] else First(outcomes[1..])
  }

  method Run(outcomes: seq<Outcome>) returns (r: Outcome)
    ensures r == First(outcomes)
  {
    for i := 0 to |outcomes|
      invariant First(outcomes) == First(outcomes[i..])
    {
      if outcomes[i].Some? {
        return outcomes[i];
      }
      assert outcomes[i..][1..] == outcomes[i + 1..];
    }
    return None;
  }

  function Common(v: View, s: Spec): seq<Outcome> {
    [ValidateHA(v), ValidateGalera(v), ValidateReplication(v), ValidateBootstrapFrom(v),
     ValidatePodDisruptionBudget(v), ValidateStorage(s), ValidateRootPassword(s)]
  }

  lemma FirstCons(a: Outcome, rest: seq<Outcome>)
    ensures First([a] + rest) == if a.Some? then a else First(rest)
  {
    assert ([a] + rest)[1..] == rest;
  }

  // From the third validator on.
  lemma TailAnswers(v: View, s: Spec, rest: seq<Outcome>, hi: nat)
    requires hi >= 13 && Answers(First(rest), v, s, 13, hi)
    ensures Answers(First([ValidateBootstrapFrom(v), ValidatePodDisruptionBudget(v), ValidateStorage(s),
                           ValidateRootPassword(s)] + rest), v, s, 8, hi)
  {
    OthersAnswer(v, s);
    StorageAnswers(v, s);
    var d := [ValidateRootPassword(s)] + rest;
    FirstCons(ValidateRootPassword(s), rest);
    AnswersJoin(ValidateRootPassword(s), First(rest), v, s, 12, 13, hi);
    var c := [ValidateStorage(s)] + d;
    FirstCons(ValidateStorage(s), d);
    AnswersJoin(ValidateStorage(s), First(d), v, s, 10, 12, hi);
    var b := [ValidatePodDisruptionBudget(v)] + c;
    FirstCons(ValidatePodDisruptionBudget(v), c);
    AnswersJoin(ValidatePodDisruptionBudget(v), First(c), v, s, 9, 10, hi);
    FirstCons(ValidateBootstrapFrom(v), b);
    AnswersJoin(ValidateBootstrapFrom(v), First(b), v, s, 8, 9, hi);
    assert [ValidateBootstrapFrom(v)] + b
        == [ValidateBootstrapFrom(v), ValidatePodDisruptionBudget(v), ValidateStorage(s), ValidateRootPassword(s)] + rest;
  }

  function Later(v: View, s: Spec): seq<Outcome> {
    [ValidateReplication(v), ValidateBootstrapFrom(v), ValidatePodDisruptionBudget(v), ValidateStorage(s), ValidateRootPassword(s)]
  }

  lemma LaterAnswers(v: View, s: Spec, rest: seq<Outcome>, hi: nat)
    requires hi >= 13 && Answers(First(rest), v, s, 13, hi)
    ensures Answers(First(Later(v, s) + rest), v, s, 6, hi)
  {
    var d := [ValidateBootstrapFrom(v), ValidatePodDisruptionBudget(v), ValidateStorage(s), ValidateRootPassword(s)] + rest;
    TailAnswers(v, s, rest, hi);
    ReplicationAnswers(v, s);
    FirstCons(ValidateReplication(v), d);
    AnswersJoin(ValidateReplication(v), First(d), v, s, 6, 8, hi);
    assert [ValidateReplication(v)] + d == Later(v, s) + rest;
  }

  // The validators report the first refusal that is due, of all.
  lemma CommonAnswers(v: View, s: Spec, rest: seq<Outcome>, hi: nat)
    requires hi >= 13 && Answers(First(rest), v, s, 13, hi)
    ensures Answers(First(Common(v, s) + rest), v, s, 0, hi)
  {
    var c := Later(v, s) + rest;
    LaterAnswers(v, s, rest, hi);
    HAAnswers(v, s);
    GaleraAnswers(v, s);
    var b := [ValidateGalera(v)] + c;
    FirstCons(ValidateGalera(v), c);
    AnswersJoin(ValidateGalera(v), First(c), v, s, 3, 6, hi);
    FirstCons(ValidateHA(v), b);
    AnswersJoin(ValidateHA(v), First(b), v, s, 0, 3, hi);
    assert [ValidateHA(v)] + b == Common(v, s) + rest;
  }

  lemma ValidMethods(v: View, s: Spec)
    ensures Switchover.ValidHA(v.ha, v.replicas) && Switchover.ValidTarget(v.ha, v.replicas) && ValidSettings(v) <==>
      && !Due(TwoMethods, v, s) && !Due(NoMethod, v, s) && !Due(OneReplica, v, s)
      && !Due(GaleraIndex, v, s) && !Due(GaleraTransfer, v, s) && !Due(GaleraThreads, v, s)
      && !Due(ReplicationIndex, v, s) && !Due(ReplicaSettings, v, s) && !Due(BootstrapSource, v, s)
      && !Due(DisruptionBudget, v, s)
  {
  }

  lemma ValidFields(v: View, s: Spec)
    ensures ValidStorage(s) <==> !Due(NoStorage, v, s) && !Due(TwoStorages, v, s)
    ensures ValidRootPassword(s) <==> !Due(RootPassword, v, s)
    ensures ValidMaxScale(s) <==> !Due(TwoMaxScales, v, s)
  {
  }

  // Nothing that is refused is due exactly when the object is valid.
  lemma ValidExactly(view: seq<Value> -> View, s: Spec)
    ensures ValidSpec(view, s) <==> forall y | Rank(y) < 13 :: !Due(y, view(s.rest), s)
    ensures ValidCreate(view, s) <==> forall y | Rank(y) < 14 :: !Due(y, view(s.rest), s)
  {
    var v := view(s.rest);
    ValidMethods(v, s);
    ValidFields(v, s);
    if ValidSpec(view, s) {
      forall y | Rank(y) < 13 ensures !Due(y, v, s) {}
    }
    if ValidCreate(view, s) {
      forall y | Rank(y) < 14 ensures !Due(y, v, s) {}
    }
  }

  // A creation is refused for the first reason that is due, and admitted exactly when the object is valid.
  method ValidateCreate(view: seq<Value> -> View, s: Spec) returns (r: Outcome)
    ensures Answers(r, view(s.rest), s, 0, 14)
    ensures r.None? <==> ValidCreate(view, s)
  {
    var v := view(s.rest);
    r := Run(Common(v, s) + [ValidateMaxScale(s)]);
    OthersAnswer(v, s);
    assert First([ValidateMaxScale(s)]) == ValidateMaxScale(s);
    CommonAnswers(v, s, [ValidateMaxScale(s)], 14);
    ValidExactly(view, s);
    if r.Some? {
      assert Due(r.value, v, s) && Rank(r.value) < 14;
    }
  }

  method ValidateCommon(view: seq<Value> -> View, s: Spec) returns (r: Outcome)
    ensures Answers(r, view(s.rest), s, 0, 13)
    ensures r.None? <==> ValidSpec(view, s)
  {
    var v := view(s.rest);
    r := Run(Common(v, s));
    assert Common(v, s) + [] == Common(v, s) && First([]) == None;
    CommonAnswers(v, s, [], 13);
    ValidExactly(view, s);
    if r.Some? {
      assert Due(r.value, v, s) && Rank(r.value) < 13;
    }
  }

  // The refusal a switchover gives, of which the target comes first.
  ghost predicate AnswersSwitchover(r: Outcome, old_: Switchover.Spec, new_: Switchover.Spec, switching: bool) {
    match r
    case None => forall x :: !DueInSwitchover(x, old_, new_, switching)
    case Some(x) =>
      && DueInSwitchover(x, old_, new_, switching)
      && (x == FailoverFrozen ==> !DueInSwitchover(TargetFrozen, old_, new_, switching))
  }

  lemma SwitchoverAnswers(old_: Switchover.Spec, new_: Switchover.Spec, switching: bool)
    ensures AnswersSwitchover(ValidatePrimarySwitchover(old_, new_, switching), old_, new_, switching)
    ensures ValidatePrimarySwitchover(old_, new_, switching).None? <==>
            Switchover.ValidPrimarySwitchover(old_, new_, switching)
  {
  }

  // An update is refused because a tagged field has changed, or else for the first reason that is due, or
  // else because of a switchover; it is admitted exactly when it is valid.
  method ValidateUpdate(view: seq<Value> -> View, k: Schema, n: Spec, o: Spec, switching: bool) returns (r: Outcome)
    requires WellTyped(k, n) && WellTyped(k, o)
    ensures r == Some(FieldChanged) <==> !Unchanged(k, n, o)
    ensures Unchanged(k, n, o) && !ValidSpec(view, n) ==> Answers(r, view(n.rest), n, 0, 13)
    ensures Unchanged(k, n, o) && ValidSpec(view, n) ==> AnswersSwitchover(r, view(o.rest).ha, view(n.rest).ha, switching)
    ensures r.None? <==> ValidUpdate(view, k, n, o, switching)
  {
    var changed := Changed(k, n, o);
    if changed {
      return Some(FieldChanged);
    }
    r := ValidateCommon(view, n);
    if r.None? {
      SwitchoverAnswers(view(o.rest).ha, view(n.rest).ha, switching);
      r := ValidatePrimarySwitchover(view(o.rest).ha, view(n.rest).ha, switching);
    }
  }

  method Changed(k: Schema, n: Spec, o: Spec) returns (changed: bool)
    requires WellTyped(k, n) && WellTyped(k, o)
    ensures changed <==> !Unchanged(k, n, o)
  {
    TypedSpec(k, n);
    TypedSpec(k, o);
    var errs := ValidateInmutable(SpecField(k), OfSpec(n), OfSpec(o));
    if |errs| > 0 {
      assert errs[0] in errs;
    }
    return |errs| > 0;
  }

  ghost predicate Unchanged(k: Schema, n: Spec, o: Spec)
    requires WellTyped(k, n) && WellTyped(k, o)
  {
    TypedSpec(k, n);
    TypedSpec(k, o);
    Accepts(SpecField(k), OfSpec(n), OfSpec(o))
  }
}
