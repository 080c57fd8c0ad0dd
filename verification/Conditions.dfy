/** The status conditions of a MariaDB resource and everything that writes them. Writes are serial and
    work on the conditions as they are.
 */
module Conditions {
  import opened Optional

  datatype Kind = Ready | PrimarySwitched | BackupRestored | GaleraReady | GaleraConfigured

  datatype Condition = Condition(kind: Kind, status: bool, message: string)

  // What the conditions say: a kind that was never set is absent.
  type Summary = map<Kind, bool>

  predicate IsTrue(s: Summary, k: Kind) { k in s && s[k] }

  predicate IsFalse(s: Summary, k: Kind) { k in s && !s[k] }

  datatype StatefulSet = StatefulSet(replicas: nat, readyReplicas: nat)

  // What reconcileRestore observes of the Restore object.
  datatype Restore = Missing | Running | Completed

  datatype Write =
    | SwitchBegun               // switchover and failover controllers
    | SwitchDone
    | GaleraDown                // health controller
    | GaleraUp                  // Galera reconcile
    | ReconcileRestore(bootstrapFrom: bool, healthy: bool, restore: Restore)
    | PhaseFailed(message: string)
    | ReconcileStatus(maxScaleMissing: bool, sts: StatefulSet)

  predicate Busy(s: Summary) {
    IsFalse(s, BackupRestored) || IsFalse(s, PrimarySwitched) || IsFalse(s, GaleraReady)
  }

  function Apply(s: Summary, w: Write): Summary {
    match w
    case SwitchBegun => s[Ready := false][PrimarySwitched := false]
    case SwitchDone => s[PrimarySwitched := true]
    case GaleraDown => s[Ready := false][GaleraReady := false]
    case GaleraUp => s[GaleraReady := true][GaleraConfigured := true]
    case ReconcileRestore(from, healthy, restore) =>
      if !from || IsTrue(s, BackupRestored) then s
      else if IsFalse(s, BackupRestored) then
        if restore.Missing? then s
        else if restore.Completed? then s[BackupRestored := true]
        else s[Ready := false][BackupRestored := false]
      else if healthy && restore.Missing? then s[Ready := false][BackupRestored := false]
      else s
    case PhaseFailed(_) => s[Ready := false]
    case ReconcileStatus(missing, sts) =>
      if missing then s[Ready := false]
      else if Busy(s) then s
      else s[Ready := sts.replicas != 0 && sts.readyReplicas == sts.replicas]
  }

  function ApplyAll(s: Summary, ws: seq<Write>): Summary
    decreases |ws|
  {
    if ws == [] then s else ApplyAll(Apply(s, ws[0]), ws[1..])
  }

  // A resource that says it is ready is not switching its primary, restoring or recovering.
  predicate Safe(s: Summary) {
    IsTrue(s, Ready) ==> !Busy(s)
  }

  lemma {:induction false} SafeAfter(s: Summary, ws: seq<Write>)
    requires Safe(s)
    ensures Safe(ApplyAll(s, ws))
    decreases |ws|
  {
    if ws != [] {
      SafeAfter(Apply(s, ws[0]), ws[1..]);
    }
  }

  // In every status the writers can reach from an empty one.
  lemma ReadinessIsSafe(ws: seq<Write>)
    ensures Safe(ApplyAll(map[], ws))
  {
    SafeAfter(map[], ws);
  }

  // A backup that was restored is never restored again.
  lemma {:induction false} RestoredOnce(s: Summary, ws: seq<Write>)
    requires IsTrue(s, BackupRestored)
    ensures IsTrue(ApplyAll(s, ws), BackupRestored)
    decreases |ws|
  {
    if ws != [] {
      RestoredOnce(Apply(s, ws[0]), ws[1..]);
    }
  }

  // ---- What runs bring about ----

  predicate AllReady(sts: StatefulSet) { sts.replicas > 0 && sts.readyReplicas == sts.replicas }

  predicate SetsRestored(s: Summary, w: Write, status: bool) {
    && w.ReconcileRestore? && w.bootstrapFrom && !IsTrue(s, BackupRestored)
    && if status then IsFalse(s, BackupRestored) && w.restore.Completed?
       else if IsFalse(s, BackupRestored) then w.restore.Running? else w.healthy && w.restore.Missing?
  }

  predicate SetsReady(s: Summary, w: Write, status: bool) {
    if status then w.ReconcileStatus? && !w.maxScaleMissing && !Busy(s) && AllReady(w.sts)
    else
      || w.SwitchBegun? || w.GaleraDown? || w.PhaseFailed? || SetsRestored(s, w, false)
      || (w.ReconcileStatus? && (w.maxScaleMissing || (!Busy(s) && !AllReady(w.sts))))
  }

  // Whether a write sets a kind, and to what. That may depend on what the conditions say.
  predicate Sets(s: Summary, w: Write, k: Kind, status: bool) {
    match k
    case Ready => SetsReady(s, w, status)
    case PrimarySwitched => if status then w.SwitchDone? else w.SwitchBegun?
    case GaleraReady => if status then w.GaleraUp? else w.GaleraDown?
    case GaleraConfigured => status && w.GaleraUp?
    case BackupRestored => SetsRestored(s, w, status)
  }

  predicate Says(s: Summary, k: Kind, status: bool) { k in s && s[k] == status }

  // A write takes effect on exactly the kinds it sets.
  lemma ApplySets(s: Summary, w: Write, k: Kind, status: bool)
    ensures Says(Apply(s, w), k, status) <==> Sets(s, w, k, status) || (Says(s, k, status) && !Sets(s, w, k, !status))
  {
    match k
    case Ready =>
    case _ =>
  }

  // What a write makes of a kind, if it sets it.
  function Mark(s: Summary, w: Write, k: Kind): Option<bool> {
    if Sets(s, w, k, true) then Some(true) else if Sets(s, w, k, false) then Some(false) else None
  }

  function Marks(s: Summary, ws: seq<Write>, k: Kind): (ms: seq<Option<bool>>)
    ensures |ms| == |ws|
  {
    seq(|ws|, i requires 0 <= i < |ws| => Mark(ApplyAll(s, ws[..i]), ws[i], k))
  }

  function LastMark(ms: seq<Option<bool>>): (r: Option<bool>)
    ensures r.Some? ==> exists i | 0 <= i < |ms| :: ms[i] == r && forall j | i < j < |ms| :: ms[j].None?
    ensures r.None? ==> forall j | 0 <= j < |ms| :: ms[j].None?
  {
    if ms == [] then None else if ms[|ms| - 1].Some? then ms[|ms| - 1] else LastMark(ms[..|ms| - 1])
  }

  lemma MarksLast(s: Summary, before: seq<Write>, w: Write, k: Kind)
    ensures Marks(s, before + [w], k) == Marks(s, before, k) + [Mark(ApplyAll(s, before), w, k)]
  {
    var ws := before + [w];
    forall i | 0 <= i < |before| ensures Marks(s, ws, k)[i] == Marks(s, before, k)[i] {
      assert ws[..i] == before[..i];
    }
    assert ws[..|before|] == before;
  }

  lemma MarkDecides(s: Summary, w: Write, k: Kind, status: bool)
    ensures
      var m := Mark(s, w, k);
      Says(Apply(s, w), k, status) <==> if m.Some? then m.value == status else Says(s, k, status)
  {
    ApplySets(s, w, k, status);
    ApplySets(s, w, k, !status);
  }

  lemma LastMarkAppend(ms: seq<Option<bool>>, m: Option<bool>)
    ensures LastMark(ms + [m]) == if m.Some? then m else LastMark(ms)
  {
    assert (ms + [m])[..|ms|] == ms;
  }

  // After any run a condition has the status its last writer gave it, or what it had before.
  lemma {:induction false} LastWriterDecides(s: Summary, ws: seq<Write>, k: Kind, status: bool)
    ensures
      var last := LastMark(Marks(s, ws, k));
      Says(ApplyAll(s, ws), k, status) <==> if last.Some? then last.value == status else Says(s, k, status)
    decreases |ws|
  {
    if ws != [] {
      var before, w := ws[..|ws| - 1], ws[|ws| - 1];
      assert ws == before + [w];
      ApplyAllLast(s, ws);
      LastWriterDecides(s, before, k, status);
      MarksLast(s, before, w, k);
      LastMarkAppend(Marks(s, before, k), Mark(ApplyAll(s, before), w, k));
      MarkDecides(ApplyAll(s, before), w, k, status);
    }
  }

  lemma {:induction false} ApplyAllLast(s: Summary, ws: seq<Write>)
    requires ws != []
    ensures ApplyAll(s, ws) == Apply(ApplyAll(s, ws[..|ws| - 1]), ws[|ws| - 1])
    decreases |ws|
  {
    if |ws| == 1 {
      assert ws[1..] == [] && ws[..0] == [];
    } else {
      ApplyAllLast(Apply(s, ws[0]), ws[1..]);
      assert ws[1..][..|ws| - 2] == ws[..|ws| - 1][1..];
    }
  }

  // Whatever the conditions say: once a switchover, a recovery and a restore have ended, the resource is
  // ready exactly when all its replicas are.
  lemma ReadyReturns(s: Summary, sts: StatefulSet)
    ensures
      var t := ApplyAll(s, [SwitchDone, GaleraUp, ReconcileRestore(true, true, Completed), ReconcileStatus(false, sts)]);
      IsTrue(t, Ready) <==> AllReady(sts)
  {
    var ws := [SwitchDone, GaleraUp, ReconcileRestore(true, true, Completed), ReconcileStatus(false, sts)];
    assert ws[..3] == [SwitchDone, GaleraUp, ReconcileRestore(true, true, Completed)];
    ApplyAllLast(s, ws);
    var three := ws[..3];
    ApplyAllLast(s, three);
    assert three[..2] == [SwitchDone, GaleraUp];
    ApplyAllLast(s, three[..2]);
    assert three[..2][..1] == [SwitchDone];
    ApplyAllLast(s, [SwitchDone]);
    assert [SwitchDone][..0] == [];
  }

  // ---- The list of conditions ----

  predicate Listed(cs: seq<Condition>, k: Kind) {
    exists i | 0 <= i < |cs| :: cs[i].kind == k
  }

  // The list has one condition of each kind in the summary, and no other.
  ghost predicate Summarizes(cs: seq<Condition>, s: Summary) {
    && (forall i, j | 0 <= i < j < |cs| :: cs[i].kind != cs[j].kind)
    && (forall i | 0 <= i < |cs| :: cs[i].kind in s && s[cs[i].kind] == cs[i].status)
    && (forall k | k in s :: Listed(cs, k))
  }

  lemma Replaced(cs: seq<Condition>, s: Summary, i: nat, c: Condition)
    requires Summarizes(cs, s) && i < |cs| && cs[i].kind == c.kind
    ensures Summarizes(cs[i := c], s[c.kind := c.status])
  {
    var ds := cs[i := c];
    forall k | k in s[c.kind := c.status] ensures Listed(ds, k) {
      var j :| 0 <= j < |cs| && cs[j].kind == k;
      assert ds[j].kind == k;
    }
  }

  lemma Appended(cs: seq<Condition>, s: Summary, c: Condition)
    requires Summarizes(cs, s) && !Listed(cs, c.kind)
    ensures Summarizes(cs + [c], s[c.kind := c.status])
  {
    var ds := cs + [c];
    forall k | k in s[c.kind := c.status] ensures Listed(ds, k) {
      if k == c.kind {
        assert ds[|cs|].kind == k;
      } else {
        var j :| 0 <= j < |cs| && cs[j].kind == k;
        assert ds[j].kind == k;
      }
    }
  }

  class MariaDBStatus {
    var conditions: seq<Condition>
    ghost var summary: Summary

    ghost predicate Valid()
      reads this
    {
      Summarizes(conditions, summary)
    }

    constructor ()
      ensures Valid() && conditions == [] && summary == map[]
    {
      conditions, summary := [], map[];
    }

    method SetCondition(c: Condition)
      requires Valid()
      modifies this
      ensures Valid() && summary == old(summary)[c.kind := c.status] && c in conditions
    {
      for i := 0 to |conditions|
        invariant conditions == old(conditions) && summary == old(summary)
        invariant forall j | 0 <= j < i :: conditions[j].kind != c.kind
      {
        if conditions[i].kind == c.kind {
          Replaced(conditions, summary, i, c);
          conditions, summary := conditions[i := c], summary[c.kind := c.status];
          assert conditions[i] == c;
          return;
        }
      }
      Appended(conditions, summary, c);
      conditions, summary := conditions + [c], summary[c.kind := c.status];
      assert conditions[|conditions| - 1] == c;
    }

    // meta.IsStatusConditionTrue and IsStatusConditionFalse.
    method Has(kind: Kind, status: bool) returns (b: bool)
      requires Valid()
      ensures b <==> kind in summary && summary[kind] == status
    {
      for i := 0 to |conditions|
        invariant forall j | 0 <= j < i :: conditions[j].kind != kind
      {
        if conditions[i].kind == kind {
          return conditions[i].status == status;
        }
      }
      return false;
    }

    method SetPrimarySwitching(message: string)
      requires Valid()
      modifies this
      ensures Valid() && summary == old(summary)[Ready := false][PrimarySwitched := false]
      ensures summary == Apply(old(summary), SwitchBegun)
    {
      SetCondition(Condition(Ready, false, message));
      SetCondition(Condition(PrimarySwitched, false, message));
    }

    method SetPrimarySwitched()
      requires Valid()
      modifies this
      ensures Valid() && summary == old(summary)[PrimarySwitched := true]
      ensures summary == Apply(old(summary), SwitchDone)
    {
      SetCondition(Condition(PrimarySwitched, true, "Switchover complete"));
    }

    method SetGaleraNotReady()
      requires Valid()
      modifies this
      ensures Valid() && summary == old(summary)[Ready := false][GaleraReady := false]
      ensures summary == Apply(old(summary), GaleraDown)
    {
      SetCondition(Condition(Ready, false, "Galera not ready"));
      SetCondition(Condition(GaleraReady, false, "Galera not ready"));
    }

    method SetGaleraReady()
      requires Valid()
      modifies this
      ensures Valid() && summary == old(summary)[GaleraReady := true][GaleraConfigured := true]
      ensures summary == Apply(old(summary), GaleraUp)
    {
      SetCondition(Condition(GaleraReady, true, "Galera ready"));
      SetCondition(Condition(GaleraConfigured, true, "Galera configured"));
    }

    method SetReadyFailed(message: string)
      requires Valid()
      modifies this
      ensures Valid() && summary == old(summary)[Ready := false]
      ensures summary == Apply(old(summary), PhaseFailed(message))
    {
      SetCondition(Condition(Ready, false, message));
    }

    method SetReadyWithStatefulSet(sts: StatefulSet)
      requires Valid()
      modifies this
      ensures Valid() && summary == old(summary)[Ready := sts.replicas != 0 && sts.readyReplicas == sts.replicas]
    {
      if sts.replicas == 0 || sts.readyReplicas != sts.replicas {
        SetCondition(Condition(Ready, false, "Not ready"));
        return;
      }
      SetCondition(Condition(Ready, true, "Running"));
    }

    method ReconcileStatus(maxScaleMissing: bool, sts: StatefulSet)
      requires Valid()
      modifies this
      ensures Valid()
      ensures maxScaleMissing ==> summary == old(summary)[Ready := false]
      ensures !maxScaleMissing && Busy(old(summary)) ==> summary == old(summary)
      ensures !maxScaleMissing && !Busy(old(summary)) ==>
                summary == old(summary)[Ready := sts.replicas != 0 && sts.readyReplicas == sts.replicas]
      ensures summary == Apply(old(summary), Write.ReconcileStatus(maxScaleMissing, sts))
    {
      if maxScaleMissing {
        SetCondition(Condition(Ready, false, "MaxScale not found"));
        return;
      }
      var restoring := Has(BackupRestored, false);
      var switching := Has(PrimarySwitched, false);
      var notReady := Has(GaleraReady, false);
      if restoring || switching || notReady { return; }
      SetReadyWithStatefulSet(sts);
    }

    method ReconcileRestore(bootstrapFrom: bool, healthy: bool, restore: Restore)
      requires Valid()
      modifies this
      ensures Valid()
      ensures !bootstrapFrom || IsTrue(old(summary), BackupRestored) ==> summary == old(summary)
      ensures bootstrapFrom && IsFalse(old(summary), BackupRestored) ==>
        summary == match restore
                   case Missing => old(summary)
                   case Running => old(summary)[Ready := false][BackupRestored := false]
                   case Completed => old(summary)[BackupRestored := true]
      ensures bootstrapFrom && BackupRestored !in old(summary) ==>
        summary == if healthy && restore.Missing? then old(summary)[Ready := false][BackupRestored := false] else old(summary)
      ensures summary == Apply(old(summary), Write.ReconcileRestore(bootstrapFrom, healthy, restore))
    {
      if !bootstrapFrom { return; }
      var restored := Has(BackupRestored, true);
      if restored { return; }
      var restoring := Has(BackupRestored, false);
      if restoring {
        if restore.Missing? { return; }
        if restore.Completed? {
          SetCondition(Condition(BackupRestored, true, "Restored backup"));
        } else {
          SetRestoring();
        }
        return;
      }
      if !healthy || !restore.Missing? { return; }
      SetRestoring();
    }

    method SetRestoring()
      requires Valid()
      modifies this
      ensures Valid() && summary == old(summary)[Ready := false][BackupRestored := false]
    {
      SetCondition(Condition(Ready, false, "Restoring backup"));
      SetCondition(Condition(BackupRestored, false, "Restoring backup"));
    }
  }
}
