/** The two controllers of a Galera cluster as a system of events: the health controller, which marks a
    cluster not ready, and the Galera reconcile, which recovers it and marks it ready again. They
    interleave; each works on one resource at a time.
 */
module Galera {
  import opened Optional
  import opened GaleraRecovery

  datatype Condition = Unknown | Ready | NotReady

  datatype Run =
    | Idle
    | Looked(seen: nat)                     // the reconcile has read the resource and its StatefulSet
    | Collecting(rs: Recovery)              // recoverCluster gathers states and recovered positions
    | Told(rs: Recovery, pod: string)       // a Pod was told to bootstrap, nothing is recorded yet
    | Recording(rs: Recovery)               // the bootstrap is in the local record, not persisted yet
    | Disabling(done: nat)                  // bootstrap was disabled in the first Pods

  datatype State = State(
    pods: seq<string>,
    timeout: nat,                   // ClusterBootstrapTimeout
    now: int,
    ready: Condition,               // the GaleraReady condition
    configured: bool,               // the GaleraConfigured condition
    recovery: Option<Recovery>,     // status.galeraRecovery
    flags: set<string>,             // Pods whose agent has bootstrap enabled
    readyReplicas: nat,
    run: Run,                       // the Galera reconcile
    polling: bool                   // the health controller waits for the cluster to become healthy
  )

  datatype Event =
    | Tick(d: nat)
    | Replicas(n: nat)
    | Poll
    | Healthy
    | MarkNotReady
    | Look
    | BeginRecovery
    | ResetTimedOut
    | Fetch(pod: string, state: GaleraState)
    | Recover(pod: string, b: Bootstrap)
    | Persist
    | Tell(source: Source)
    | SetBootstrapping
    | PersistBootstrapping
    | BeginDisabling
    | DisableNext
    | MarkReady
    | Abort

  function Local(s: State): Recovery {
    if s.recovery.Some? then s.recovery.value else Recovery(map[], map[], None)
  }

  ghost predicate Enabled(s: State, e: Event) {
    match e
    case Tick(_) => true
    case Replicas(_) => true
    case Poll => s.configured && s.ready != NotReady && !s.polling
    case Healthy => s.polling
    case MarkNotReady => s.polling
    case Look => s.run.Idle?
    case BeginRecovery =>
      s.run == Looked(0) && s.ready == NotReady && Local(s).bootstrap.None?
    case ResetTimedOut =>
      && s.run == Looked(0) && s.ready == NotReady
      && Local(s).bootstrap.Some? && s.now > Local(s).bootstrap.value.time + s.timeout
    case Fetch(pod, _) => s.run.Collecting? && pod in s.pods && pod !in s.run.rs.state
    case Recover(pod, _) => s.run.Collecting? && pod in s.pods && pod !in s.run.rs.recovered
    case Persist => s.run.Collecting?
    case Tell(src) => s.run.Collecting? && IsSource(s.run.rs, s.pods, src)
    case SetBootstrapping => s.run.Told?
    case PersistBootstrapping => s.run.Recording?
    case BeginDisabling => s.run == Looked(|s.pods|) && s.ready != Ready
    case DisableNext => s.run.Disabling? && s.run.done < |s.pods|
    case MarkReady => s.run.Disabling? && s.run.done == |s.pods|
    case Abort => !s.run.Idle?
  }

  ghost function Next(s: State, e: Event): State
    requires Enabled(s, e)
  {
    match e
    case Tick(d) => s.(now := s.now + d)
    case Replicas(n) => s.(readyReplicas := n)
    case Poll => s.(polling := true)
    case Healthy => s.(polling := false)
    case MarkNotReady => s.(polling := false, recovery := None, ready := NotReady)
    case Look => s.(run := Looked(s.readyReplicas))
    case BeginRecovery => s.(run := Collecting(Local(s)))
    case ResetTimedOut => s.(recovery := None, run := Idle)
    case Fetch(pod, g) => s.(run := Collecting(s.run.rs.(state := s.run.rs.state[pod := g])))
    case Recover(pod, b) => s.(run := Collecting(s.run.rs.(recovered := s.run.rs.recovered[pod := b])))
    case Persist => s.(recovery := Some(s.run.rs))
    case Tell(src) => s.(flags := s.flags + {src.pod}, run := Told(s.run.rs, src.pod))
    case SetBootstrapping =>
      s.(run := Recording(s.run.rs.(bootstrap := Some(Bootstrapping(s.now, s.run.pod)))))
    case PersistBootstrapping => s.(recovery := Some(s.run.rs), run := Idle)
    case BeginDisabling => s.(run := Disabling(0))
    case DisableNext => s.(flags := s.flags - {s.pods[s.run.done]}, run := Disabling(s.run.done + 1))
    case MarkReady => s.(ready := Ready, configured := true, run := Idle)
    case Abort => s.(run := Idle)
  }

  ghost predicate Legal(s: State, es: seq<Event>)
    decreases |es|
  {
    es == [] || (Enabled(s, es[0]) && Legal(Next(s, es[0]), es[1..]))
  }

  ghost function After(s: State, es: seq<Event>): State
    requires Legal(s, es)
    decreases |es|
  {
    if es == [] then s else After(Next(s, es[0]), es[1..])
  }

  // A cluster nobody has looked at yet. The first Pod may have been started with bootstrap enabled.
  ghost predicate Initial(s: State) {
    && s.ready == Unknown && !s.configured && s.recovery.None? && s.run.Idle? && !s.polling
    && forall p | p in s.flags :: p in s.pods
  }

  predicate Recovering(r: Run) { r.Collecting? || r.Told? || r.Recording? }

  ghost predicate Inv(s: State) {
    && (forall p | p in s.flags :: p in s.pods)
    && (s.configured ==> s.ready != Unknown)
    && (s.polling ==> s.ready == Ready)
    && (s.ready == Ready ==> s.flags == {} && !Recovering(s.run) && !s.run.Disabling?)
    && (Recovering(s.run) ==> s.ready == NotReady && Local(s).bootstrap.None?)
    && (s.run.Collecting? || s.run.Told? ==> s.run.rs.bootstrap.None?)
    && (s.run.Disabling? ==> s.run.done <= |s.pods| && forall i | 0 <= i < s.run.done :: s.pods[i] !in s.flags)
  }

  lemma InvNext(s: State, e: Event)
    requires Inv(s) && Enabled(s, e)
    ensures Inv(Next(s, e))
  {
    if e.MarkReady? {
      assert forall p | p in s.pods :: p !in s.flags;
    }
  }

  lemma {:induction false} InvAfter(s: State, es: seq<Event>)
    requires Inv(s) && Legal(s, es)
    ensures Inv(After(s, es))
    decreases |es|
  {
    if es != [] {
      InvNext(s, es[0]);
      InvAfter(Next(s, es[0]), es[1..]);
    }
  }

  // Whatever the two controllers did and wherever they stopped: while the cluster is marked ready no
  // Pod has bootstrap enabled, and nothing is being recovered.
  lemma ReadyMeansNoBootstrap(s: State, es: seq<Event>)
    requires Initial(s) && Legal(s, es) && After(s, es).ready == Ready
    ensures After(s, es).flags == {} && !Recovering(After(s, es).run)
  {
    InvAfter(s, es);
  }

  // The health controller writes only over a cluster that is marked ready: it never wipes the record
  // of a recovery in progress.
  lemma HealthKeepsRecovery(s: State, es: seq<Event>)
    requires Initial(s) && Legal(s, es) && Enabled(After(s, es), MarkNotReady)
    ensures After(s, es).ready == Ready && !Recovering(After(s, es).run)
  {
    InvAfter(s, es);
  }

  // A bootstrap begun at t0 is recorded and nobody works on another one.
  ghost predicate Recorded(s: State, t0: int) {
    && s.recovery.Some? && s.recovery.value.bootstrap.Some? && s.recovery.value.bootstrap.value.time == t0
    && !Recovering(s.run)
  }

  // The record stays until it is reset, which happens only after its time.
  lemma RecordedNext(s: State, e: Event, t0: int)
    requires Inv(s) && Enabled(s, e) && e != MarkNotReady && Recorded(s, t0)
    ensures Next(s, e).timeout == s.timeout
    ensures if e == ResetTimedOut then Next(s, e).now > t0 + s.timeout else Recorded(Next(s, e), t0)
  {
  }

  lemma TellNeedsNoRecord(s: State, src: Source, t0: int)
    requires Inv(s) && Enabled(s, Tell(src))
    ensures !Recorded(s, t0)
  {
  }

  lemma TimeoutKept(s: State, e: Event)
    requires Enabled(s, e)
    ensures Next(s, e).timeout == s.timeout && Next(s, e).now >= s.now
  {
  }

  lemma {:induction false} SpacedFrom(s: State, es: seq<Event>, src: Source, t0: int)
    requires Inv(s) && Legal(s, es + [Tell(src)]) && MarkNotReady !in es
    requires Recorded(s, t0) || s.now > t0 + s.timeout
    ensures Legal(s, es) && After(s, es).now > t0 + s.timeout
    ensures Recorded(s, t0) ==> ResetTimedOut in es
    decreases |es|
  {
    if es == [] {
      assert es + [Tell(src)] == [Tell(src)];
      TellNeedsNoRecord(s, src, t0);
    } else {
      assert (es + [Tell(src)])[0] == es[0] && (es + [Tell(src)])[1..] == es[1..] + [Tell(src)];
      assert Enabled(s, es[0]) && es[0] in es;
      InvNext(s, es[0]);
      TimeoutKept(s, es[0]);
      if Recorded(s, t0) {
        RecordedNext(s, es[0], t0);
      }
      SpacedFrom(Next(s, es[0]), es[1..], src, t0);
    }
  }

  // Once a bootstrap is recorded, no Pod is told to bootstrap again before the recorded time plus the
  // timeout has passed and the record was reset, as long as the cluster is not marked not ready anew.
  lemma BootstrapsAreSpaced(s: State, before: seq<Event>, es: seq<Event>, src: Source, t0: int)
    requires Initial(s) && Legal(s, before) && Recorded(After(s, before), t0)
    requires Legal(After(s, before), es + [Tell(src)]) && MarkNotReady !in es
    ensures Legal(After(s, before), es) && ResetTimedOut in es
    ensures After(After(s, before), es).now > t0 + After(s, before).timeout
  {
    InvAfter(s, before);
    SpacedFrom(After(s, before), es, src, t0);
  }
}
