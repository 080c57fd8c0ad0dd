/** The Galera reconcile as the code runs it. Every assignment to the status or to an agent is an event
    of the system in Galera; calls to the cluster may fail at any point.
 */
module GaleraController {
  import opened Optional
  import opened GaleraRecovery
  import opened Galera

  lemma {:induction false} Extend(s: State, es: seq<Event>, e: Event)
    requires Legal(s, es) && Enabled(After(s, es), e)
    ensures Legal(s, es + [e]) && After(s, es + [e]) == Next(After(s, es), e)
    decreases |es|
  {
    if es == [] {
      assert [e][1..] == [] && es + [e] == [e];
      assert Legal(Next(s, e), []);
    } else {
      Extend(Next(s, es[0]), es[1..], e);
      assert (es + [e])[1..] == es[1..] + [e];
    }
  }

  // Recording a bootstrap does not change who is a source.
  lemma SourceWithRecord(r: Recovery, pods: seq<string>, src: Source, now: int)
    requires IsSource(r, pods, src)
    ensures IsSource(r.(bootstrap := Some(Bootstrapping(now, src.pod))), pods, src)
  {
    var t := r.(bootstrap := Some(Bootstrapping(now, src.pod)));
    assert forall p :: SafeFor(t, p) == SafeFor(r, p);
    assert forall p :: Reports(t, p) == Reports(r, p);
    if !IsSafeSource(r, pods, src) {
      var k :| 0 <= k < |pods| && IsLast(r, pods, src, k);
      assert IsLast(t, pods, src, k);
    }
  }

  class GaleraReconciler {
    const pods: seq<string>
    const timeout: nat
    var now: int
    var ready: Condition
    var configured: bool
    var recovery: Option<Recovery>
    var flags: set<string>
    var readyReplicas: nat
    ghost var run: Run
    var polling: bool
    ghost var origin: State
    ghost var events: seq<Event>
    ghost var faults: nat    // calls that failed

    ghost function Now(): State
      reads this
    {
      State(pods, timeout, now, ready, configured, recovery, flags, readyReplicas, run, polling)
    }

    // The bootstrap on record.
    ghost function Pending(): Option<Bootstrapping>
      reads this
    {
      if recovery.Some? then recovery.value.bootstrap else None
    }

    // Every Pod was asked for its state and its position, and some have no valid one.
    ghost predicate Exhausted()
      reads this
    {
      && recovery.Some? && !Complete(recovery.value, pods)
      && forall p | p in pods :: p in recovery.value.state && p in recovery.value.recovered
    }

    // A Pod that is a source of the record was told to bootstrap, and that is on record.
    ghost predicate BootstrapRecorded()
      reads this
    {
      && Pending().Some? && Pending().value.pod in flags
      && exists src :: IsSource(recovery.value, pods, src) && src.pod == Pending().value.pod
    }

    ghost predicate Valid()
      reads this
    {
      |pods| > 1 && Initial(origin) && Legal(origin, events) && After(origin, events) == Now()
    }

    constructor (pods: seq<string>, timeout: nat, now: int, flags: set<string>)
      requires |pods| > 1 && forall p | p in flags :: p in pods
      ensures Valid() && this.pods == pods && this.timeout == timeout && run.Idle?
    {
      this.pods, this.timeout, this.now := pods, timeout, now;
      ready, configured, recovery, this.flags, readyReplicas := Unknown, false, None, flags, 0;
      run, polling, events, faults := Idle, false, [], 0;
      origin := State(pods, timeout, now, Unknown, false, None, flags, 0, Idle, false);
    }

    ghost method Record(s: State, e: Event)
      requires |pods| > 1 && Initial(origin) && Legal(origin, events) && After(origin, events) == s
      requires Enabled(s, e) && Now() == Next(s, e)
      modifies this`events
      ensures Valid() && events == old(events) + [e]
    {
      Extend(origin, events, e);
      events := events + [e];
    }

    // Whether the next call fails.
    method Fails() returns (failed: bool)
      requires Valid()
      modifies this`faults
      ensures Valid() && faults == old(faults) + if failed then 1 else 0
    {
      failed := *;
      if failed {
        faults := faults + 1;
      }
    }

    // Time passes, Pods come and go, the health controller works: any number of these, in any order.
    method Others()
      requires Valid()
      modifies this`now, this`ready, this`recovery, this`readyReplicas, this`polling, this`events
      ensures Valid() && old(events) <= events
      ensures now >= old(now)
    {
      var n: int :| n >= 0;
      for k := 0 to n
        invariant Valid() && old(events) <= events && now >= old(now)
      {
        if * {
          Elapse();
        } else {
          var healthy: bool := *;
          HealthController(healthy);
        }
      }
    }

    method Elapse()
      requires Valid()
      modifies this`now, this`readyReplicas, this`events
      ensures Valid() && old(events) <= events && now >= old(now)
    {
      ghost var s := Now();
      var d: int, n: int :| d >= 0 && n >= 0;
      if * {
        now := now + d;
        Record(s, Tick(d));
      } else {
        readyReplicas := n;
        Record(s, Replicas(n));
      }
    }

    // It starts to poll a configured cluster that is not marked not ready, and either finds it healthy or
    // marks it not ready and drops the recovery record.
    method HealthController(healthy: bool)
      requires Valid()
      modifies this`ready, this`recovery, this`polling, this`events
      ensures Valid() && old(events) <= events
      ensures polling == (!old(polling) && configured && old(ready) != NotReady)
      ensures if old(polling) && !healthy then ready == NotReady && recovery.None?
              else ready == old(ready) && recovery == old(recovery)
    {
      ghost var s := Now();
      if polling {
        polling := false;
        if healthy {
          Record(s, Healthy);
        } else {
          recovery, ready := None, NotReady;
          Record(s, MarkNotReady);
        }
      } else if configured && ready != NotReady {
        polling := true;
        Record(s, Poll);
      }
    }

    method FetchState(p: string, rs: RecoveryStatus) returns (ok: bool)
      requires Valid() && rs.inner.Some? && run == Collecting(rs.inner.value) && p in pods && p !in rs.inner.value.state
      modifies rs, this`now, this`ready, this`recovery, this`readyReplicas, this`polling, this`run, this`events, this`faults
      ensures Valid() && old(events) <= events && rs.inner.Some? && run == Collecting(rs.inner.value)
      ensures rs.inner.value.state.Keys == old(rs.inner).value.state.Keys + if ok then {p} else {}
      ensures forall q | q in old(rs.inner).value.state :: rs.inner.value.state[q] == old(rs.inner).value.state[q]
      ensures faults == old(faults) + if ok then 0 else 1
    {
      Others();
      var failed := Fails();
      if failed { return false; }
      var g: GaleraState := *;
      ghost var s := Now();
      rs.SetState(p, g);
      run := Collecting(rs.inner.value);
      Record(s, Fetch(p, g));
      return true;
    }

    // The states of the Pods that are not known yet, in any order, up to the first error.
    method StateByPod(rs: RecoveryStatus) returns (ok: bool)
      requires Valid() && rs.inner.Some? && run == Collecting(rs.inner.value)
      modifies rs, this`now, this`ready, this`recovery, this`readyReplicas, this`polling, this`run, this`events, this`faults
      ensures Valid() && old(events) <= events && rs.inner.Some? && run == Collecting(rs.inner.value)
      ensures ok ==> forall p | p in pods :: p in rs.inner.value.state
      ensures faults >= old(faults) && (ok <==> faults == old(faults))
    {
      var todo := set p | p in pods && p !in rs.inner.value.state;
      while todo != {}
        invariant Valid() && old(events) <= events && rs.inner.Some? && run == Collecting(rs.inner.value)
        invariant forall p | p in todo :: p in pods && p !in rs.inner.value.state
        invariant forall p | p in pods :: p in todo || p in rs.inner.value.state
        invariant faults == old(faults)
        decreases todo
      {
        var p :| p in todo;
        ok := FetchState(p, rs);
        if !ok { return; }
        todo := todo - {p};
      }
      return true;
    }

    method RecoverPosition(p: string, rs: RecoveryStatus) returns (ok: bool)
      requires Valid() && rs.inner.Some? && run == Collecting(rs.inner.value) && p in pods && p !in rs.inner.value.recovered
      modifies rs, this`now, this`ready, this`recovery, this`readyReplicas, this`polling, this`run, this`events, this`faults
      ensures Valid() && old(events) <= events && rs.inner.Some? && run == Collecting(rs.inner.value)
      ensures rs.inner.value.state == old(rs.inner).value.state
      ensures rs.inner.value.recovered.Keys == old(rs.inner).value.recovered.Keys + if ok then {p} else {}
      ensures forall q | q in old(rs.inner).value.recovered :: rs.inner.value.recovered[q] == old(rs.inner).value.recovered[q]
      ensures faults == old(faults) + if ok then 0 else 1
    {
      Others();
      var failed := Fails();
      if failed { return false; }
      var b: Bootstrap := *;
      ghost var s := Now();
      rs.SetRecovered(p, b);
      run := Collecting(rs.inner.value);
      Record(s, Recover(p, b));
      return true;
    }

    method RecoveryByPod(rs: RecoveryStatus) returns (ok: bool)
      requires Valid() && rs.inner.Some? && run == Collecting(rs.inner.value)
      modifies rs, this`now, this`ready, this`recovery, this`readyReplicas, this`polling, this`run, this`events, this`faults
      ensures Valid() && old(events) <= events && rs.inner.Some? && run == Collecting(rs.inner.value)
      ensures ok ==> forall p | p in pods :: p in rs.inner.value.recovered
      ensures rs.inner.value.state == old(rs.inner).value.state
      ensures faults >= old(faults) && (ok <==> faults == old(faults))
    {
      var todo := set p | p in pods && p !in rs.inner.value.recovered;
      while todo != {}
        invariant Valid() && old(events) <= events && rs.inner.Some? && run == Collecting(rs.inner.value)
        invariant forall p | p in todo :: p in pods && p !in rs.inner.value.recovered
        invariant forall p | p in pods :: p in todo || p in rs.inner.value.recovered
        invariant rs.inner.value.state == old(rs.inner).value.state
        invariant faults == old(faults)
        decreases todo
      {
        var p :| p in todo;
        ok := RecoverPosition(p, rs);
        if !ok { return; }
        todo := todo - {p};
      }
      return true;
    }

    // patchRecoveryStatus while collecting.
    method PatchRecovery(rs: RecoveryStatus) returns (ok: bool)
      requires Valid() && rs.inner.Some? && run == Collecting(rs.inner.value)
      modifies this`recovery, this`events, this`faults
      ensures Valid() && old(events) <= events
      ensures recovery == if ok then rs.inner else old(recovery)
      ensures faults == old(faults) + if ok then 0 else 1
    {
      var failed := Fails();
      if failed { return false; }
      ghost var s := Now();
      recovery := rs.inner;
      Record(s, Persist);
      return true;
    }

    ghost method GiveUp()
      requires Valid() && !run.Idle?
      modifies this`run, this`events
      ensures Valid() && run.Idle? && old(events) <= events
    {
      var s := Now();
      run := Idle;
      Record(s, Abort);
    }

    method TellPod(src: Source, rs: RecoveryStatus)
      requires Valid() && rs.inner.Some? && run == Collecting(rs.inner.value) && IsSource(rs.inner.value, pods, src)
      modifies this`flags, this`run, this`events
      ensures Valid() && old(events) <= events && run == Told(rs.inner.value, src.pod)
      ensures flags == old(flags) + {src.pod}
    {
      ghost var s := Now();
      flags := flags + {src.pod};
      run := Told(rs.inner.value, src.pod);
      Record(s, Tell(src));
    }

    method RecordBootstrapping(pod: string, rs: RecoveryStatus)
      requires Valid() && rs.inner.Some? && run == Told(rs.inner.value, pod)
      modifies rs, this`run, this`events
      ensures Valid() && old(events) <= events && rs.inner.Some? && run == Recording(rs.inner.value)
      ensures rs.inner.value == old(rs.inner).value.(bootstrap := Some(Bootstrapping(now, pod)))
    {
      ghost var s := Now();
      rs.SetBootstrapping(now, pod);
      run := Recording(rs.inner.value);
      Record(s, SetBootstrapping);
    }

    method PatchBootstrapping(rs: RecoveryStatus)
      requires Valid() && rs.inner.Some? && run == Recording(rs.inner.value)
      modifies this`recovery, this`run, this`events
      ensures Valid() && old(events) <= events && run.Idle? && recovery == rs.inner
    {
      ghost var s := Now();
      recovery := rs.inner;
      run := Idle;
      Record(s, PersistBootstrapping);
    }

    // Enables bootstrap in the source's Pod, deletes the Pod, records and persists the bootstrap. A
    // failure in between leaves the Pod told and nothing recorded.
    method BootstrapFrom(src: Source, rs: RecoveryStatus) returns (ok: bool)
      requires Valid() && rs.inner.Some? && run == Collecting(rs.inner.value) && IsSource(rs.inner.value, pods, src)
      modifies rs, this`now, this`ready, this`recovery, this`readyReplicas, this`polling, this`flags, this`run, this`events, this`faults
      ensures Valid() && run.Idle? && old(events) <= events
      ensures ok ==> src.pod in flags && recovery.Some? && recovery.value.bootstrap.Some?
      ensures ok ==> recovery.value.bootstrap.value.pod == src.pod
      ensures flags == old(flags) || flags == old(flags) + {src.pod}
      ensures ok ==> IsSource(recovery.value, pods, src)
      ensures faults >= old(faults) && (ok <==> faults == old(faults))
    {
      var failed := Fails();
      if failed { GiveUp(); return false; }
      TellPod(src, rs);
      Others();
      SourceWithRecord(rs.inner.value, pods, src, now);
      ok := RecordBootstrap(src.pod, rs);
    }

    method RecordBootstrap(pod: string, rs: RecoveryStatus) returns (ok: bool)
      requires Valid() && rs.inner.Some? && run == Told(rs.inner.value, pod)
      modifies rs, this`recovery, this`run, this`events, this`faults
      ensures Valid() && run.Idle? && old(events) <= events
      ensures ok ==> recovery == Some(old(rs.inner).value.(bootstrap := Some(Bootstrapping(now, pod))))
      ensures faults >= old(faults) && (ok <==> faults == old(faults))
    {
      ok := false;
      var failed := Fails();
      if failed { GiveUp(); return; }
      RecordBootstrapping(pod, rs);
      failed := Fails();
      if failed { GiveUp(); return; }
      PatchBootstrapping(rs);
      ok := true;
    }

    method ResetRecovery(rs: RecoveryStatus) returns (ok: bool)
      requires Valid() && Enabled(Now(), ResetTimedOut)
      modifies rs, this`recovery, this`run, this`events, this`faults
      ensures Valid() && run.Idle? && old(events) <= events
      ensures recovery == if ok then None else old(recovery)
      ensures faults == old(faults) + if ok then 0 else 1
    {
      rs.Reset();
      var failed := Fails();
      if failed { GiveUp(); return false; }
      ghost var s := Now();
      recovery := rs.inner;
      run := Idle;
      Record(s, ResetTimedOut);
      return true;
    }

    // States first; positions are recovered only when the states do not give a source.
    method FindSource(rs: RecoveryStatus) returns (r: Result)
      requires Valid() && rs.inner.Some? && run == Collecting(rs.inner.value)
      modifies rs, this`now, this`ready, this`recovery, this`readyReplicas, this`polling, this`run, this`events, this`faults
      ensures Valid() && old(events) <= events && rs.inner.Some? && run == Collecting(rs.inner.value)
      ensures r.Ok? ==> IsSource(rs.inner.value, pods, r.source)
      ensures faults >= old(faults) && (r.Ok? ==> faults == old(faults))
      ensures r.Ok? ==> forall p | p in pods :: p in rs.inner.value.state
      // Without a failed call, only a Pod that reported no valid position leaves the cluster without a source.
      ensures r.Err? && faults == old(faults) ==> recovery == rs.inner && Exhausted()
    {
      var got := StateByPod(rs);
      var saved := PatchRecovery(rs);
      if !got || !saved { return Err(NotCompleted); }
      r := rs.BootstrapSource(pods);
      if r.Ok? { return; }
      got := RecoveryByPod(rs);
      saved := PatchRecovery(rs);
      if !got || !saved { return Err(NotCompleted); }
      r := rs.BootstrapSource(pods);
    }

    method RecoverCluster() returns (ok: bool)
      requires Valid() && run == Looked(0) && ready == NotReady
      modifies this`now, this`ready, this`recovery, this`readyReplicas, this`polling, this`flags, this`run, this`events, this`faults
      ensures Valid() && run.Idle? && old(events) <= events
      // A recorded bootstrap is waited for until its timeout, and then the record is dropped.
      ensures old(Pending()).Some? ==> flags == old(flags)
      ensures old(Pending()).Some? && old(now) <= old(Pending()).value.time + timeout ==> ok && recovery == old(recovery)
      ensures old(Pending()).Some? && old(now) > old(Pending()).value.time + timeout ==>
                recovery == if ok then None else old(recovery)
      // Otherwise at most one Pod is told, and success means it was told and recorded.
      ensures flags == old(flags) || exists p | p in pods :: flags == old(flags) + {p}
      ensures ok && old(Pending()).None? ==> BootstrapRecorded()
      // Failure has a cause: a failed call, or a Pod without a valid position.
      ensures faults >= old(faults) && (ok ==> faults == old(faults))
      ensures !ok && faults == old(faults) ==> Exhausted()
    {
      ok := false;
      var rs := new RecoveryStatus(recovery);
      var b := rs.inner.value.bootstrap;
      if b.Some? {
        if now > b.value.time + timeout {
          ok := ResetRecovery(rs);
          return;
        }
        GiveUp();
        return true;
      }
      ok := RecoverFrom(rs);
    }

    method StartCollecting(local: Recovery)
      requires Valid() && Enabled(Now(), BeginRecovery) && local == Local(Now())
      modifies this`run, this`events
      ensures Valid() && run == Collecting(local) && old(events) <= events
    {
      ghost var s := Now();
      run := Collecting(local);
      Record(s, BeginRecovery);
    }

    // Searches a source and has it bootstrap.
    method RecoverFrom(rs: RecoveryStatus) returns (ok: bool)
      requires Valid() && Enabled(Now(), BeginRecovery) && rs.inner == Some(Local(Now()))
      modifies rs, this`now, this`ready, this`recovery, this`readyReplicas, this`polling, this`flags, this`run, this`events
      modifies this`faults
      ensures Valid() && run.Idle? && old(events) <= events
      ensures flags == old(flags) || exists p | p in pods :: flags == old(flags) + {p}
      ensures ok ==> BootstrapRecorded()
      ensures faults >= old(faults) && (ok ==> faults == old(faults))
      ensures !ok && faults == old(faults) ==> Exhausted()
    {
      StartCollecting(rs.inner.value);
      var src := FindSource(rs);
      if src.Err? { GiveUp(); return false; }
      ok := BootstrapFrom(src.source, rs);
    }

    method DisableBootstrap() returns (ok: bool)
      requires Valid() && run == Looked(|pods|) && ready != Ready
      modifies this`now, this`ready, this`recovery, this`readyReplicas, this`polling, this`flags, this`run, this`events, this`faults
      ensures Valid() && old(events) <= events
      ensures if ok then run == Disabling(|pods|) else run.Idle?
      ensures faults >= old(faults) && (ok <==> faults == old(faults))
    {
      ghost var s := Now();
      run := Disabling(0);
      Record(s, BeginDisabling);
      for i := 0 to |pods|
        invariant Valid() && old(events) <= events && run == Disabling(i) && faults == old(faults)
      {
        ok := DisablePod(i);
        if !ok { return; }
      }
      return true;
    }

    method DisablePod(i: nat) returns (ok: bool)
      requires Valid() && i < |pods| && run == Disabling(i)
      modifies this`now, this`ready, this`recovery, this`readyReplicas, this`polling, this`flags, this`run, this`events, this`faults
      ensures Valid() && old(events) <= events && run == if ok then Disabling(i + 1) else Idle
      ensures faults == old(faults) + if ok then 0 else 1
    {
      Others();
      var failed := Fails();
      if failed { GiveUp(); return false; }
      ok := true;
      ghost var s := Now();
      flags := flags - {pods[i]};
      run := Disabling(i + 1);
      Record(s, DisableNext);
    }

    method SetReady()
      requires Valid() && run == Disabling(|pods|)
      modifies this`ready, this`configured, this`run, this`events
      ensures Valid() && run.Idle? && old(events) <= events && ready == Ready && configured
    {
      ghost var s := Now();
      ready, configured := Ready, true;
      run := Idle;
      Record(s, MarkReady);
    }

    // All Pods are ready: bootstrap is disabled everywhere, and then the cluster is marked ready.
    method MarkHealthy() returns (ok: bool)
      requires Valid() && run == Looked(|pods|) && ready != Ready
      modifies this`now, this`ready, this`configured, this`recovery, this`readyReplicas, this`polling, this`flags, this`run
      modifies this`events, this`faults
      ensures Valid() && run.Idle? && old(events) <= events
      ensures ok ==> ready == Ready && configured
      ensures faults >= old(faults) && (ok <==> faults == old(faults))
    {
      ok := DisableBootstrap();
      if ok {
        var failed := Fails();
        if failed { GiveUp(); return false; }
        SetReady();
      }
    }

    // What a reconcile acts on: the condition, the ready replicas and the bootstrap on record.
    ghost predicate Lost()
      reads this
    {
      ready == NotReady && readyReplicas == 0
    }

    ghost predicate Recovered()
      reads this
    {
      ready != Ready && readyReplicas == |pods|
    }

    // One reconcile. After it, as in every state in between, what is proved of all runs of the two
    // controllers holds; in particular a cluster marked ready has no Pod with bootstrap enabled.
    method Reconcile() returns (ok: bool)
      requires Valid() && run.Idle?
      modifies this
      ensures Valid() && run.Idle? && old(events) <= events
      ensures ready == Ready ==> flags == {}
      // A lost cluster without a bootstrap on record gets one; with one, it is waited for until its time.
      ensures old(Lost()) && old(Pending()).None? && ok ==> BootstrapRecorded()
      ensures old(Lost()) && old(Pending()).Some? ==> flags == old(flags)
      ensures old(Lost()) && old(Pending()).Some? && old(now) <= old(Pending()).value.time + timeout ==>
                ok && recovery == old(recovery)
      ensures old(Lost()) && old(Pending()).Some? && old(now) > old(Pending()).value.time + timeout ==>
                recovery == if ok then None else old(recovery)
      // One whose Pods are all ready is marked ready.
      ensures old(Recovered()) && ok ==> ready == Ready && configured
      // Any other is left alone.
      ensures !old(Lost()) && !old(Recovered()) ==>
                ok && ready == old(ready) && configured == old(configured) && recovery == old(recovery) && flags == old(flags)
      // Failure has a cause: a failed call, or a Pod of a lost cluster without a valid position.
      ensures !ok ==> faults > old(faults) || (old(Lost()) && Exhausted())
    {
      ghost var s := Now();
      var seen := readyReplicas;
      run := Looked(seen);
      Record(s, Look);
      ok := true;
      if ready == NotReady && seen == 0 {
        ok := RecoverCluster();
      } else if ready != Ready && seen == |pods| {
        ok := MarkHealthy();
      } else {
        GiveUp();
      }
      if ready == Ready {
        ReadyMeansNoBootstrap(origin, events);
      }
    }
  }
}
