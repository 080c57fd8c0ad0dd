/** The reconcile that drives the switchover, as the code runs it: the status is patched, six phases
    follow one another, the first error ends the attempt, and a last patch records the new primary.

    Every assignment it makes is an event of the protocol, so what holds of all runs of the protocol
    holds after and during every call.
 */
module SwitchoverController {
  import opened Replication
  import opened Switchover
  import opened SwitchoverSafety

  predicate CalmAll(es: seq<Event>) {
    forall e | e in es :: Lasting(e) && Unlocking(e) && !e.SkipPod? && !e.Stray?
  }

  predicate InAttempt(e: Event) { !e.Start? && !e.StartSweep? && !e.Stop? && !e.Finish? }

  class ReplicationReconciler {
    var servers: seq<Server>
    var spec: Spec
    var current: nat
    var switching: bool
    var run: Run
    var committed: seq<nat>
    ghost var origin: State
    ghost var events: seq<Event>    // everything that happened since origin
    ghost var faults: nat           // calls that failed and waits that timed out

    function Now(): State
      reads this
    {
      State(servers, spec, current, switching, run, committed)
    }

    ghost predicate Valid()
      reads this
    {
      Configured(origin) && Legal(origin, events) && After(origin, events) == Now()
    }

    // Replication was not disabled during a switchover, the old primary was seen Ready when it was to be
    // unlocked, no Pod was passed over and no goroutine outlived its attempt.
    ghost predicate Calm()
      reads this
    {
      CalmAll(events)
    }

    constructor (s: State)
      requires Configured(s)
      ensures Valid() && Now() == s && events == []
    {
      servers, spec, current, switching, run := s.servers, s.spec, s.current, s.switching, s.run;
      committed, origin, events, faults := s.committed, s, [], 0;
    }

    ghost method Record(s: State, e: Event)
      requires Configured(origin) && Legal(origin, events) && After(origin, events) == s
      requires Enabled(s, e) && Now() == Next(s, e)
      modifies this`events
      ensures Valid() && events == old(events) + [e]
      ensures Calm() ==> Staged(s)
      ensures Calm() && Converging(s) && InAttempt(e) ==> Converging(Now())
    {
      Extend(origin, events, e);
      if CalmAll(events + [e]) {
        CalmNext(origin, events, e);
      }
      events := events + [e];
    }

    // Whether the next call fails.
    method Fails() returns (failed: bool)
      requires Valid()
      modifies this`faults
      ensures Valid() && Now() == old(Now()) && faults == old(faults) + if failed then 1 else 0
    {
      failed := *;
      if failed {
        faults := faults + 1;
      }
    }

    // In between two commands clients write, servers replicate, users update the resource, and
    // goroutines that outlived an attempt run commands: any number of these, in any order.
    method Others()
      requires Valid()
      modifies this`servers, this`spec, this`committed, this`events
      ensures Valid() && |servers| == old(|servers|)
      ensures old(events) <= events
      ensures run.Busy? && Calm() && old(Converging(Now())) ==> Converging(Now())
    {
      var n: int :| n >= 0;
      for k := 0 to n
        invariant Valid() && |servers| == old(|servers|) && old(events) <= events
        invariant run.Busy? && Calm() && old(Converging(Now())) ==> Converging(Now())
      {
        var e: Event := *;
        if (e.Write? || e.Replicate? || e.Update? || e.Stray?) && Enabled(Now(), e) {
          Other(e);
        }
      }
    }

    method Other(e: Event)
      requires Valid() && (e.Write? || e.Replicate? || e.Update? || e.Stray?) && Enabled(Now(), e)
      modifies this`servers, this`spec, this`committed, this`events
      ensures Valid() && |servers| == old(|servers|) && events == old(events) + [e]
      ensures run.Busy? && Calm() && old(Converging(Now())) ==> Converging(Now())
    {
      var s := Now();
      var t := Next(s, e);
      servers, spec, committed := t.servers, t.spec, t.committed;
      Record(s, e);
    }

    method RunCommand(i: nat)
      requires Valid() && Enabled(Now(), Step(i))
      modifies this`servers, this`run, this`events
      ensures Valid() && |servers| == old(|servers|) && old(events) <= events
      ensures run.Busy? && |run.procs| == old(|run.procs|) && run == old(run).(procs := old(run.procs)[i := run.procs[i]])
      ensures |run.procs[i].rest| < |old(run.procs)[i].rest| && run.procs[i].doomed == old(run.procs)[i].doomed
      ensures Calm() && old(Converging(Now())) ==> Converging(Now())
    {
      var s, p := Now(), run.procs[i];
      servers := servers[i := Exec(p.rest[0], servers[i])];
      run := run.(procs := run.procs[i := p.(rest := p.rest[1..])]);
      Record(s, Step(i));
    }

    method TimeOut(i: nat)
      requires Valid() && Enabled(Now(), Timeout(i))
      modifies this`servers, this`run, this`events, this`faults
      ensures Valid() && |servers| == old(|servers|) && old(events) <= events
      ensures run.Busy? && |run.procs| == old(|run.procs|) && run == old(run).(procs := old(run.procs)[i := run.procs[i]])
      ensures |run.procs[i].rest| < |old(run.procs)[i].rest|
      ensures Calm() && old(Converging(Now())) ==> Converging(Now())
      ensures faults == old(faults) + 1
    {
      faults := faults + 1;
      var s := Now();
      run := run.(procs := run.procs[i := Proc(run.procs[i].rest[1..], true)]);
      Record(s, Timeout(i));
    }

    method PassOver(i: nat)
      requires Valid() && Enabled(Now(), SkipPod(i))
      modifies this`servers, this`run, this`events
      ensures Valid() && |servers| == old(|servers|) && old(events) <= events
      ensures run.Busy? && |run.procs| == old(|run.procs|) && run == old(run).(procs := old(run.procs)[i := run.procs[i]])
      ensures |run.procs[i].rest| < |old(run.procs)[i].rest| && !run.procs[i].doomed
      ensures Calm() && old(Converging(Now())) ==> Converging(Now())
    {
      var s := Now();
      run := run.(procs := run.procs[i := DONE]);
      Record(s, SkipPod(i));
      assert events[|events| - 1] == SkipPod(i);
    }

    // The goroutine at server i runs its next command, or fails to.
    method Command(i: nat) returns (ok: bool)
      requires Valid() && Pending(Now(), i)
      modifies this`servers, this`spec, this`committed, this`run, this`events, this`faults
      ensures Valid() && |servers| == old(|servers|) && old(events) <= events
      ensures run.Busy? && run == old(run).(procs := run.procs) && |run.procs| == old(|run.procs|)
      ensures run.procs == old(run.procs)[i := run.procs[i]]
      ensures ok ==> |run.procs[i].rest| < |old(run.procs)[i].rest|
      ensures ok && Calm() && old(Converging(Now())) ==> Converging(Now())
      ensures faults >= old(faults) && (!ok || (run.procs[i].doomed && !old(run.procs)[i].doomed) ==> faults > old(faults))
    {
      Others();
      ok := false;
      var failed := Fails();
      if failed { return; }
      var notReady: bool := *;
      Proceed(i, notReady);
      ok := true;
    }

    method Proceed(i: nat, notReady: bool)
      requires Valid() && Pending(Now(), i)
      modifies this`servers, this`run, this`events, this`faults
      ensures Valid() && |servers| == old(|servers|) && old(events) <= events
      ensures run.Busy? && run == old(run).(procs := run.procs) && |run.procs| == old(|run.procs|)
      ensures run.procs == old(run.procs)[i := run.procs[i]]
      ensures |run.procs[i].rest| < |old(run.procs)[i].rest|
      ensures Calm() && old(Converging(Now())) ==> Converging(Now())
      ensures faults >= old(faults) && (run.procs[i].doomed && !old(run.procs)[i].doomed ==> faults > old(faults))
    {
      var c := run.procs[i].rest[0];
      if notReady && run.phase == ConnectReplicas && c.ResetMaster? {
        PassOver(i);
      } else if c.WaitGtid? && |servers[i].log| < c.pos {
        TimeOut(i);
      } else {
        RunCommand(i);
      }
    }

    // All goroutines of the phase, in any order, up to the first error.
    method FanOut() returns (ok: bool)
      requires Valid() && run.Busy? && NoneDoomed(run.procs)
      modifies this`servers, this`spec, this`committed, this`run, this`events, this`faults
      ensures Valid() && |servers| == old(|servers|) && old(events) <= events
      ensures run.Busy? && run.phase == old(run.phase) && run.to == old(run.to)
      ensures ok ==> AllDone(run.procs)
      ensures ok && Calm() && old(Converging(Now())) ==> Converging(Now())
      ensures faults >= old(faults) && (!ok ==> faults > old(faults))
    {
      ok := true;
      while exists i | 0 <= i < |run.procs| :: run.procs[i].rest != []
        invariant Valid() && |servers| == old(|servers|) && old(events) <= events && ok
        invariant run.Busy? && run.phase == old(run.phase) && run.to == old(run.to)
        invariant Calm() && old(Converging(Now())) ==> Converging(Now())
        invariant faults >= old(faults) && (faults == old(faults) ==> NoneDoomed(run.procs))
        decreases Remaining(run.procs)
      {
        var i :| 0 <= i < |run.procs| && run.procs[i].rest != [];
        ghost var before := run.procs;
        ok := Command(i);
        if !ok { return; }
        RemainingDrops(before, run.procs, i);
      }
      ok := NoneDoomed(run.procs);
    }

    method End()
      requires Valid() && run.Busy?
      modifies this`servers, this`run, this`events
      ensures Valid() && run.Idle? && |servers| == old(|servers|) && old(events) <= events
    {
      ghost var s := Now();
      var unlock: bool := *;
      var c := servers[current];
      servers := servers[current := c.(locked := c.locked && !unlock)];
      run := Idle;
      Record(s, Stop(unlock));
    }

    // The phases after the first, up to the first error.
    method Phases() returns (ok: bool)
      requires Valid() && run.Busy? && run.phase == LockPrimary && NoneDoomed(run.procs)
      modifies this`servers, this`spec, this`committed, this`run, this`events, this`faults
      ensures Valid() && |servers| == old(|servers|) && old(events) <= events
      ensures run.Busy? && run.to == old(run.to)
      ensures ok ==> run.phase == ChangePrimary && AllDone(run.procs)
      ensures ok && Calm() && old(Converging(Now())) ==> Converging(Now())
      ensures faults >= old(faults) && (!ok ==> faults > old(faults))
    {
      ok := FanOut();
      while ok && run.phase != ChangePrimary
        invariant Valid() && |servers| == old(|servers|) && old(events) <= events
        invariant run.Busy? && run.phase != Sweep && run.to == old(run.to) && (ok ==> AllDone(run.procs))
        invariant ok && Calm() && old(Converging(Now())) ==> Converging(Now())
        invariant faults >= old(faults) && (!ok ==> faults > old(faults))
        decreases ok, Rank(run.phase)
      {
        ok := RunNextPhase();
      }
    }

    method RunNextPhase() returns (ok: bool)
      requires Valid() && run.Busy? && run.phase != Sweep && run.phase != ChangePrimary && AllDone(run.procs)
      modifies this`servers, this`spec, this`committed, this`run, this`events, this`faults
      ensures Valid() && |servers| == old(|servers|) && old(events) <= events
      ensures run.Busy? && run.phase == Successor(old(run.phase)) && run.to == old(run.to)
      ensures ok ==> AllDone(run.procs)
      ensures ok && Calm() && old(Converging(Now())) ==> Converging(Now())
      ensures faults >= old(faults) && (!ok ==> faults > old(faults))
    {
      EnterNextPhase();
      ok := FanOut();
    }

    // Any observation, with any iteration orders of the variable maps.
    method Observe(phase: Phase, to: nat) returns (obs: Obs)
      ensures ValidObs(Now(), phase, to, obs)
    {
      obs := *;
      if !ValidObs(Now(), phase, to, obs) {
        obs := Sight(Now(), phase, to, obs.ready, obs.scanned);
      }
    }

    method EnterNextPhase()
      requires Valid() && run.Busy? && run.phase != Sweep && run.phase != ChangePrimary && AllDone(run.procs)
      modifies this`run, this`events
      ensures Valid() && old(events) <= events
      ensures run.Busy? && run.to == old(run.to) && run.phase == Successor(old(run.phase)) && NoneDoomed(run.procs)
      ensures Calm() && old(Converging(Now())) ==> Converging(Now())
    {
      var s := Now();
      var phase := Successor(run.phase);
      var obs := Observe(phase, run.to);
      run := Enter(s, phase, run.to, {}, obs);
      Record(s, NextPhase(phase, obs));
    }

    // The condition is set together with the snapshot of the target the attempt works from.
    method Begin()
      requires Valid() && run.Idle? && spec.replication && spec.target != current
      modifies this`switching, this`run, this`events
      ensures Valid() && old(events) <= events
      ensures switching && run.Busy? && run.phase == LockPrimary && run.to == spec.target && Converging(Now())
      ensures NoneDoomed(run.procs)
    {
      var s := Now();
      var obs := Observe(LockPrimary, spec.target);
      switching := true;
      run := Enter(s, LockPrimary, spec.target, {}, obs);
      Record(s, Start(obs));
    }

    // The condition is cleared together with the recording of the new primary.
    method Complete()
      requires Valid() && run.Busy? && run.phase == ChangePrimary && AllDone(run.procs)
      modifies this`current, this`switching, this`run, this`events
      ensures Valid() && run.Idle? && old(events) <= events
      ensures current == old(run.to) && !switching
      ensures Calm() && old(Converging(Now())) ==> Arranged(servers, current)
    {
      var s := Now();
      current, switching, run := run.to, false, Idle;
      Record(s, Finish);
      if Calm() && Converging(s) {
        FinishedTopology(s);
        TopologyIsArranged(servers, current);
      }
    }

    // A resource behind MaxScale, one that is neither configured nor switching, and one whose target is the
    // current primary are left alone. Otherwise a call that succeeds ends the switchover: the target is
    // recorded, the condition is cleared and the servers have the topology of the target. A call that
    // fails, which takes a failed call or a timeout, leaves the recorded primary alone.
    method ReconcileSwitchover(maxScale: bool, configured: bool) returns (ok: bool)
      requires Valid() && run.Idle? && spec.replication
      modifies this
      ensures Valid() && run.Idle? && old(events) <= events && |servers| == old(|servers|)
      ensures (forall e | e in events :: Fencing(e)) ==> SingleWriter(Now())
      ensures (forall e | e in events :: Planned(e)) ==> NothingLost(Now())
      ensures maxScale || (!configured && !old(switching)) || old(spec.target) == old(current) ==>
                ok && Now() == old(Now()) && events == old(events)
      ensures !maxScale && (configured || old(switching)) && old(spec.target) != old(current) ==>
                if ok then current == old(spec.target) && !switching && (Calm() ==> Arranged(servers, current))
                else current == old(current) && (old(switching) ==> switching) && faults > old(faults)
    {
      ok := Attempt(maxScale, configured);
      if forall e | e in events :: Fencing(e) {
        FencingRunsHaveOneWriter(origin, events);
      }
      if forall e | e in events :: Planned(e) {
        PlannedRunsAreSafe(origin, events);
      }
    }

    method Attempt(maxScale: bool, configured: bool) returns (ok: bool)
      requires Valid() && run.Idle? && spec.replication
      modifies this
      ensures Valid() && run.Idle? && old(events) <= events && |servers| == old(|servers|) && origin == old(origin)
      ensures maxScale || (!configured && !old(switching)) || old(spec.target) == old(current) ==>
                ok && Now() == old(Now()) && events == old(events)
      ensures !maxScale && (configured || old(switching)) && old(spec.target) != old(current) ==>
                if ok then current == old(spec.target) && !switching && (Calm() ==> Arranged(servers, current))
                else current == old(current) && (old(switching) ==> switching) && faults > old(faults)
    {
      ok := true;
      if maxScale || (!configured && !switching) || spec.target == current { return; }
      ok := false;
      var failed := Fails();
      if failed { return; }
      Begin();
      ok := RunPhases();
    }

    // The phases and, after them, the last patch.
    method RunPhases() returns (ok: bool)
      requires Valid() && run.Busy? && run.phase == LockPrimary && NoneDoomed(run.procs) && Converging(Now())
      modifies this
      ensures Valid() && run.Idle? && old(events) <= events && |servers| == old(|servers|) && origin == old(origin)
      ensures if ok then current == old(run.to) && !switching && (Calm() ==> Arranged(servers, current))
              else current == old(current) && switching == old(switching) && faults > old(faults)
    {
      ok := Phases();
      if !ok { End(); return; }
      var failed := Fails();
      if failed { End(); return false; }
      Complete();
    }
  }

  predicate NoneDoomed(procs: seq<Proc>) {
    forall i | 0 <= i < |procs| :: !procs[i].doomed
  }

  function Rank(phase: Phase): nat {
    match phase
    case Sweep => 7
    case LockPrimary => 6
    case SetReadOnly => 5
    case WaitSync => 4
    case ConfigureNew => 3
    case ConnectReplicas => 2
    case ChangePrimary => 1
  }

  function Remaining(procs: seq<Proc>): nat {
    if procs == [] then 0 else |procs[0].rest| + Remaining(procs[1..])
  }

  lemma {:induction false} RemainingDrops(a: seq<Proc>, b: seq<Proc>, i: nat)
    requires |a| == |b| && i < |a| && |b[i].rest| < |a[i].rest|
    requires forall j | 0 <= j < |a| && j != i :: a[j] == b[j]
    ensures Remaining(b) < Remaining(a)
    decreases |a|
  {
    if i == 0 {
      assert a[1..] == b[1..];
    } else {
      assert a[0] == b[0];
      forall j | 0 <= j < |a| - 1 && j != i - 1 ensures a[1..][j] == b[1..][j] {
        assert a[j + 1] == b[j + 1];
      }
      RemainingDrops(a[1..], b[1..], i - 1);
    }
  }

  lemma CalmNext(origin: State, es: seq<Event>, e: Event)
    requires Configured(origin) && Legal(origin, es) && Enabled(After(origin, es), e) && CalmAll(es + [e])
    ensures Staged(After(origin, es))
    ensures Converging(After(origin, es)) && InAttempt(e) ==> Converging(Next(After(origin, es), e))
  {
    assert e in es + [e] && forall d | d in es :: d in es + [e];
    LockAfter(origin, es);
    if Converging(After(origin, es)) && InAttempt(e) {
      ConvergingNext(After(origin, es), e);
    }
  }

  lemma ConvergingNext(s: State, e: Event)
    requires Staged(s) && LockOk(s) && Converging(s) && Enabled(s, e) && Lasting(e) && Unlocking(e)
    requires !e.SkipPod? && !e.Stray? && InAttempt(e)
    ensures Converging(Next(s, e))
  {
    match e
    case Step(i) => ConvergingStep(s, i);
    case NextPhase(phase, obs) => ConvergingNextPhase(s, phase, obs);
    case Timeout(i) =>
      assert ProcOk(s.run.phase, i == s.current, i == s.spec.target, s.run.procs[i]);
      assert Allowed(s.run.phase, i == s.current, i == s.spec.target, s.run.procs[i].rest[0]);
    case _ => ConvergingEnv(s, e);
  }
}
