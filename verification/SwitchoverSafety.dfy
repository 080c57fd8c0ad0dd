/** What every run of the switchover protocol keeps, and what a complete attempt achieves. */
module SwitchoverSafety {
  import opened Optional
  import opened Replication
  import opened Switchover

  // ---- Runs can be extended ----

  lemma {:induction false} Extend(s: State, es: seq<Event>, e: Event)
    requires WellFormed(s) && Legal(s, es) && Enabled(After(s, es), e)
    ensures Legal(s, es + [e]) && After(s, es + [e]) == Next(After(s, es), e)
    decreases |es|
  {
    if es == [] {
      assert [e][1..] == [] && es + [e] == [e];
      assert Legal(Next(s, e), []);
    } else {
      Extend(Next(s, es[0]), es[1..], e);
      assert (es + [e])[1..] == es[1..] + [e];
    }
  }

  // ---- Safety over whole runs ----

  // From a configured cluster, through any number of switchovers that stop at any command and start
  // over: at most one server accepts writes, as long as replication is not disabled during a switchover
  // and the old primary is seen Ready whenever it is to be made read-only, whatever else is observed.
  lemma FencingRunsHaveOneWriter(s: State, es: seq<Event>)
    requires Configured(s) && Legal(s, es) && forall e | e in es :: Fencing(e)
    ensures SingleWriter(After(s, es))
  {
    FencedAfter(s, es);
  }

  // If it is also seen Ready and scanned whenever it is to be waited for, the server that accepts writes
  // holds every write ever accepted. Some server holds them all even while none accepts writes.
  lemma PlannedRunsAreSafe(s: State, es: seq<Event>)
    requires Configured(s) && Legal(s, es) && forall e | e in es :: Planned(e)
    ensures SingleWriter(After(s, es)) && NothingLost(After(s, es))
    ensures exists i | 0 <= i < |After(s, es).servers| :: After(s, es).servers[i].log == After(s, es).committed
  {
    GoodAfter(s, es);
    var t := After(s, es);
    assert t.servers[Authority(t)].log == t.committed;
  }

  // Until it finishes, a switchover keeps the recorded primary, the target and its condition.
  lemma {:induction false} UnfinishedKeepsStatus(s: State, es: seq<Event>)
    requires WellFormed(s) && s.spec.replication && s.switching
    requires Legal(s, es) && forall e | e in es :: Lasting(e) && e != Finish
    ensures
      var t := After(s, es);
      t.switching && t.current == s.current && t.spec.replication && t.spec.target == s.spec.target
    decreases |es|
  {
    if es != [] {
      assert es[0] in es;
      UnfinishedKeepsStatus(Next(s, es[0]), es[1..]);
    }
  }

  // ---- Convergence ----

  function Topology(n: nat, primary: nat): seq<Config> {
    seq(n, i requires 0 <= i < n => if i == primary then PrimaryConfig(i) else ReplicaConfig(i, primary))
  }

  function Configs(servers: seq<Server>): seq<Config> {
    seq(|servers|, i requires 0 <= i < |servers| => ConfigOf(servers[i]))
  }

  // An event of an attempt in which nothing fails, no replica is passed over, and the old primary is
  // Ready when it is to be unlocked.
  predicate Smooth(e: Event) {
    match e
    case Write(_, _) => true
    case Replicate(_, _) => true
    case Update(_, _) => Lasting(e)
    case NextPhase(_, _) => Unlocking(e)
    case Step(_) => true
    case _ => false
  }

  // Running what is left of its script brings server i to its place under primary t.
  ghost predicate Heading(s: State, i: nat, goal: Config)
    requires WellFormed(s) && s.run.Busy? && i < |s.servers|
  {
    ConfigOf(ExecAll(s.run.procs[i].rest, s.servers[i])) == goal
  }

  ghost predicate Converging(s: State)
    requires WellFormed(s)
  {
    && s.run.Busy? && s.run.phase != Sweep
    && (s.run.phase in {ConfigureNew, ConnectReplicas, ChangePrimary} ==>
          Heading(s, s.run.to, PrimaryConfig(s.run.to)))
    && (s.run.phase in {ConnectReplicas, ChangePrimary} ==>
          forall i | 0 <= i < |s.servers| && i != s.current && i != s.run.to ::
            Heading(s, i, ReplicaConfig(i, s.run.to)))
    && (s.run.phase == ChangePrimary ==> Heading(s, s.current, ReplicaConfig(s.current, s.run.to)))
  }

  // A command's effect on the settings alone.
  function OnConfig(c: Command, k: Config): Config {
    match c
    case LockTables => k.(locked := true)
    case UnlockTables => k.(locked := false)
    case EnableReadOnly => k.(readOnly := true)
    case DisableReadOnly => k.(readOnly := false)
    case StopAllSlaves => k.(slaveRunning := false)
    case ResetAllSlaves => k.(master := None, slaveRunning := false)
    case StartSlave => k.(slaveRunning := k.master.Some?)
    case ChangeMaster(host) => k.(master := Some(host))
    case Set(SemiMaster(on)) => k.(semiMaster := on)
    case Set(SemiSlave(on)) => k.(semiSlave := on)
    case Set(ServerId(id)) => k.(serverId := id)
    case _ => k
  }

  lemma ExecSetConfig(setting: Setting, x: Server)
    ensures ConfigOf(Exec(Set(setting), x)) == OnConfig(Set(setting), ConfigOf(x))
  {
  }

  lemma ExecLockConfig(c: Command, x: Server)
    requires c.LockTables? || c.UnlockTables? || c.EnableReadOnly? || c.DisableReadOnly?
    ensures ConfigOf(Exec(c, x)) == OnConfig(c, ConfigOf(x))
  {
  }

  lemma ExecSlaveConfig(c: Command, x: Server)
    requires !c.Set? && !c.LockTables? && !c.UnlockTables? && !c.EnableReadOnly? && !c.DisableReadOnly?
    ensures ConfigOf(Exec(c, x)) == OnConfig(c, ConfigOf(x))
  {
  }

  lemma ExecConfig(c: Command, x: Server)
    ensures ConfigOf(Exec(c, x)) == OnConfig(c, ConfigOf(x))
  {
    if c.Set? {
      ExecSetConfig(c.setting, x);
    } else if c.LockTables? || c.UnlockTables? || c.EnableReadOnly? || c.DisableReadOnly? {
      ExecLockConfig(c, x);
    } else {
      ExecSlaveConfig(c, x);
    }
  }

  // The settings a script leads to do not depend on the data.
  lemma {:induction false} ConfigIsDataFree(cs: seq<Command>, x: Server, y: Server)
    requires ConfigOf(x) == ConfigOf(y)
    ensures ConfigOf(ExecAll(cs, x)) == ConfigOf(ExecAll(cs, y))
    decreases |cs|
  {
    if cs != [] {
      ExecConfig(cs[0], x);
      ExecConfig(cs[0], y);
      ConfigIsDataFree(cs[1..], Exec(cs[0], x), Exec(cs[0], y));
    }
  }

  lemma ConvergingEnv(s: State, e: Event)
    requires Staged(s) && Converging(s) && Enabled(s, e) && (e.Write? || e.Replicate? || e.Update?)
    ensures Converging(Next(s, e))
  {
    var t := Next(s, e);
    forall i: nat, goal | i < |s.servers| && Heading(s, i, goal) ensures Heading(t, i, goal) {
      ConfigIsDataFree(s.run.procs[i].rest, s.servers[i], t.servers[i]);
    }
  }

  lemma ConvergingStep(s: State, i: nat)
    requires Staged(s) && Converging(s) && Enabled(s, Step(i))
    ensures Converging(Next(s, Step(i)))
  {
    var t := Next(s, Step(i));
    forall j: nat, goal | j < |s.servers| && Heading(s, j, goal) ensures Heading(t, j, goal) {
    }
  }

  // The old primary's last script: from any state, locked or not, to a replica of the new one.
  lemma UnlockedReplica(index: nat, primary: nat, order: seq<Setting>, s: Server)
    requires IsOrder(order, ReplicaSettings(index))
    ensures ConfigOf(ExecAll([UnlockTables] + ReplicaScript(primary, true, order), s)) == ReplicaConfig(index, primary)
  {
    ExecAllConcat([UnlockTables], ReplicaScript(primary, true, order), s);
    ExecTwo(UnlockTables, UnlockTables, s);
    ReplicaScriptConfigures(index, primary, true, order, Exec(UnlockTables, s));
  }

  lemma ConvergingNextPhase(s: State, phase: Phase, obs: Obs)
    requires Staged(s) && LockOk(s) && Converging(s) && Enabled(s, NextPhase(phase, obs))
    requires Unlocking(NextPhase(phase, obs))
    ensures Converging(Next(s, NextPhase(phase, obs)))
  {
    var t := Next(s, NextPhase(phase, obs));
    forall i: nat, goal | i < |s.servers| && Heading(s, i, goal) && t.run.procs[i].rest == []
      ensures Heading(t, i, goal)
    {
      assert s.run.procs[i] == DONE;
    }
    if t.run.phase == ConfigureNew {
      PrimaryScriptConfigures(t.run.to, obs.orders[t.run.to], t.servers[t.run.to]);
    } else if t.run.phase == ConnectReplicas {
      forall i | 0 <= i < |s.servers| && i != s.current && i != t.run.to
        ensures Heading(t, i, ReplicaConfig(i, t.run.to))
      {
        ReplicaScriptConfigures(i, t.run.to, true, obs.orders[i], t.servers[i]);
      }
    } else if t.run.phase == ChangePrimary {
      UnlockedReplica(t.current, t.run.to, obs.orders[t.current], t.servers[t.current]);
    }
  }

  lemma FinishedTopology(s: State)
    requires Staged(s) && Converging(s) && Enabled(s, Finish)
    ensures Configs(s.servers) == Topology(|s.servers|, s.run.to)
  {
    forall i | 0 <= i < |s.servers| ensures Configs(s.servers)[i] == Topology(|s.servers|, s.run.to)[i] {
      assert s.run.procs[i] == DONE;
      assert ConfigOf(ExecAll([], s.servers[i])) == Configs(s.servers)[i];
      if i != s.current && i != s.run.to {
        assert Heading(s, i, ReplicaConfig(i, s.run.to));
      }
    }
  }

  lemma {:induction false} ConvergesFrom(s: State, es: seq<Event>)
    requires Staged(s) && LockOk(s) && Converging(s) && Legal(s, es + [Finish]) && forall e | e in es :: Smooth(e)
    ensures
      var t := After(s, es + [Finish]);
      && t.current == s.run.to && !t.switching
      && Configs(t.servers) == Topology(|s.servers|, s.run.to)
    decreases |es|
  {
    if es == [] {
      assert es + [Finish] == [Finish];
      assert After(s, [Finish]) == After(Next(s, Finish), []);
      FinishedTopology(s);
    } else {
      var e := es[0];
      assert e in es && (es + [Finish])[1..] == es[1..] + [Finish];
      StagedNext(s, e);
      LockNext(s, e);
      if e.NextPhase? {
        ConvergingNextPhase(s, e.phase, e.obs);
      } else if e.Step? {
        ConvergingStep(s, e.i);
      } else {
        ConvergingEnv(s, e);
      }
      ConvergesFrom(Next(s, e), es[1..]);
    }
  }

  // Whatever earlier attempts left behind, an attempt that runs to its end leaves the topology of its
  // target and of nothing else: the target the one writable semi-sync master, replicating from nobody;
  // every other server an unlocked read-only semi-sync slave of it, with server ids apart.
  lemma CrashConvergence(s: State, before: seq<Event>, obs: Obs, es: seq<Event>)
    requires Configured(s) && Legal(s, before) && forall e | e in before :: Lasting(e) && Unlocking(e)
    requires Legal(After(s, before), [Start(obs)] + (es + [Finish]))
    requires forall e | e in es :: Smooth(e)
    ensures
      var left := After(s, before);
      var t := After(left, [Start(obs)] + (es + [Finish]));
      && t.current == left.spec.target && !t.switching
      && Configs(t.servers) == Topology(|s.servers|, left.spec.target)
      && Arranged(t.servers, left.spec.target)
  {
    LockAfter(s, before);
    var left := After(s, before);
    var attempt := [Start(obs)] + (es + [Finish]);
    assert attempt[0] == Start(obs) && attempt[1..] == es + [Finish];
    StagedNext(left, Start(obs));
    LockNext(left, Start(obs));
    ConvergesFrom(Next(left, Start(obs)), es);
    TopologyIsArranged(After(left, attempt).servers, left.spec.target);
  }

  // ---- What a topology means ----

  // One primary that takes writes and replicates from nobody; all others its read-only replicas.
  ghost predicate Arranged(servers: seq<Server>, primary: nat) {
    && primary < |servers|
    && (forall i | 0 <= i < |servers| ::
          var x := servers[i];
          && !x.locked && x.serverId == 10 + i
          && if i == primary then !x.readOnly && x.semiMaster && !x.semiSlave && x.master == None && !x.slaveRunning
             else x.readOnly && !x.semiMaster && x.semiSlave && x.master == Some(primary) && x.slaveRunning)
    && (forall i, j | 0 <= i < j < |servers| :: servers[i].serverId != servers[j].serverId)
  }

  lemma TopologyIsArranged(servers: seq<Server>, primary: nat)
    requires primary < |servers| && Configs(servers) == Topology(|servers|, primary)
    ensures Arranged(servers, primary)
  {
    forall i | 0 <= i < |servers|
      ensures ConfigOf(servers[i]) == if i == primary then PrimaryConfig(i) else ReplicaConfig(i, primary)
    {
      assert Configs(servers)[i] == Topology(|servers|, primary)[i];
    }
  }

  // ---- What a wait leaves behind ----

  // What happens while the goroutines of a phase run.
  predicate Quiet(e: Event) {
    e.Write? || e.Replicate? || e.Update? || e.Step? || e.Timeout?
  }

  // Server i gets no transaction of its own or from its source.
  predicate Untouched(es: seq<Event>, i: nat) {
    forall e | e in es && (e.Write? || e.Replicate?) :: e.i != i
  }

  // What is left of its script brings server i, as long as it is untouched, where the whole would have.
  lemma {:induction false} RestLeadsOn(s: State, es: seq<Event>, i: nat)
    requires WellFormed(s) && s.run.Busy? && i < |s.servers| && Legal(s, es) && forall e | e in es :: Quiet(e)
    ensures
      var t := After(s, es);
      && t.run.Busy? && |t.run.procs| == |t.servers| == |s.servers|
      && (Untouched(es, i) ==> ExecAll(t.run.procs[i].rest, t.servers[i]) == ExecAll(s.run.procs[i].rest, s.servers[i]))
    decreases |es|
  {
    if es != [] {
      assert es[0] in es;
      RestLeadsOn(Next(s, es[0]), es[1..], i);
    }
  }

  // Its settings it brings there even if transactions come in.
  lemma RestLeadsToConfigNext(s: State, e: Event, i: nat)
    requires WellFormed(s) && s.run.Busy? && i < |s.servers| && Enabled(s, e) && Quiet(e)
    ensures
      var t := Next(s, e);
      && t.run.Busy? && |t.run.procs| == |t.servers| == |s.servers| && s.servers[i].log <= t.servers[i].log
      && ConfigOf(ExecAll(t.run.procs[i].rest, t.servers[i])) == ConfigOf(ExecAll(s.run.procs[i].rest, s.servers[i]))
  {
    if e.Step? {
      ExecSwitches(s.run.procs[e.i].rest[0], s.servers[e.i]);
    } else if !e.Timeout? {
      ConfigIsDataFree(s.run.procs[i].rest, s.servers[i], Next(s, e).servers[i]);
    }
  }

  lemma {:induction false} RestLeadsToConfig(s: State, es: seq<Event>, i: nat)
    requires WellFormed(s) && s.run.Busy? && i < |s.servers| && Legal(s, es) && forall e | e in es :: Quiet(e)
    ensures
      var t := After(s, es);
      && t.run.Busy? && |t.run.procs| == |t.servers| == |s.servers| && s.servers[i].log <= t.servers[i].log
      && ConfigOf(ExecAll(t.run.procs[i].rest, t.servers[i])) == ConfigOf(ExecAll(s.run.procs[i].rest, s.servers[i]))
    decreases |es|
  {
    if es != [] {
      assert es[0] in es;
      RestLeadsToConfigNext(s, es[0], i);
      RestLeadsToConfig(Next(s, es[0]), es[1..], i);
    }
  }

  // What a phase, once its goroutine at server i is through, has made of an untouched server: x was the server
  // before, y is it now.
  predicate Effect(phase: Phase, isCurrent: bool, isTarget: bool, ready: bool, to: nat, i: nat, x: Server, y: Server) {
    match phase
    case Sweep => true
    case LockPrimary => y == if isCurrent && ready then x.(locked := true) else x
    case SetReadOnly => y == if isCurrent && ready then x.(readOnly := true) else x
    case WaitSync => y == if !isCurrent && ready then x.(slavePos := 0, slaveRunning := x.master.Some?) else x
    case ConfigureNew =>
      if !isTarget then y == x
      else
        && !y.readOnly && y.locked == x.locked && y.semiMaster && !y.semiSlave && y.serverId == 10 + i
        && y.master == None && !y.slaveRunning && y.slavePos == 0 && y.accounts && y.log == x.log && y.binlog == x.binlog
    case ConnectReplicas =>
      if isCurrent || isTarget then y == x else y.locked == x.locked && Reconnected(to, i, x, y)
    case ChangePrimary => if isCurrent && ready then !y.locked && Reconnected(to, i, x, y) else y == x
  }

  predicate Reconnected(to: nat, i: nat, x: Server, y: Server) {
    && y.readOnly && !y.semiMaster && y.semiSlave && y.serverId == 10 + i && y.master == Some(to) && y.slaveRunning
    && y.slavePos == 0 && y.accounts == x.accounts && y.log == x.log && y.binlog == 0
  }

  lemma ReconnectHasEffect(to: nat, i: nat, order: seq<Setting>, x: Server)
    requires IsOrder(order, ReplicaSettings(i))
    ensures
      var y := ExecAll(ReplicaScript(to, true, order), x);
      Reconnected(to, i, x, y) && y.locked == x.locked
  {
    ReplicaScriptEffect(i, to, order, x);
  }

  lemma RejoinHasEffect(to: nat, i: nat, order: seq<Setting>, x: Server)
    requires IsOrder(order, ReplicaSettings(i))
    ensures
      var y := ExecAll([UnlockTables] + ReplicaScript(to, true, order), x);
      Reconnected(to, i, x, y) && !y.locked
  {
    ExecAllConcat([UnlockTables], ReplicaScript(to, true, order), x);
    ExecOne(UnlockTables, x);
    ReconnectHasEffect(to, i, order, x.(locked := false));
  }

  lemma ExecOne(c: Command, x: Server)
    ensures ExecAll([c], x) == Exec(c, x)
  {
    assert [c][1..] == [];
  }

  lemma ConfigureHasEffect(s: State, phase: Phase, to: nat, obs: Obs, i: nat)
    requires s.current < |s.servers| && to < |s.servers| && to != s.current && i < |s.servers|
    requires ValidObs(s, phase, to, obs) && (phase == ConfigureNew || phase == ConnectReplicas || phase == ChangePrimary)
    ensures Effect(phase, i == s.current, i == to, obs.ready, to, i, s.servers[i],
                   ExecAll(Work(s, phase, to, {}, obs, i), s.servers[i]))
  {
    var x := s.servers[i];
    if phase == ConfigureNew && i == to {
      PrimaryScriptEffect(i, obs.orders[i], x);
    } else if phase == ConnectReplicas && i != s.current && i != to {
      ReconnectHasEffect(to, i, obs.orders[i], x);
    } else if phase == ChangePrimary && i == s.current {
      RejoinHasEffect(to, i, obs.orders[i], x);
    }
  }

  lemma WorkHasEffect(s: State, phase: Phase, to: nat, obs: Obs, i: nat)
    requires s.current < |s.servers| && to < |s.servers| && to != s.current && i < |s.servers| && phase != Sweep
    requires ValidObs(s, phase, to, obs)
    ensures Effect(phase, i == s.current, i == to, obs.ready, to, i, s.servers[i],
                   ExecAll(Work(s, phase, to, {}, obs, i), s.servers[i]))
  {
    var x := s.servers[i];
    match phase
    case LockPrimary => ExecOne(LockTables, x);
    case SetReadOnly => ExecOne(EnableReadOnly, x);
    case WaitSync => SyncScriptRestarts(ReadGtid(s, obs), x);
    case _ => ConfigureHasEffect(s, phase, to, obs, i);
  }

  // From every state and through every interleaving: a phase that is entered, the first when an attempt
  // starts, has its effect on every untouched server whose goroutine is through, and no other.
  lemma PhaseHasEffect(s: State, e: Event, es: seq<Event>, i: nat)
    requires WellFormed(s) && (e.Start? || e.NextPhase?) && Enabled(s, e) && (e.NextPhase? ==> s.run.to != s.current)
    requires Legal(Next(s, e), es) && forall x | x in es :: Quiet(x)
    requires i < |s.servers| && Untouched(es, i)
    ensures
      var t := After(Next(s, e), es);
      var phase := if e.Start? then LockPrimary else e.phase;
      var to := if e.Start? then s.spec.target else s.run.to;
      && t.run.Busy? && |t.run.procs| == |t.servers| == |s.servers|
      && (t.run.procs[i].rest == [] ==>
            Effect(phase, i == s.current, i == to, e.obs.ready, to, i, s.servers[i], t.servers[i]))
  {
    if e.Start? {
      WorkHasEffect(s, LockPrimary, s.spec.target, e.obs, i);
    } else {
      WorkHasEffect(s, e.phase, s.run.to, e.obs, i);
    }
    RestLeadsOn(Next(s, e), es, i);
  }

  // From every state in which the replicas are waited for: once all goroutines are through, timed out or
  // not, with writes, replication and updates in between, every server but the old primary has its settings
  // back and replicates from the source it had. What it held it still holds, and unless transactions came
  // in meanwhile nothing but the position replicated so far has changed.
  lemma WaitRestartsReplication(s: State, obs: Obs, es: seq<Event>, i: nat)
    requires WellFormed(s) && Enabled(s, NextPhase(WaitSync, obs)) && obs.ready
    requires Legal(Next(s, NextPhase(WaitSync, obs)), es) && forall e | e in es :: Quiet(e)
    requires i < |s.servers| && i != s.current
    ensures
      var t := After(Next(s, NextPhase(WaitSync, obs)), es);
      && t.run.Busy? && |t.run.procs| == |t.servers| == |s.servers|
      && (t.run.procs[i].rest == [] ==>
            && ConfigOf(t.servers[i]) == ConfigOf(s.servers[i]).(slaveRunning := s.servers[i].master.Some?)
            && s.servers[i].log <= t.servers[i].log
            && (Untouched(es, i) ==>
                  && t.servers[i].log == s.servers[i].log && t.servers[i].binlog == s.servers[i].binlog
                  && t.servers[i].slavePos == 0 && t.servers[i].accounts == s.servers[i].accounts))
  {
    var m := Next(s, NextPhase(WaitSync, obs));
    SyncScriptRestarts(ReadGtid(s, obs), s.servers[i]);
    assert m.run.procs[i].rest == SyncScript(ReadGtid(s, obs));
    RestLeadsOn(m, es, i);
    RestLeadsToConfig(m, es, i);
  }

  // ---- Where the promises end ----

  // The webhook freezes the target exactly while a switchover runs on a resource that has replication
  // enabled, and then also refuses to enable automatic failover, but not to disable it. Once an update has
  // disabled replication, the next one may move the target.
  lemma FreezeIsExact(old_: Spec, switching: bool, replicas: nat)
    requires replicas > 1 && ValidHA(old_, replicas) && ValidTarget(old_, replicas)
    ensures
      (forall new_: Spec :: Admitted(old_, new_, switching, replicas) ==> new_.target == old_.target) <==>
      (old_.replication && switching)
    ensures
      (forall new_: Spec :: Admitted(old_, new_, switching, replicas) ==> !new_.automaticFailover) <==>
      (old_.replication && switching && !old_.automaticFailover)
    ensures Admitted(old_, old_.(automaticFailover := false), switching, replicas)
  {
    var moved := old_.(target := if old_.target == 0 then 1 else 0);
    var enabled := old_.(automaticFailover := true);
    assert !(old_.replication && switching) ==> Admitted(old_, moved, switching, replicas);
    assert !(old_.replication && switching && !old_.automaticFailover) ==> Admitted(old_, enabled, switching, replicas);
  }
}
