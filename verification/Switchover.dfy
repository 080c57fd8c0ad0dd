/** The primary switchover protocol as a system of events over all servers.

    One event is one SQL command, one controller decision, one accepted update of the resource, one
    client write or one replicated transaction. A reconcile that stops leaves every server as it is,
    and the next one starts over at the first phase. The reconcile reads the resource once, when it
    starts.
 */
module Switchover {
  import opened Replication

  // Sweep is the configuration pass outside of a switchover; the other six are the switchover's own.
  datatype Phase =
    | Sweep
    | LockPrimary
    | SetReadOnly
    | WaitSync
    | ConfigureNew
    | ConnectReplicas
    | ChangePrimary

  // What one goroutine (or the reconcile itself) still has to run on one server. A doomed one has
  // timed out: it finishes its commands and then reports an error.
  datatype Proc = Proc(rest: seq<Command>, doomed: bool)

  const DONE := Proc([], false)

  datatype Run = Idle | Busy(phase: Phase, to: nat, procs: seq<Proc>)

  // The part of the resource's spec the switchover depends on.
  datatype Spec = Spec(replication: bool, galera: bool, target: int, automaticFailover: bool)

  datatype State = State(
    servers: seq<Server>,
    spec: Spec,
    current: nat,           // status.currentPrimaryPodIndex
    switching: bool,        // the PrimarySwitched condition is False
    run: Run,
    committed: seq<nat>     // every client write ever accepted, in order
  )

  // What the reconcile observes when it enters a phase: whether the old primary's Pod is Ready,
  // whether the row holding gtid_binlog_pos could be scanned, and the iteration orders of the
  // variable maps.
  datatype Obs = Obs(ready: bool, scanned: bool, orders: seq<seq<Setting>>)

  datatype Event =
    | Write(i: nat, txn: nat)
    | Replicate(i: nat, logged: bool)
    | Update(spec: Spec, during: bool)    // during a switchover, that is, while its condition is set
    | StartSweep(chosen: set<nat>, obs: Obs)
    | Start(obs: Obs)
    | NextPhase(phase: Phase, obs: Obs)
    | Step(i: nat)
    | Timeout(i: nat)
    | SkipPod(i: nat)
    | Finish
    | Stop(unlock: bool)    // the reconcile returns: a command failed, a patch failed, a sweep ended
    | Stray(i: nat, cmd: Command)   // a goroutine leaked by a stopped reconcile runs a command

  // ---- Admission ----

  // validateHA with more than one replica or with one.
  predicate ValidHA(spec: Spec, replicas: nat) {
    && !(spec.replication && spec.galera)
    && (replicas > 1 ==> spec.replication || spec.galera)
    && (replicas <= 1 ==> !spec.replication && !spec.galera)
  }

  // validateReplication, the bounds of the target index.
  predicate ValidTarget(spec: Spec, replicas: nat) {
    spec.replication ==> 0 <= spec.target < replicas
  }

  // validatePrimarySwitchover.
  predicate ValidPrimarySwitchover(old_: Spec, new_: Spec, switching: bool) {
    old_.replication && switching ==>
      && new_.target == old_.target
      && (new_.automaticFailover != old_.automaticFailover ==> !new_.automaticFailover)
  }

  predicate Admitted(old_: Spec, new_: Spec, switching: bool, replicas: nat) {
    ValidHA(new_, replicas) && ValidTarget(new_, replicas) && ValidPrimarySwitchover(old_, new_, switching)
  }

  // ---- Work handed out on entering a phase ----

  predicate AsPrimary(s: State, phase: Phase, to: nat, i: nat) {
    (phase == ConfigureNew && i == to) || (phase == Sweep && i == s.current)
  }

  predicate ValidObs(s: State, phase: Phase, to: nat, obs: Obs) {
    && |obs.orders| == |s.servers|
    && forall i: nat | i < |obs.orders| ::
         IsOrder(obs.orders[i], if AsPrimary(s, phase, to, i) then PrimarySettings(i) else ReplicaSettings(i))
  }

  // One possible observation.
  function Sight(s: State, phase: Phase, to: nat, ready: bool, scanned: bool): (obs: Obs)
    ensures ValidObs(s, phase, to, obs)
  {
    Obs(ready, scanned, seq(|s.servers|, i requires 0 <= i < |s.servers| =>
      if AsPrimary(s, phase, to, i) then PrimarySettings(i) else ReplicaSettings(i)))
  }

  function ReadGtid(s: State, obs: Obs): nat
    requires s.current < |s.servers|
  {
    if obs.scanned then s.servers[s.current].binlog else 0
  }

  function Work(s: State, phase: Phase, to: nat, chosen: set<nat>, obs: Obs, i: nat): seq<Command>
    requires s.current < |s.servers| && |obs.orders| == |s.servers| && i < |s.servers|
  {
    match phase
    case Sweep =>
      if i !in chosen then []
      else if i == s.current then PrimaryScript(obs.orders[i])
      else ReplicaScript(s.current, false, obs.orders[i])
    case LockPrimary => if i == s.current && obs.ready then [LockTables] else []
    case SetReadOnly => if i == s.current && obs.ready then [EnableReadOnly] else []
    case WaitSync => if i != s.current && obs.ready then SyncScript(ReadGtid(s, obs)) else []
    case ConfigureNew => if i == to then PrimaryScript(obs.orders[i]) else []
    case ConnectReplicas => if i != s.current && i != to then ReplicaScript(to, true, obs.orders[i]) else []
    case ChangePrimary =>
      if i == s.current && obs.ready then [UnlockTables] + ReplicaScript(to, true, obs.orders[i]) else []
  }

  function Enter(s: State, phase: Phase, to: nat, chosen: set<nat>, obs: Obs): (r: Run)
    requires s.current < |s.servers| && |obs.orders| == |s.servers|
  {
    Busy(phase, to, seq(|s.servers|, i requires 0 <= i < |s.servers| => Proc(Work(s, phase, to, chosen, obs, i), false)))
  }

  function Successor(phase: Phase): Phase
    requires phase != Sweep && phase != ChangePrimary
  {
    match phase
    case LockPrimary => SetReadOnly
    case SetReadOnly => WaitSync
    case WaitSync => ConfigureNew
    case ConfigureNew => ConnectReplicas
    case ConnectReplicas => ChangePrimary
  }

  predicate AllDone(procs: seq<Proc>) {
    forall i | 0 <= i < |procs| :: procs[i] == DONE
  }

  // ---- Events ----

  predicate WellFormed(s: State) {
    && s.current < |s.servers|
    && (s.spec.replication ==> 0 <= s.spec.target < |s.servers|)
    && (s.run.Busy? ==> |s.run.procs| == |s.servers| && s.run.to < |s.servers|)
  }

  // Commands a leaked goroutine of a fan-out can still issue; on the target, only those of a wait. Of two
  // servers, neither is ever anything but current or target.
  predicate FanoutCommand(c: Command) {
    c.WaitGtid? || c.StopAllSlaves? || c.ResetSlavePos? || c.StartSlave? || c.ResetMaster? ||
    c.EnableReadOnly? || c.Set? || c.ChangeMaster?
  }

  predicate Pending(s: State, i: nat) {
    s.run.Busy? && i < |s.run.procs| && s.run.procs[i].rest != []
  }

  predicate Enabled(s: State, e: Event)
    requires WellFormed(s)
  {
    match e
    case Write(i, _) => i < |s.servers| && !s.servers[i].readOnly && !s.servers[i].locked
    case Replicate(i, _) =>
      && i < |s.servers| && s.servers[i].slaveRunning && s.servers[i].master.Some?
      && s.servers[i].master.value < |s.servers|
      && s.servers[i].log < s.servers[s.servers[i].master.value].log
    case Update(spec, during) => during == s.switching && Admitted(s.spec, spec, during, |s.servers|)
    case StartSweep(_, obs) =>
      s.run.Idle? && s.spec.replication && !s.switching && ValidObs(s, Sweep, s.current, obs)
    case Start(obs) =>
      s.run.Idle? && s.spec.replication && s.spec.target != s.current && ValidObs(s, LockPrimary, s.spec.target, obs)
    case NextPhase(phase, obs) =>
      && s.run.Busy? && s.run.phase != Sweep && s.run.phase != ChangePrimary && phase == Successor(s.run.phase)
      && AllDone(s.run.procs) && ValidObs(s, phase, s.run.to, obs)
    case Step(i) =>
      Pending(s, i) && (s.run.procs[i].rest[0].WaitGtid? ==> |s.servers[i].log| >= s.run.procs[i].rest[0].pos)
    case Timeout(i) => Pending(s, i) && s.run.procs[i].rest[0].WaitGtid?
    case SkipPod(i) => Pending(s, i) && s.run.phase == ConnectReplicas && s.run.procs[i].rest[0].ResetMaster?
    case Finish => s.run.Busy? && s.run.phase == ChangePrimary && AllDone(s.run.procs)
    case Stop(_) => s.run.Busy?
    case Stray(i, c) =>
      && i < |s.servers| && i != s.current
      && if i == s.spec.target || |s.servers| == 2 then c.WaitGtid? || c in RESET_SLAVE else FanoutCommand(c)
  }

  function Next(s: State, e: Event): (t: State)
    requires WellFormed(s) && Enabled(s, e)
    ensures WellFormed(t) && |t.servers| == |s.servers|
  {
    match e
    case Write(i, txn) =>
      var log := s.servers[i].log + [txn];
      s.(servers := s.servers[i := s.servers[i].(log := log, binlog := |log|)], committed := s.committed + [txn])
    case Replicate(i, logged) =>
      var log := s.servers[i].log + [s.servers[s.servers[i].master.value].log[|s.servers[i].log|]];
      s.(servers := s.servers[i :=
        s.servers[i].(log := log, binlog := if logged then |log| else s.servers[i].binlog, slavePos := |log|)])
    case Update(spec, _) => s.(spec := spec)
    case StartSweep(chosen, obs) => s.(run := Enter(s, Sweep, s.current, chosen, obs))
    case Start(obs) => s.(switching := true, run := Enter(s, LockPrimary, s.spec.target, {}, obs))
    case NextPhase(phase, obs) => s.(run := Enter(s, phase, s.run.to, {}, obs))
    case Step(i) =>
      var p := s.run.procs[i];
      s.(servers := s.servers[i := Exec(p.rest[0], s.servers[i])],
         run := s.run.(procs := s.run.procs[i := p.(rest := p.rest[1..])]))
    case Timeout(i) =>
      s.(run := s.run.(procs := s.run.procs[i := Proc(s.run.procs[i].rest[1..], true)]))
    case SkipPod(i) => s.(run := s.run.(procs := s.run.procs[i := DONE]))
    case Finish => s.(current := s.run.to, switching := false, run := Idle)
    case Stop(unlock) =>
      var c := s.servers[s.current];
      s.(servers := s.servers[s.current := c.(locked := c.locked && !unlock)], run := Idle)
    case Stray(i, c) => s.(servers := s.servers[i := Exec(c, s.servers[i])])
  }

  ghost predicate Legal(s: State, es: seq<Event>)
    requires WellFormed(s)
    decreases |es|
  {
    es == [] || (Enabled(s, es[0]) && Legal(Next(s, es[0]), es[1..]))
  }

  ghost function After(s: State, es: seq<Event>): (t: State)
    requires WellFormed(s) && Legal(s, es)
    ensures WellFormed(t) && |t.servers| == |s.servers|
    decreases |es|
  {
    if es == [] then s else After(Next(s, es[0]), es[1..])
  }

  // ---- What is promised ----

  predicate Writable(s: State, i: nat) { i < |s.servers| && !s.servers[i].readOnly }

  ghost predicate SingleWriter(s: State) {
    forall i: nat, j: nat :: Writable(s, i) && Writable(s, j) ==> i == j
  }

  // A server that accepts writes holds every write ever accepted, by whichever server.
  ghost predicate NothingLost(s: State) {
    forall i: nat :: Writable(s, i) ==> s.servers[i].log == s.committed
  }

  // Replication is not disabled during a switchover.
  predicate Lasting(e: Event) {
    e.Update? && e.during ==> e.spec.replication
  }

  // The old primary is seen Ready when it is to be made read-only.
  predicate SeenToFence(e: Event) {
    e.NextPhase? && e.phase == SetReadOnly ==> e.obs.ready
  }

  predicate Fencing(e: Event) { Lasting(e) && SeenToFence(e) }

  // The old primary is seen Ready, and its position is scanned, when it is to be waited for.
  predicate Syncing(e: Event) {
    e.NextPhase? && e.phase == WaitSync ==> e.obs.ready && e.obs.scanned
  }

  // A planned run. What is observed when any other phase is entered plays no part.
  predicate Planned(e: Event) { Fencing(e) && Syncing(e) }

  // The old primary is seen Ready when it is to be unlocked.
  predicate Unlocking(e: Event) {
    e.NextPhase? && e.phase == ChangePrimary ==> e.obs.ready
  }

  // ---- The invariant ----

  ghost predicate AllHold(s: State) {
    forall i | 0 <= i < |s.servers| :: s.servers[i].log == s.committed
  }

  // Waiting for p's binary log position means waiting for every committed write.
  ghost predicate Covers(s: State, p: nat)
    requires p < |s.servers|
  {
    s.servers[p].log == s.committed && (s.servers[p].binlog == |s.committed| || AllHold(s))
  }

  // The one server that may be writable: the new primary from the moment it is opened.
  function Authority(s: State): (a: nat)
    requires WellFormed(s) && (s.switching ==> s.spec.replication)
    ensures a < |s.servers|
  {
    if s.switching && !s.servers[s.spec.target].readOnly then s.spec.target else s.current
  }

  // Which commands a goroutine may still have to run on the old primary, on the new one and elsewhere.
  predicate Allowed(phase: Phase, isCurrent: bool, isTarget: bool, c: Command) {
    match phase
    case Sweep => !c.LockTables? && !c.WaitGtid? && if isCurrent then !c.ResetMaster? && !c.EnableReadOnly? else !c.DisableReadOnly?
    case LockPrimary => isCurrent && c == LockTables
    case SetReadOnly => isCurrent && c == EnableReadOnly
    case WaitSync => !isCurrent && (c.WaitGtid? || c in RESET_SLAVE)
    case ConfigureNew => isTarget && !c.LockTables? && !c.WaitGtid? && !c.ResetMaster? && !c.EnableReadOnly?
    case ConnectReplicas => !isCurrent && !isTarget && !c.LockTables? && !c.WaitGtid? && !c.DisableReadOnly?
    case ChangePrimary => isCurrent && !c.LockTables? && !c.WaitGtid? && !c.DisableReadOnly?
  }

  ghost predicate ProcOk(phase: Phase, isCurrent: bool, isTarget: bool, p: Proc) {
    && (p.doomed ==> phase == WaitSync && !isCurrent)
    && forall c | c in p.rest :: Allowed(phase, isCurrent, isTarget, c)
  }

  // Server i still waits for the old primary's position, holds everything, or will report an error.
  ghost predicate Synced(s: State, i: nat)
    requires WellFormed(s) && s.run.Busy? && i < |s.servers|
  {
    || s.run.procs[i].doomed
    || s.servers[i].log == s.committed
    || (s.run.procs[i].rest != [] && s.run.procs[i].rest[0] == WaitGtid(s.servers[s.current].binlog))
  }

  // A switchover goes to the frozen target, and what runs is what its phase allows.
  ghost predicate Staged(s: State) {
    && WellFormed(s) && (s.switching ==> s.spec.replication && s.current != s.spec.target)
    && (s.run.Busy? ==>
          && (if s.run.phase == Sweep then !s.switching else s.switching && s.run.to == s.spec.target)
          && forall i | 0 <= i < |s.run.procs| ::
               ProcOk(s.run.phase, i == s.current, i == s.spec.target, s.run.procs[i]))
  }

  // How far the phases so far have brought the write protection of the old and the new primary.
  ghost predicate Guards(s: State)
    requires Staged(s) && s.run.Busy? && s.run.phase != Sweep
  {
    var procs, c, t := s.run.procs, s.servers[s.current], s.servers[s.spec.target];
    match s.run.phase
    case LockPrimary => true
    case SetReadOnly => c.readOnly || procs[s.current].rest != []
    case WaitSync => c.readOnly
    case ConfigureNew => c.readOnly && (t.readOnly ==> DisableReadOnly in procs[s.spec.target].rest)
    case ConnectReplicas => c.readOnly && !t.readOnly
    case ChangePrimary => c.readOnly && !t.readOnly
  }

  // How far they have brought the data, as long as the new primary is not open.
  ghost predicate Waits(s: State)
    requires Staged(s) && s.run.Busy? && s.run.phase != Sweep
  {
    s.servers[s.spec.target].readOnly ==>
      && (s.run.phase == WaitSync ==> forall i | 0 <= i < |s.run.procs| && i != s.current :: Synced(s, i))
      && (s.run.phase == ConfigureNew ==> AllHold(s))
  }

  ghost predicate FenceOk(s: State)
    requires Staged(s)
  {
    forall i | 0 <= i < |s.servers| && i != Authority(s) :: s.servers[i].readOnly
  }

  ghost predicate DataOk(s: State)
    requires Staged(s)
  {
    && (forall i | 0 <= i < |s.servers| :: s.servers[i].log <= s.committed)
    && Covers(s, Authority(s))
  }

  predicate Attempting(s: State) { s.run.Busy? && s.run.phase != Sweep }

  // What keeps a single writer.
  ghost predicate Guarded(s: State)
    requires Staged(s)
  {
    FenceOk(s) && (Attempting(s) ==> Guards(s))
  }

  // What keeps every write.
  ghost predicate Kept(s: State)
    requires Staged(s)
  {
    DataOk(s) && (Attempting(s) ==> Waits(s))
  }

  ghost predicate Fenced(s: State) { Staged(s) && Guarded(s) }

  ghost predicate Good(s: State) { Fenced(s) && Kept(s) }

  // Only the old primary is ever locked, and it will be unlocked.
  ghost predicate LockOk(s: State)
    requires WellFormed(s)
  {
    && (forall i | 0 <= i < |s.servers| && s.servers[i].locked :: s.switching && i == s.current)
    && (s.run.Busy? && s.run.phase == ChangePrimary && s.servers[s.current].locked ==>
          UnlockTables in s.run.procs[s.current].rest)
  }

  // A configured cluster at rest: only the primary may accept writes, nothing is locked, and waiting for
  // the primary's position is waiting for every write. A new cluster, whose servers hold nothing, is one.
  ghost predicate Configured(s: State) {
    Good(s) && LockOk(s) && s.run.Idle? && !s.switching
  }

  // ---- The stages are kept, whatever is observed ----

  // The scripts contain what their phase allows.
  lemma WorkOk(s: State, phase: Phase, to: nat, chosen: set<nat>, obs: Obs, i: nat)
    requires s.current < |s.servers| && |obs.orders| == |s.servers| && i < |s.servers|
    requires phase == Sweep || to != s.current
    ensures forall c | c in Work(s, phase, to, chosen, obs, i) :: Allowed(phase, i == s.current, i == to, c)
  {
  }

  lemma ProcsOk(s: State, phase: Phase, to: nat, chosen: set<nat>, obs: Obs)
    requires s.current < |s.servers| && |obs.orders| == |s.servers|
    requires phase == Sweep || to != s.current
    ensures forall i | 0 <= i < |s.servers| ::
              ProcOk(phase, i == s.current, i == to, Enter(s, phase, to, chosen, obs).procs[i])
  {
    forall i | 0 <= i < |s.servers| {
      WorkOk(s, phase, to, chosen, obs, i);
    }
  }

  lemma StagedStart(s: State, e: Event)
    requires Staged(s) && Enabled(s, e) && (e.StartSweep? || e.Start? || e.NextPhase?)
    ensures Staged(Next(s, e))
  {
    match e
    case Start(obs) => ProcsOk(s, LockPrimary, s.spec.target, {}, obs);
    case StartSweep(chosen, obs) => ProcsOk(s, Sweep, s.current, chosen, obs);
    case NextPhase(phase, obs) => ProcsOk(s, phase, s.run.to, {}, obs);
  }

  lemma StepProcs(s: State, i: nat, p: Proc)
    requires Staged(s) && s.run.Busy? && i < |s.servers|
    requires p.doomed ==> s.run.phase == WaitSync && i != s.current
    requires forall c | c in p.rest :: c in s.run.procs[i].rest
    ensures var procs := s.run.procs[i := p];
            forall j | 0 <= j < |procs| :: ProcOk(s.run.phase, j == s.current, j == s.spec.target, procs[j])
  {
    assert ProcOk(s.run.phase, i == s.current, i == s.spec.target, s.run.procs[i]);
  }

  lemma StagedStep(s: State, e: Event)
    requires Staged(s) && Enabled(s, e) && (e.Step? || e.Timeout? || e.SkipPod?)
    ensures Staged(Next(s, e))
  {
    var p := s.run.procs[e.i];
    assert ProcOk(s.run.phase, e.i == s.current, e.i == s.spec.target, p);
    assert Allowed(s.run.phase, e.i == s.current, e.i == s.spec.target, p.rest[0]);
    StepProcs(s, e.i, Next(s, e).run.procs[e.i]);
  }

  // Sweeps do not depend on the target.
  lemma SweepAllowed(s: State, target: int)
    requires Staged(s) && s.run.Busy? && s.run.phase == Sweep
    ensures forall i | 0 <= i < |s.run.procs| :: ProcOk(Sweep, i == s.current, i == target, s.run.procs[i])
  {
    forall i | 0 <= i < |s.run.procs| ensures ProcOk(Sweep, i == s.current, i == target, s.run.procs[i]) {
      assert ProcOk(Sweep, i == s.current, i == s.spec.target, s.run.procs[i]);
    }
  }

  lemma StagedNext(s: State, e: Event)
    requires Staged(s) && Enabled(s, e) && Lasting(e)
    ensures Staged(Next(s, e))
  {
    if e.StartSweep? || e.Start? || e.NextPhase? {
      StagedStart(s, e);
    } else if e.Step? || e.Timeout? || e.SkipPod? {
      StagedStep(s, e);
    } else if e.Update? && s.run.Busy? && s.run.phase == Sweep {
      SweepAllowed(s, e.spec.target);
    }
  }

  // ---- A single writer is kept, if the old primary is seen Ready when it is fenced ----

  // Write protection of the servers and what runs decide.
  lemma GuardedKeeps(s: State, t: State)
    requires Fenced(s) && Staged(t) && |t.servers| == |s.servers| && t.run == s.run
    requires t.current == s.current && t.switching == s.switching && (s.switching ==> t.spec.target == s.spec.target)
    requires forall i | 0 <= i < |s.servers| :: t.servers[i].readOnly == s.servers[i].readOnly
    ensures Guarded(t)
  {
    assert Authority(t) == Authority(s);
  }

  lemma GuardedNextPhase(s: State, phase: Phase, obs: Obs)
    requires Fenced(s) && Enabled(s, NextPhase(phase, obs)) && Fencing(NextPhase(phase, obs))
    requires Staged(Next(s, NextPhase(phase, obs)))
    ensures Guarded(Next(s, NextPhase(phase, obs)))
  {
    var t := Next(s, NextPhase(phase, obs));
    assert Authority(t) == Authority(s);
    match phase
    case SetReadOnly => assert t.run.procs[t.current].rest == [EnableReadOnly];
    case WaitSync => assert s.run.procs[s.current] == DONE;
    case ConfigureNew => assert t.run.procs[t.run.to].rest[3] == DisableReadOnly;
    case ConnectReplicas => assert s.run.procs[s.spec.target] == DONE;
    case _ =>
  }

  // What a command does to write protection, lock and data.
  ghost predicate Switches(c: Command, x: Server, y: Server) {
    && y.readOnly == (c.EnableReadOnly? || (x.readOnly && !c.DisableReadOnly?))
    && y.locked == (c.LockTables? || (x.locked && !c.UnlockTables?))
    && y.log == x.log && (!c.ResetMaster? ==> y.binlog == x.binlog)
  }

  lemma ExecSwitches(c: Command, x: Server)
    ensures Switches(c, x, Exec(c, x))
  {
    match c
    case Set(setting) => assert Exec(c, x) == Apply(setting, x);
    case _ =>
  }

  lemma FenceOkWith(s: State, i: nat, c: Command, y: Server)
    requires Fenced(s) && Pending(s, i) && c == s.run.procs[i].rest[0] && Switches(c, s.servers[i], y)
    ensures FenceOk(s.(servers := s.servers[i := y]))
  {
    assert ProcOk(s.run.phase, i == s.current, i == s.spec.target, s.run.procs[i]);
    assert Allowed(s.run.phase, i == s.current, i == s.spec.target, c);
  }

  lemma GuardsWith(s: State, i: nat, y: Server, t: State)
    requires Fenced(s) && Enabled(s, Step(i)) && Switches(s.run.procs[i].rest[0], s.servers[i], y)
    requires t == s.(servers := s.servers[i := y],
                     run := s.run.(procs := s.run.procs[i := s.run.procs[i].(rest := s.run.procs[i].rest[1..])]))
    requires Staged(t) && Attempting(s)
    ensures Guards(t)
  {
    var p := s.run.procs[i];
    assert p.rest == [p.rest[0]] + p.rest[1..];
    assert ProcOk(s.run.phase, i == s.current, i == s.spec.target, p);
    assert Allowed(s.run.phase, i == s.current, i == s.spec.target, p.rest[0]);
  }

  lemma GuardedStep(s: State, i: nat)
    requires Fenced(s) && Enabled(s, Step(i)) && Staged(Next(s, Step(i)))
    ensures Guarded(Next(s, Step(i)))
  {
    var c, t := s.run.procs[i].rest[0], Next(s, Step(i));
    ExecSwitches(c, s.servers[i]);
    FenceOkWith(s, i, c, Exec(c, s.servers[i]));
    if Attempting(s) {
      GuardsWith(s, i, Exec(c, s.servers[i]), t);
    }
  }

  lemma GuardedTimeout(s: State, i: nat)
    requires Fenced(s) && Enabled(s, Timeout(i)) && Staged(Next(s, Timeout(i)))
    ensures Guarded(Next(s, Timeout(i)))
  {
    assert ProcOk(s.run.phase, i == s.current, i == s.spec.target, s.run.procs[i]);
    assert Allowed(s.run.phase, i == s.current, i == s.spec.target, s.run.procs[i].rest[0]);
  }

  lemma GuardedStray(s: State, i: nat, c: Command)
    requires Fenced(s) && Enabled(s, Stray(i, c))
    ensures Guarded(Next(s, Stray(i, c)))
  {
    ExecSwitches(c, s.servers[i]);
    if s.servers[i].readOnly || !c.EnableReadOnly? {
      GuardedKeeps(s, Next(s, Stray(i, c)));
    }
  }

  lemma GuardedStop(s: State, e: Event)
    requires Fenced(s) && Enabled(s, e) && Staged(Next(s, e))
    requires e.Stop? || e.Finish? || e.SkipPod? || e.Start? || e.StartSweep?
    ensures Guarded(Next(s, e))
  {
  }

  lemma FencedNext(s: State, e: Event)
    requires Fenced(s) && Enabled(s, e) && Fencing(e)
    ensures Fenced(Next(s, e))
  {
    StagedNext(s, e);
    match e
    case Write(_, _) => GuardedKeeps(s, Next(s, e));
    case Replicate(_, _) => GuardedKeeps(s, Next(s, e));
    case Update(_, _) => GuardedKeeps(s, Next(s, e));
    case Stray(i, c) => GuardedStray(s, i, c);
    case NextPhase(phase, obs) => GuardedNextPhase(s, phase, obs);
    case Step(i) => GuardedStep(s, i);
    case Timeout(i) => GuardedTimeout(s, i);
    case _ => GuardedStop(s, e);
  }

  lemma {:induction false} FencedAfter(s: State, es: seq<Event>)
    requires Fenced(s) && Legal(s, es) && forall e | e in es :: Fencing(e)
    ensures Fenced(After(s, es))
    decreases |es|
  {
    if es != [] {
      assert es[0] in es;
      FencedNext(s, es[0]);
      FencedAfter(Next(s, es[0]), es[1..]);
    }
  }

  // ---- Every write is kept ----

  lemma KeepSynced(s: State, t: State)
    requires Good(s) && s.run.Busy? && s.run.phase == WaitSync && s.servers[s.spec.target].readOnly
    requires WellFormed(t) && t.run == s.run && t.committed == s.committed && t.current == s.current
    requires |t.servers| == |s.servers| && t.servers[s.current].binlog == s.servers[s.current].binlog
    requires forall i | 0 <= i < |s.servers| && s.servers[i].log == s.committed :: t.servers[i].log == s.committed
    ensures forall i | 0 <= i < |t.run.procs| && i != t.current :: Synced(t, i)
  {
    forall i | 0 <= i < |t.run.procs| && i != t.current ensures Synced(t, i) {
      assert Synced(s, i);
    }
  }

  lemma KeptWrite(s: State, i: nat, txn: nat)
    requires Good(s) && Enabled(s, Write(i, txn)) && Staged(Next(s, Write(i, txn)))
    ensures Kept(Next(s, Write(i, txn)))
  {
    assert i == Authority(s);
    assert Covers(Next(s, Write(i, txn)), i);
  }

  lemma KeptReplicate(s: State, i: nat, logged: bool)
    requires Good(s) && Enabled(s, Replicate(i, logged)) && Staged(Next(s, Replicate(i, logged)))
    ensures Kept(Next(s, Replicate(i, logged)))
  {
    var t := Next(s, Replicate(i, logged));
    assert s.servers[i].log != s.committed;
    assert i != Authority(s);
    assert t.servers[i].log <= s.committed;
    if s.run.Busy? && s.run.phase == WaitSync && s.servers[s.spec.target].readOnly {
      KeepSynced(s, t);
    }
  }

  lemma KeptUpdate(s: State, e: Event)
    requires Good(s) && e.Update? && Enabled(s, e) && Staged(Next(s, e))
    ensures Kept(Next(s, e))
  {
    assert Authority(Next(s, e)) == Authority(s);
    if s.run.Busy? && s.run.phase == WaitSync && s.servers[s.spec.target].readOnly {
      KeepSynced(s, Next(s, e));
    }
  }

  lemma KeptStrayWith(s: State, i: nat, c: Command, y: Server)
    requires Good(s) && Enabled(s, Stray(i, c)) && Switches(c, s.servers[i], y)
    ensures Kept(s.(servers := s.servers[i := y]))
  {
    var t := s.(servers := s.servers[i := y]);
    assert Authority(t) == Authority(s);
    assert AllHold(s) ==> AllHold(t);
    if s.run.Busy? && s.run.phase == WaitSync && s.servers[s.spec.target].readOnly {
      KeepSynced(s, t);
    }
  }

  lemma KeptNextPhase(s: State, phase: Phase, obs: Obs)
    requires Good(s) && Enabled(s, NextPhase(phase, obs)) && Planned(NextPhase(phase, obs))
    requires Staged(Next(s, NextPhase(phase, obs)))
    ensures Kept(Next(s, NextPhase(phase, obs)))
  {
    var t := Next(s, NextPhase(phase, obs));
    assert Authority(t) == Authority(s);
    assert DataOk(t);
    if phase == WaitSync {
      forall i | 0 <= i < |t.run.procs| && i != t.current ensures Synced(t, i) {
        assert t.run.procs[i].rest[0] == WaitGtid(t.servers[t.current].binlog);
      }
    } else if phase == ConfigureNew && s.servers[s.spec.target].readOnly {
      forall i | 0 <= i < |s.servers| && i != s.current ensures s.servers[i].log == s.committed {
        assert Synced(s, i);
      }
    }
  }

  // A command keeps the data; it empties the binary log of the authority never.
  lemma DataOkWith(s: State, i: nat, c: Command, y: Server)
    requires Good(s) && Pending(s, i) && c == s.run.procs[i].rest[0] && Switches(c, s.servers[i], y)
    ensures DataOk(s.(servers := s.servers[i := y]))
  {
    var t := s.(servers := s.servers[i := y]);
    assert ProcOk(s.run.phase, i == s.current, i == s.spec.target, s.run.procs[i]);
    assert Allowed(s.run.phase, i == s.current, i == s.spec.target, c);
    if Authority(t) == Authority(s) {
      assert t.servers[Authority(s)].binlog == s.servers[Authority(s)].binlog;
    } else {
      assert AllHold(s);
    }
    assert AllHold(s) ==> AllHold(t);
  }

  lemma WaitsWith(s: State, i: nat, y: Server, t: State)
    requires Good(s) && Enabled(s, Step(i)) && s.run.phase != WaitSync && Attempting(s)
    requires Switches(s.run.procs[i].rest[0], s.servers[i], y)
    requires t == s.(servers := s.servers[i := y],
                     run := s.run.(procs := s.run.procs[i := s.run.procs[i].(rest := s.run.procs[i].rest[1..])]))
    requires Staged(t)
    ensures Waits(t)
  {
    assert ProcOk(s.run.phase, i == s.current, i == s.spec.target, s.run.procs[i]);
    assert Allowed(s.run.phase, i == s.current, i == s.spec.target, s.run.procs[i].rest[0]);
    assert AllHold(s) ==> AllHold(t);
  }

  lemma WaitsStep(s: State, i: nat)
    requires Good(s) && Enabled(s, Step(i)) && s.run.phase == WaitSync && Staged(Next(s, Step(i)))
    ensures Waits(Next(s, Step(i)))
  {
    var p := s.run.procs[i];
    var t := Next(s, Step(i));
    assert ProcOk(s.run.phase, i == s.current, i == s.spec.target, p);
    assert Allowed(s.run.phase, i == s.current, i == s.spec.target, p.rest[0]);
    if s.servers[s.spec.target].readOnly {
      forall j | 0 <= j < |s.servers| && j != s.current ensures Synced(t, j) {
        assert Synced(s, j);
      }
    }
  }

  lemma KeptStep(s: State, i: nat)
    requires Good(s) && Enabled(s, Step(i)) && Staged(Next(s, Step(i)))
    ensures Kept(Next(s, Step(i)))
  {
    var c, t := s.run.procs[i].rest[0], Next(s, Step(i));
    ExecSwitches(c, s.servers[i]);
    DataOkWith(s, i, c, Exec(c, s.servers[i]));
    if s.run.phase == WaitSync {
      WaitsStep(s, i);
    } else if Attempting(s) {
      WaitsWith(s, i, Exec(c, s.servers[i]), t);
    }
  }

  lemma KeptTimeout(s: State, i: nat)
    requires Good(s) && Enabled(s, Timeout(i)) && Staged(Next(s, Timeout(i)))
    ensures Kept(Next(s, Timeout(i)))
  {
    var t := Next(s, Timeout(i));
    if s.run.phase == WaitSync && s.servers[s.spec.target].readOnly {
      forall j | 0 <= j < |s.servers| && j != s.current ensures Synced(t, j) {
        assert Synced(s, j);
      }
    }
  }

  lemma KeptStop(s: State, e: Event)
    requires Good(s) && Enabled(s, e) && Staged(Next(s, e))
    requires e.Stop? || e.Finish? || e.SkipPod? || e.Start? || e.StartSweep?
    ensures Kept(Next(s, e))
  {
    assert AllHold(s) ==> AllHold(Next(s, e));
  }

  lemma GoodNext(s: State, e: Event)
    requires Good(s) && Enabled(s, e) && Planned(e)
    ensures Good(Next(s, e))
  {
    FencedNext(s, e);
    match e
    case Write(i, txn) => KeptWrite(s, i, txn);
    case Replicate(i, logged) => KeptReplicate(s, i, logged);
    case Update(_, _) => KeptUpdate(s, e);
    case Stray(i, c) =>
      ExecSwitches(c, s.servers[i]);
      KeptStrayWith(s, i, c, Exec(c, s.servers[i]));
    case NextPhase(phase, obs) => KeptNextPhase(s, phase, obs);
    case Step(i) => KeptStep(s, i);
    case Timeout(i) => KeptTimeout(s, i);
    case _ => KeptStop(s, e);
  }

  lemma {:induction false} GoodAfter(s: State, es: seq<Event>)
    requires Good(s) && Legal(s, es) && forall e | e in es :: Planned(e)
    ensures Good(After(s, es))
    decreases |es|
  {
    if es != [] {
      assert es[0] in es;
      GoodNext(s, es[0]);
      GoodAfter(Next(s, es[0]), es[1..]);
    }
  }

  // ---- The lock is given back ----

  lemma LockStepWith(s: State, i: nat, y: Server, t: State)
    requires Staged(s) && LockOk(s) && Enabled(s, Step(i)) && Switches(s.run.procs[i].rest[0], s.servers[i], y)
    requires t == s.(servers := s.servers[i := y],
                     run := s.run.(procs := s.run.procs[i := s.run.procs[i].(rest := s.run.procs[i].rest[1..])]))
    ensures LockOk(t)
  {
    var p := s.run.procs[i];
    assert p.rest == [p.rest[0]] + p.rest[1..];
    assert ProcOk(s.run.phase, i == s.current, i == s.spec.target, p);
    assert Allowed(s.run.phase, i == s.current, i == s.spec.target, p.rest[0]);
  }

  lemma LockNext(s: State, e: Event)
    requires Staged(s) && LockOk(s) && Enabled(s, e) && Unlocking(e)
    ensures LockOk(Next(s, e))
  {
    match e
    case Step(i) =>
      ExecSwitches(s.run.procs[i].rest[0], s.servers[i]);
      LockStepWith(s, i, Exec(s.run.procs[i].rest[0], s.servers[i]), Next(s, e));
    case Stray(i, c) => ExecSwitches(c, s.servers[i]);
    case NextPhase(phase, obs) =>
      if phase == ChangePrimary {
        assert Next(s, e).run.procs[s.current].rest[0] == UnlockTables;
      }
    case Timeout(i) => assert ProcOk(s.run.phase, i == s.current, i == s.spec.target, s.run.procs[i]);
    case _ =>
  }

  lemma {:induction false} LockAfter(s: State, es: seq<Event>)
    requires Staged(s) && LockOk(s) && Legal(s, es) && forall e | e in es :: Lasting(e) && Unlocking(e)
    ensures Staged(After(s, es)) && LockOk(After(s, es))
    decreases |es|
  {
    if es != [] {
      assert es[0] in es;
      StagedNext(s, es[0]);
      LockNext(s, es[0]);
      LockAfter(Next(s, es[0]), es[1..]);
    }
  }
}
