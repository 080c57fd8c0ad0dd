/** Exactly which observations and updates a switchover survives: on every configured cluster, whatever
    state its servers are in.
 */
module SwitchoverExactly {
  import opened Optional
  import opened Replication
  import opened Switchover
  import opened SwitchoverSafety
  import opened SwitchoverLimits

  // ---- Every configured cluster can be brought to a healthy state ----

  // Replicas that have not reached the primary's position replicate from it.
  ghost predicate Healthy(s: State) {
    && WellFormed(s) && s.servers[s.current].binlog <= |s.committed|
    && forall i | 0 <= i < |s.servers| && i != s.current ::
         || s.servers[s.current].binlog <= |s.servers[i].log|
         || (s.servers[i].slaveRunning && s.servers[i].master == Some(s.current))
  }

  // u is s after some replication.
  ghost predicate Replicated(s: State, u: State) {
    && WellFormed(s) && WellFormed(u) && |u.servers| == |s.servers| && u == s.(servers := u.servers)
    && u.servers[s.current] == s.servers[s.current]
    && forall i | 0 <= i < |s.servers| ::
         && ConfigOf(u.servers[i]) == ConfigOf(s.servers[i])
         && |s.servers[i].log| <= |u.servers[i].log|
  }

  lemma ReplicatedTrans(s: State, t: State, u: State)
    requires Replicated(s, t) && Replicated(t, u)
    ensures Replicated(s, u)
  {
  }

  lemma ReplicateOnce(s: State, i: nat)
    requires Configured(s) && Healthy(s) && i < |s.servers| && |s.servers[i].log| < s.servers[s.current].binlog
    ensures Enabled(s, Replicate(i, true))
    ensures
      var t := Next(s, Replicate(i, true));
      Configured(t) && Healthy(t) && Replicated(s, t) && |t.servers[i].log| == |s.servers[i].log| + 1
  {
    assert Authority(s) == s.current && s.servers[s.current].log == s.committed;
    assert i != s.current && s.servers[i].log <= s.committed;
    GoodNext(s, Replicate(i, true));
    LockNext(s, Replicate(i, true));
  }

  lemma {:induction false} CatchUpOne(s: State, i: nat) returns (es: seq<Event>)
    requires Configured(s) && Healthy(s) && i < |s.servers|
    ensures Legal(s, es) && (forall e | e in es :: e.Replicate?)
    ensures Configured(After(s, es)) && Healthy(After(s, es)) && Replicated(s, After(s, es))
    ensures s.servers[s.current].binlog <= |After(s, es).servers[i].log| || i == s.current
    decreases s.servers[s.current].binlog - |s.servers[i].log|
  {
    es := [];
    if i != s.current && |s.servers[i].log| < s.servers[s.current].binlog {
      ReplicateOnce(s, i);
      var e := Replicate(i, true);
      var rest := CatchUpOne(Next(s, e), i);
      es := [e] + rest;
      assert es[0] == e && es[1..] == rest;
      assert After(s, es) == After(Next(s, e), rest);
      ReplicatedTrans(s, Next(s, e), After(s, es));
    }
  }

  lemma CaughtUpJoin(s: State, a: seq<Event>, b: seq<Event>, n: nat)
    requires Configured(s) && 0 < n <= |s.servers|
    requires Legal(s, a) && Replicated(s, After(s, a))
    requires Legal(After(s, a), b) && Replicated(After(s, a), After(After(s, a), b))
    requires forall i | 0 <= i < n - 1 && i != s.current :: s.servers[s.current].binlog <= |After(s, a).servers[i].log|
    requires n - 1 == s.current || s.servers[s.current].binlog <= |After(After(s, a), b).servers[n - 1].log|
    ensures Legal(s, a + b) && After(s, a + b) == After(After(s, a), b) && Replicated(s, After(s, a + b))
    ensures forall i | 0 <= i < n && i != s.current :: s.servers[s.current].binlog <= |After(s, a + b).servers[i].log|
  {
    Join(s, a, b);
    var m, t := After(s, a), After(After(s, a), b);
    ReplicatedTrans(s, m, t);
    forall i | 0 <= i < n && i != s.current ensures s.servers[s.current].binlog <= |t.servers[i].log| {
      if i < n - 1 {
        assert |m.servers[i].log| <= |t.servers[i].log|;
      }
    }
  }

  lemma {:induction false} CatchUp(s: State, n: nat) returns (es: seq<Event>)
    requires Configured(s) && Healthy(s) && n <= |s.servers|
    ensures Legal(s, es) && (forall e | e in es :: e.Replicate?)
    ensures Configured(After(s, es)) && Healthy(After(s, es)) && Replicated(s, After(s, es))
    ensures forall i | 0 <= i < n && i != s.current :: s.servers[s.current].binlog <= |After(s, es).servers[i].log|
    decreases n
  {
    es := [];
    if n > 0 {
      var a := CatchUp(s, n - 1);
      var b := CatchUpOne(After(s, a), n - 1);
      CaughtUpJoin(s, a, b, n);
      es := a + b;
    }
  }

  // A healthy cluster can catch up.
  lemma CatchesUp(s: State) returns (es: seq<Event>)
    requires Configured(s) && Healthy(s)
    ensures Legal(s, es) && (forall e | e in es :: e.Replicate?)
    ensures Configured(After(s, es)) && CaughtUp(After(s, es)) && Replicated(s, After(s, es))
  {
    es := CatchUp(s, |s.servers|);
    assert Authority(s) == s.current && s.servers[s.current].log == s.committed;
  }

  // An event of the preparation: updates and writes outside of a switchover, and configuration passes.
  predicate Preparing(e: Event) {
    match e
    case Update(_, during) => !during
    case StartSweep(_, _) => true
    case Step(_) => true
    case Stop(_) => true
    case Write(_, _) => true
    case _ => false
  }

  lemma PreparingKeeps(s: State, es: seq<Event>)
    requires Configured(s) && Legal(s, es) && forall e | e in es :: Preparing(e)
    ensures Good(After(s, es)) && LockOk(After(s, es))
  {
    assert forall e | e in es :: Planned(e) && Unlocking(e);
    GoodAfter(s, es);
    LockAfter(s, es);
  }

  // Replication is enabled with a target other than the current primary.
  function Aimed(s: State): Event {
    Update(Spec(true, false, if s.current == 0 then 1 else 0, s.spec.automaticFailover), false)
  }

  function AllOf(n: nat): (a: set<nat>)
    ensures forall i: nat :: i in a <==> i < n
  {
    if n == 0 then {} else AllOf(n - 1) + {n - 1}
  }

  // A configuration pass keeps what the servers hold. It creates the primary's accounts and forgets what the
  // primary has replicated, and empties the replicas' binary logs without forgetting their positions.
  predicate SweptServer(isPrimary: bool, x: Server, y: Server) {
    && y.log == x.log
    && if isPrimary then y.accounts && y.slavePos == 0 && y.binlog == x.binlog
       else y.accounts == x.accounts && y.slavePos == x.slavePos && y.binlog == 0
  }

  ghost predicate SweptData(s: State, servers: seq<Server>) {
    |servers| == |s.servers| && forall i | 0 <= i < |servers| :: SweptServer(i == s.current, s.servers[i], servers[i])
  }

  // A configuration pass over all servers, run to its end.
  lemma SweepAll(s: State) returns (es: seq<Event>)
    requires Configured(s) && s.spec.replication
    ensures Legal(s, es) && (forall e | e in es :: Preparing(e))
    ensures
      var t := After(s, es);
      && t == s.(servers := t.servers) && |t.servers| == |s.servers|
      && Configs(t.servers) == Topology(|s.servers|, s.current) && Arranged(t.servers, s.current) && SweptData(s, t.servers)
  {
    var a := Swept(s);
    var k := After(s, a);
    Extend(s, a, Stop(true));
    es := a + [Stop(true)];
    assert ConfigOf(k.servers[s.current]) == Configs(k.servers)[s.current] == Topology(|s.servers|, s.current)[s.current];
    assert After(s, es).servers == k.servers;
    TopologyIsArranged(k.servers, s.current);
  }

  lemma Swept(s: State) returns (es: seq<Event>)
    requires Configured(s) && s.spec.replication
    ensures Legal(s, es) && (forall e | e in es :: Preparing(e))
    ensures
      var t := After(s, es);
      && t == s.(servers := t.servers, run := t.run) && |t.servers| == |s.servers| && t.run.Busy?
      && Configs(t.servers) == Topology(|s.servers|, s.current) && SweptData(s, t.servers)
  {
    var all := AllOf(|s.servers|);
    var e := StartSweep(all, Sight(s, Sweep, s.current, true, true));
    Extend(s, [], e);
    var a := [] + [e];
    var m := After(s, a);
    StagedNext(s, e);
    var b := DrainSweep(m);
    Join(s, a, b);
    es := a + b;
    SweptTopology(s, After(s, es), m, e.obs);
  }

  lemma DrainSweep(m: State) returns (b: seq<Event>)
    requires Staged(m) && m.run.Busy? && m.run.phase == Sweep
    ensures Legal(m, b) && (forall e | e in b :: Preparing(e))
    ensures
      var k := After(m, b);
      && k.run.Busy? && k == m.(servers := k.servers, run := k.run) && |k.servers| == |m.servers|
      && forall i | 0 <= i < |m.servers| :: k.servers[i] == ExecAll(m.run.procs[i].rest, m.servers[i])
  {
    forall i: nat | i < |m.servers| ensures !m.run.procs[i].doomed && Free(m, i, |m.run.procs[i].rest|) {
      SweepIsFree(m, i);
    }
    b := DrainAll(m, |m.servers|);
  }

  // A configuration pass never waits.
  lemma SweepIsFree(m: State, i: nat)
    requires Staged(m) && m.run.Busy? && m.run.phase == Sweep && i < |m.servers|
    ensures !m.run.procs[i].doomed && Free(m, i, |m.run.procs[i].rest|)
  {
    var rest := m.run.procs[i].rest;
    assert ProcOk(Sweep, i == m.current, i == m.spec.target, m.run.procs[i]);
    forall j | 0 <= j < |rest| ensures !rest[j].WaitGtid? {
      assert Allowed(Sweep, i == m.current, i == m.spec.target, rest[j]);
    }
  }

  lemma SweptTopology(s: State, k: State, m: State, obs: Obs)
    requires Configured(s) && ValidObs(s, Sweep, s.current, obs) && |k.servers| == |s.servers|
    requires m.servers == s.servers && m.run == Enter(s, Sweep, s.current, AllOf(|s.servers|), obs)
    requires forall i | 0 <= i < |s.servers| :: k.servers[i] == ExecAll(m.run.procs[i].rest, s.servers[i])
    ensures Configs(k.servers) == Topology(|s.servers|, s.current) && SweptData(s, k.servers)
  {
    forall i | 0 <= i < |s.servers|
      ensures ConfigOf(k.servers[i]) == Topology(|s.servers|, s.current)[i] && SweptServer(i == s.current, s.servers[i], k.servers[i])
    {
      assert !s.servers[i].locked;
      if i == s.current {
        PrimaryScriptConfigures(i, obs.orders[i], s.servers[i]);
      } else {
        ReplicaScriptConfigures(i, s.current, false, obs.orders[i], s.servers[i]);
      }
    }
  }

  // A configured topology in which the primary has taken a write is healthy.
  lemma WriteMakesHealthy(s: State)
    requires Configured(s) && Configs(s.servers) == Topology(|s.servers|, s.current)
    ensures Enabled(s, Write(s.current, 0))
    ensures
      var t := Next(s, Write(s.current, 0));
      Configured(t) && Healthy(t) && Writable(t, t.current) && t.spec == s.spec && t.current == s.current
  {
    forall i | 0 <= i < |s.servers|
      ensures ConfigOf(s.servers[i]) == if i == s.current then PrimaryConfig(i) else ReplicaConfig(i, s.current)
    {
      assert ConfigOf(s.servers[i]) == Configs(s.servers)[i] == Topology(|s.servers|, s.current)[i];
    }
    assert Authority(s) == s.current && s.servers[s.current].log == s.committed;
    GoodNext(s, Write(s.current, 0));
    LockNext(s, Write(s.current, 0));
  }

  // Ready for a switchover: a healthy cluster with a writable primary that is not the target.
  ghost predicate Ready(s: State) {
    Configured(s) && Healthy(s) && Writable(s, s.current) && s.spec.replication && s.spec.target != s.current
  }

  lemma Prepare(s: State) returns (es: seq<Event>)
    requires Configured(s) && |s.servers| > 1
    ensures Legal(s, es) && (forall e | e in es :: Preparing(e))
    ensures |After(s, es).servers| == |s.servers| && Ready(After(s, es))
  {
    var e := Aimed(s);
    Extend(s, [], e);
    var a := [] + [e];
    PreparingKeeps(s, a);
    var m := After(s, a);
    var b := SweepAll(m);
    Join(s, a, b);
    var k := After(s, a + b);
    PreparingKeeps(s, a + b);
    WriteMakesHealthy(k);
    Extend(s, a + b, Write(k.current, 0));
    es := a + b + [Write(k.current, 0)];
  }

  // ---- What may be observed and done ----

  // Which observations are possible on entering a phase: whether the old primary is seen Ready and
  // whether its position can be scanned.
  type Observations = (Phase, bool, bool) -> bool

  // And whether replication may be disabled during a switchover.
  predicate Permits(p: Observations, off: bool, e: Event) {
    match e
    case Update(_, _) => off || Lasting(e)
    case Start(obs) => p(LockPrimary, obs.ready, obs.scanned)
    case NextPhase(phase, obs) => p(phase, obs.ready, obs.scanned)
    case _ => true
  }

  ghost predicate Possible(p: Observations, off: bool, s: State, es: seq<Event>)
    requires WellFormed(s)
  {
    Legal(s, es) && forall e | e in es :: Permits(p, off, e)
  }

  predicate Fences(p: Observations) { !p(SetReadOnly, false, false) && !p(SetReadOnly, false, true) }

  predicate Syncs(p: Observations) {
    !p(WaitSync, false, false) && !p(WaitSync, false, true) && !p(WaitSync, true, false)
  }

  // ---- Two servers ----

  // The state as if the target were always the server that is not the primary.
  function Paired(s: State): State
    requires s.current < |s.servers| == 2
  {
    s.(spec := Spec(true, false, 1 - s.current, true))
  }

  lemma PairedStart(s: State)
    requires Configured(s) && |s.servers| == 2
    ensures Good(Paired(s))
  {
    GoodNext(s, Update(Spec(true, false, 1 - s.current, true), false));
  }

  lemma EnterPaired(s: State, phase: Phase, to: nat, chosen: set<nat>, obs: Obs)
    requires s.current < |s.servers| == 2 && |obs.orders| == 2
    ensures Enter(Paired(s), phase, to, chosen, obs) == Enter(s, phase, to, chosen, obs)
  {
    var a, b := Enter(Paired(s), phase, to, chosen, obs), Enter(s, phase, to, chosen, obs);
    forall i | 0 <= i < 2 ensures a.procs[i] == b.procs[i] {
      assert Work(Paired(s), phase, to, chosen, obs, i) == Work(s, phase, to, chosen, obs, i);
    }
    assert a.procs == b.procs;
  }

  // What happens does not depend on the spec otherwise.
  lemma PairedStep(s: State, e: Event)
    requires WellFormed(s) && |s.servers| == 2 && Staged(Paired(s)) && Enabled(s, e) && !e.Update?
    ensures Enabled(Paired(s), e)
    ensures !e.Finish? ==> Next(Paired(s), e) == Paired(Next(s, e))
    ensures e.Finish? ==>
      Next(Paired(s), e) == Paired(s).(current := 1 - s.current, switching := false, run := Idle)
      && Paired(Next(s, e)) == Next(Paired(s), e).(spec := Spec(true, false, s.current, true))
  {
    match e
    case Start(obs) => EnterPaired(s, LockPrimary, s.spec.target, {}, obs);
    case StartSweep(chosen, obs) => EnterPaired(s, Sweep, s.current, chosen, obs);
    case NextPhase(phase, obs) => EnterPaired(s, phase, s.run.to, {}, obs);
    case _ =>
  }

  // With two servers there is nowhere else to go, so that updates do not matter.
  lemma PairedNext(s: State, e: Event)
    requires WellFormed(s) && |s.servers| == 2 && Fenced(Paired(s)) && Enabled(s, e) && SeenToFence(e)
    ensures Fenced(Paired(Next(s, e)))
    ensures Good(Paired(s)) && Syncing(e) ==> Good(Paired(Next(s, e)))
  {
    var q := Paired(s);
    if e.Update? {
      assert Paired(Next(s, e)) == q;
    } else {
      PairedStep(s, e);
      FencedNext(q, e);
      if Good(q) && Syncing(e) {
        GoodNext(q, e);
      }
      if e.Finish? {
        PairedFinish(Next(q, e), s.current);
      }
    }
  }

  lemma PairedFinish(t: State, old_: nat)
    requires Fenced(t) && |t.servers| == 2 && !t.switching && old_ == 1 - t.current
    ensures
      var u := t.(spec := Spec(true, false, old_, true));
      Fenced(u) && (Good(t) ==> Good(u))
  {
    var e := Update(Spec(true, false, old_, true), false);
    FencedNext(t, e);
    if Good(t) {
      GoodNext(t, e);
    }
  }

  lemma {:induction false} PairedAfter(s: State, es: seq<Event>)
    requires WellFormed(s) && |s.servers| == 2 && Fenced(Paired(s)) && Legal(s, es)
    requires forall e | e in es :: SeenToFence(e)
    ensures Fenced(Paired(After(s, es)))
    ensures Good(Paired(s)) && (forall e | e in es :: Syncing(e)) ==> Good(Paired(After(s, es)))
    decreases |es|
  {
    if es != [] {
      assert es[0] in es;
      PairedNext(s, es[0]);
      PairedAfter(Next(s, es[0]), es[1..]);
    }
  }

  // ---- Runs that fail ----

  lemma TwoWriterRun(p: Observations, off: bool, s: State) returns (es: seq<Event>)
    requires Ready(s) && !Fences(p) && forall phase :: p(phase, true, true)
    ensures Possible(p, off, s, es) && !SingleWriter(After(s, es))
  {
    var a := CatchesUp(s);
    var b := UnreadyFenceMakesTwoWriters(After(s, a), p(SetReadOnly, false, true));
    Join(s, a, b);
    es := a + b;
  }

  lemma LosingFence(p: Observations, off: bool, s: State) returns (es: seq<Event>)
    requires Ready(s) && !Fences(p) && forall phase :: p(phase, true, true)
    ensures Possible(p, off, s, es) && !NothingLost(After(s, es))
  {
    var a := CatchesUp(s);
    var b := UnreadyFenceLosesWrites(After(s, a), p(SetReadOnly, false, true));
    Join(s, a, b);
    es := a + b;
  }

  // A write the target has not got yet, and an attempt that does not wait for it.
  lemma LosingWait(p: Observations, off: bool, s: State) returns (es: seq<Event>)
    requires Ready(s) && !Syncs(p) && forall phase :: p(phase, true, true)
    ensures Possible(p, off, s, es) && !NothingLost(After(s, es))
  {
    var e := Write(s.current, 0);
    WriteLags(s);
    Extend(s, [], e);
    var a := [] + [e];
    var sync := if p(WaitSync, true, false) then Seen(true, false) else Seen(false, p(WaitSync, false, true));
    var b := UnsyncedLosesWrites(After(s, a), sync);
    Join(s, a, b);
    es := a + b;
  }

  lemma WriteLags(s: State)
    requires Ready(s)
    ensures Enabled(s, Write(s.current, 0))
    ensures
      var m := Next(s, Write(s.current, 0));
      && Configured(m) && m.spec == s.spec && m.current == s.current
      && m.servers[m.spec.target].log != m.committed
  {
    assert Authority(s) == s.current && s.servers[s.spec.target].log <= s.committed;
    GoodNext(s, Write(s.current, 0));
    LockNext(s, Write(s.current, 0));
  }

  // An attempt that stops with its target open.
  lemma StopOpen(s: State) returns (es: seq<Event>)
    requires Ready(s)
    ensures Legal(s, es) && (forall e | e in es :: e.Replicate? || e.Stop? || Shaped(e, CLEAR, CLEAR))
    ensures |After(s, es).servers| == |s.servers| && StoppedOpen(After(s, es))
  {
    var a := CatchesUp(s);
    var b := StopOpenFrom(After(s, a));
    Join(s, a, b);
    es := a + b;
  }

  ghost predicate StoppedOpen(k: State) {
    Good(k) && LockOk(k) && k.switching && k.run.Idle? && CaughtUp(k) && Writable(k, k.spec.target)
  }

  lemma StopOpenFrom(m: State) returns (es: seq<Event>)
    requires Configured(m) && CaughtUp(m) && m.spec.replication && m.spec.target != m.current
    ensures Legal(m, es) && (forall e | e in es :: e.Stop? || Shaped(e, CLEAR, CLEAR))
    ensures |After(m, es).servers| == |m.servers| && StoppedOpen(After(m, es))
  {
    var b := RunToOpen(m, CLEAR, CLEAR);
    var u := After(m, b);
    assert forall e | e in b :: Planned(e) && Unlocking(e);
    GoodAfter(m, b);
    LockAfter(m, b);
    StopKeepsOpen(u);
    Extend(m, b, Stop(true));
    es := b + [Stop(true)];
  }

  lemma StopKeepsOpen(u: State)
    requires Good(u) && LockOk(u) && u.switching && u.run.Busy? && CaughtUp(u) && Writable(u, u.spec.target)
    ensures StoppedOpen(Next(u, Stop(true)))
  {
    GoodNext(u, Stop(true));
    LockNext(u, Stop(true));
  }

  // Stopped with its target open, and then thawed.
  lemma ThawRun(p: Observations, s: State) returns (es: seq<Event>)
    requires Ready(s) && |s.servers| > 2 && forall phase :: p(phase, true, true)
    ensures Possible(p, true, s, es) && !SingleWriter(After(s, es))
  {
    var a := StopOpen(s);
    var k := After(s, a);
    var other := Third(k.current, k.spec.target);
    var b := DisablingMakesTwoWriters(k, other);
    Join(s, a, b);
    es := a + b;
  }

  lemma LosingThaw(p: Observations, s: State) returns (es: seq<Event>)
    requires Ready(s) && |s.servers| > 2 && forall phase :: p(phase, true, true)
    ensures Possible(p, true, s, es) && !NothingLost(After(s, es))
  {
    var a := StopOpen(s);
    var k := After(s, a);
    var other := Third(k.current, k.spec.target);
    assert !k.servers[k.spec.target].locked && k.servers[other].log <= k.committed;
    var b := DisablingMakesTwoWriters(k, other);
    Join(s, a, b);
    var e := Write(k.spec.target, 0);
    Extend(s, a + b, e);
    es := a + b + [e];
    var u := After(s, es);
    assert Writable(u, other) && |u.committed| == |k.committed| + 1;
  }

  function Third(a: nat, b: nat): (c: nat)
    ensures c < 3 && c != a && c != b
  {
    if a != 0 && b != 0 then 0 else if a != 1 && b != 1 then 1 else 2
  }

  // ---- Exactly ----

  // Whatever may be observed in the other phases: every run from a configured cluster has a single writer
  // if and only if the old primary is always seen Ready when it is to be made read-only and, unless there
  // are only two servers, replication is never disabled during a switchover.
  lemma OneWriterExactly(p: Observations, off: bool, s: State)
    requires Configured(s) && |s.servers| > 1 && forall phase :: p(phase, true, true)
    ensures (forall es | Possible(p, off, s, es) :: SingleWriter(After(s, es))) <==>
            Fences(p) && (off ==> |s.servers| == 2)
  {
    if Fences(p) && (off ==> |s.servers| == 2) {
      forall es | Possible(p, off, s, es) ensures SingleWriter(After(s, es)) {
        OneWriter(p, off, s, es);
      }
    } else {
      var a := Prepare(s);
      var m := After(s, a);
      var b;
      if Fences(p) {
        b := ThawRun(p, m);
      } else {
        b := TwoWriterRun(p, off, m);
      }
      PossibleJoin(p, off, s, a, b);
    }
  }

  lemma OneWriter(p: Observations, off: bool, s: State, es: seq<Event>)
    requires Configured(s) && Possible(p, off, s, es) && Fences(p) && (off ==> |s.servers| == 2)
    ensures SingleWriter(After(s, es))
  {
    assert forall e | e in es :: Permits(p, off, e) && SeenToFence(e);
    if off {
      PairedStart(s);
      PairedAfter(s, es);
      var q := Paired(After(s, es));
      assert forall i: nat :: Writable(After(s, es), i) ==> i < |q.servers| && !q.servers[i].readOnly;
    } else {
      FencingRunsHaveOneWriter(s, es);
    }
  }

  // And no write is lost if and only if, besides, it is always seen Ready and scanned when it is to be
  // waited for.
  lemma NothingLostExactly(p: Observations, off: bool, s: State)
    requires Configured(s) && |s.servers| > 1 && forall phase :: p(phase, true, true)
    ensures (forall es | Possible(p, off, s, es) :: NothingLost(After(s, es))) <==>
            Fences(p) && Syncs(p) && (off ==> |s.servers| == 2)
  {
    if Fences(p) && Syncs(p) && (off ==> |s.servers| == 2) {
      forall es | Possible(p, off, s, es) ensures NothingLost(After(s, es)) {
        AllKept(p, off, s, es);
      }
    } else {
      var a := Prepare(s);
      var m := After(s, a);
      var b;
      if !Fences(p) {
        b := LosingFence(p, off, m);
      } else if !Syncs(p) {
        b := LosingWait(p, off, m);
      } else {
        b := LosingThaw(p, m);
      }
      PossibleJoin(p, off, s, a, b);
    }
  }

  lemma AllKept(p: Observations, off: bool, s: State, es: seq<Event>)
    requires Configured(s) && Possible(p, off, s, es) && Fences(p) && Syncs(p) && (off ==> |s.servers| == 2)
    ensures NothingLost(After(s, es))
  {
    assert forall e | e in es :: Permits(p, off, e) && SeenToFence(e) && Syncing(e);
    if off {
      PairedStart(s);
      PairedAfter(s, es);
      var q := Paired(After(s, es));
      assert forall i: nat :: Writable(q, i) ==> i == Authority(q);
      assert forall i: nat :: Writable(After(s, es), i) ==> Writable(q, i);
    } else {
      PlannedRunsAreSafe(s, es);
    }
  }

  lemma PossibleJoin(p: Observations, off: bool, s: State, a: seq<Event>, b: seq<Event>)
    requires WellFormed(s) && Legal(s, a) && (forall e | e in a :: Preparing(e)) && Possible(p, off, After(s, a), b)
    ensures Possible(p, off, s, a + b) && After(s, a + b) == After(After(s, a), b)
  {
    Join(s, a, b);
  }
}
