/** Runs outside of the planned ones: each assumption of the safety theorem is needed, on every cluster. */
module SwitchoverLimits {
  import opened Replication
  import opened Switchover
  import opened SwitchoverSafety

  lemma {:induction false} Join(s: State, a: seq<Event>, b: seq<Event>)
    requires WellFormed(s) && Legal(s, a) && Legal(After(s, a), b)
    ensures Legal(s, a + b) && After(s, a + b) == After(After(s, a), b)
    decreases |a|
  {
    if a == [] {
      assert a + b == b;
    } else {
      assert (a + b)[1..] == a[1..] + b;
      Join(Next(s, a[0]), a[1..], b);
    }
  }

  // ---- Letting a goroutine run undisturbed ----

  function Repeat(i: nat, k: nat): seq<Event> {
    if k == 0 then [] else [Step(i)] + Repeat(i, k - 1)
  }

  function Drained(s: State, i: nat, k: nat): (t: State)
    requires WellFormed(s) && s.run.Busy? && i < |s.servers| && k <= |s.run.procs[i].rest|
    ensures WellFormed(t)
  {
    var p := s.run.procs[i];
    s.(servers := s.servers[i := ExecAll(p.rest[..k], s.servers[i])],
       run := s.run.(procs := s.run.procs[i := p.(rest := p.rest[k..])]))
  }

  // Nothing among the first k commands has to be waited for.
  ghost predicate Free(s: State, i: nat, k: nat)
    requires WellFormed(s) && s.run.Busy? && i < |s.servers| && k <= |s.run.procs[i].rest|
  {
    forall j | 0 <= j < k :: s.run.procs[i].rest[j].WaitGtid? ==> s.run.procs[i].rest[j].pos <= |s.servers[i].log|
  }

  lemma ExecAllPrefix(cs: seq<Command>, k: nat, x: Server)
    requires 0 < k <= |cs|
    ensures ExecAll(cs[..k], x) == ExecAll(cs[1..][..k - 1], Exec(cs[0], x))
  {
    assert cs[..k][0] == cs[0] && cs[..k][1..] == cs[1..][..k - 1];
  }

  lemma DrainedStep(s: State, i: nat, k: nat)
    requires WellFormed(s) && Enabled(s, Step(i)) && 0 < k <= |s.run.procs[i].rest|
    ensures Drained(Next(s, Step(i)), i, k - 1) == Drained(s, i, k)
  {
    var rest := s.run.procs[i].rest;
    ExecAllPrefix(rest, k, s.servers[i]);
    var x := Exec(rest[0], s.servers[i]);
    assert rest[1..][k - 1..] == rest[k..];
    var t := Next(s, Step(i));
    assert t.servers[i] == x && t.run.procs[i].rest == rest[1..];
    assert Drained(t, i, k - 1).servers == Drained(s, i, k).servers;
    assert Drained(t, i, k - 1).run.procs == Drained(s, i, k).run.procs;
  }

  lemma DrainedZero(s: State, i: nat)
    requires WellFormed(s) && s.run.Busy? && i < |s.servers|
    ensures Drained(s, i, 0) == s
  {
    assert s.run.procs[i].rest[..0] == [];
    assert Drained(s, i, 0).servers == s.servers && Drained(s, i, 0).run.procs == s.run.procs;
  }

  lemma FreeNext(s: State, i: nat, k: nat)
    requires WellFormed(s) && s.run.Busy? && i < |s.servers| && 0 < k <= |s.run.procs[i].rest| && Free(s, i, k)
    ensures Enabled(s, Step(i))
    ensures
      var t := Next(s, Step(i));
      t.run.Busy? && k - 1 <= |t.run.procs[i].rest| && Free(t, i, k - 1)
  {
    ExecSwitches(s.run.procs[i].rest[0], s.servers[i]);
  }

  lemma {:induction false} Drain(s: State, i: nat, k: nat)
    requires WellFormed(s) && s.run.Busy? && i < |s.servers| && k <= |s.run.procs[i].rest| && Free(s, i, k)
    ensures Legal(s, Repeat(i, k)) && After(s, Repeat(i, k)) == Drained(s, i, k)
    decreases k
  {
    if k == 0 {
      DrainedZero(s, i);
    } else {
      FreeNext(s, i, k);
      Drain(Next(s, Step(i)), i, k - 1);
      DrainedStep(s, i, k);
      assert Repeat(i, k)[0] == Step(i) && Repeat(i, k)[1..] == Repeat(i, k - 1);
    }
  }

  lemma {:induction false} ExecAllKeeps(cs: seq<Command>, x: Server)
    ensures ExecAll(cs, x).log == x.log
    ensures (forall c | c in cs :: !c.DisableReadOnly? && !c.EnableReadOnly?) ==> ExecAll(cs, x).readOnly == x.readOnly
    ensures (forall c | c in cs :: !c.LockTables? && !c.UnlockTables?) ==> ExecAll(cs, x).locked == x.locked
    ensures (forall c | c in cs :: !c.ResetMaster?) ==> ExecAll(cs, x).binlog == x.binlog
    decreases |cs|
  {
    if cs != [] {
      ExecSwitches(cs[0], x);
      assert cs[0] in cs;
      ExecAllKeeps(cs[1..], Exec(cs[0], x));
    }
  }

  // u is s, further into the same phase: the data is the same and nothing was opened.
  ghost predicate Later(s: State, u: State) {
    && WellFormed(s) && WellFormed(u) && s.run.Busy? && u.run.Busy? && |u.servers| == |s.servers|
    && u == s.(servers := u.servers, run := s.run.(procs := u.run.procs))
    && (forall i | 0 <= i < |s.servers| :: u.servers[i].log == s.servers[i].log)
  }

  // The goroutines of a phase run to their end, one after the other, when nothing has to be waited for.
  lemma {:induction false} DrainAll(s: State, n: nat) returns (es: seq<Event>)
    requires WellFormed(s) && s.run.Busy? && n <= |s.servers|
    requires forall i | 0 <= i < n :: !s.run.procs[i].doomed && Free(s, i, |s.run.procs[i].rest|)
    ensures Legal(s, es) && (forall e | e in es :: e.Step?)
    ensures
      var t := After(s, es);
      && t.run.Busy? && t == s.(servers := t.servers, run := s.run.(procs := t.run.procs))
      && (forall i | 0 <= i < |s.servers| ::
            t.servers[i] == if i < n then ExecAll(s.run.procs[i].rest, s.servers[i]) else s.servers[i])
      && (forall i | 0 <= i < |s.servers| :: t.run.procs[i] == if i < n then DONE else s.run.procs[i])
    decreases n
  {
    es := [];
    if n > 0 {
      var a := DrainAll(s, n - 1);
      var m := After(s, a);
      var i := n - 1;
      var rest := s.run.procs[i].rest;
      Drain(m, i, |rest|);
      assert rest[..|rest|] == rest && rest[|rest|..] == [];
      RepeatSteps(i, |rest|);
      Join(s, a, Repeat(i, |rest|));
      es := a + Repeat(i, |rest|);
    }
  }

  lemma {:induction false} RepeatSteps(i: nat, k: nat)
    ensures forall e | e in Repeat(i, k) :: e.Step?
    decreases k
  {
    if k > 0 { RepeatSteps(i, k - 1); }
  }

  lemma OpenPrefix(order: seq<Setting>, x: Server)
    ensures !ExecAll(PrimaryScript(order)[..4], x).readOnly
  {
    var cs := [StopAllSlaves, ResetAllSlaves, ResetSlavePos];
    assert PrimaryScript(order)[..4] == cs + [DisableReadOnly];
    ExecAllConcat(cs, [DisableReadOnly], x);
    ExecTwo(DisableReadOnly, DisableReadOnly, ExecAll(cs, x));
  }

  // From the start of the fourth phase, four commands open the new primary and touch no other server.
  lemma Opens(s: State, order: seq<Setting>)
    requires WellFormed(s) && s.run.Busy? && s.run.procs[s.run.to].rest == PrimaryScript(order)
    ensures Legal(s, Repeat(s.run.to, 4)) && Later(s, After(s, Repeat(s.run.to, 4)))
    ensures Writable(After(s, Repeat(s.run.to, 4)), s.run.to)
    ensures forall i | 0 <= i < |s.servers| && i != s.run.to :: After(s, Repeat(s.run.to, 4)).servers[i] == s.servers[i]
  {
    Drain(s, s.run.to, 4);
    OpenPrefix(order, s.servers[s.run.to]);
    ExecAllKeeps(PrimaryScript(order)[..4], s.servers[s.run.to]);
  }

  // ---- An undisturbed attempt, with chosen observations where the old primary is fenced and waited for ----

  datatype Seen = Seen(ready: bool, scanned: bool)

  const CLEAR := Seen(true, true)

  predicate Shaped(e: Event, fence: Seen, sync: Seen) {
    match e
    case Step(_) => true
    case Start(obs) => obs.ready && obs.scanned
    case NextPhase(phase, obs) =>
      Seen(obs.ready, obs.scanned) == if phase == SetReadOnly then fence else if phase == WaitSync then sync else CLEAR
    case _ => false
  }

  function Move(s: State, seen: Seen): (e: Event)
    requires WellFormed(s) && s.run.Busy? && s.run.phase != Sweep && s.run.phase != ChangePrimary && AllDone(s.run.procs)
    ensures Enabled(s, e)
  {
    NextPhase(Successor(s.run.phase), Sight(s, Successor(s.run.phase), s.run.to, seen.ready, seen.scanned))
  }

  // The position the replicas are told to wait for.
  function Position(s: State, sync: Seen): nat
    requires WellFormed(s)
  {
    if sync == CLEAR then s.servers[s.current].binlog else 0
  }

  // What the first two moves hand out.
  function Handed(s: State, phase: Phase, seen: Seen, i: nat): seq<Command>
    requires WellFormed(s)
  {
    if phase == SetReadOnly then if i == s.current && seen.ready then [EnableReadOnly] else []
    else if i != s.current && seen.ready then SyncScript(Position(s, seen)) else []
  }

  lemma MoveHands(s: State, seen: Seen)
    requires WellFormed(s) && s.run.Busy? && s.run.phase in {LockPrimary, SetReadOnly} && AllDone(s.run.procs)
    ensures
      var u := Next(s, Move(s, seen));
      && u == s.(run := u.run) && u.run.Busy? && u.run.phase == Successor(s.run.phase) && u.run.to == s.run.to
      && forall i | 0 <= i < |u.run.procs| :: u.run.procs[i] == Proc(Handed(u, u.run.phase, seen, i), false)
  {
  }

  // The old primary's command of a phase, if there is one.
  lemma FinishPhase(s: State, es: seq<Event>) returns (fs: seq<Event>)
    requires WellFormed(s) && Legal(s, es)
    requires
      var m := After(s, es);
      && m.run.Busy?
      && (forall i | 0 <= i < |m.run.procs| && i != m.current :: m.run.procs[i] == DONE)
      && m.run.procs[m.current] in {DONE, Proc([LockTables], false), Proc([EnableReadOnly], false)}
    ensures Legal(s, fs) && (forall e | e in fs :: e in es || e.Step?)
    ensures
      var m, k := After(s, es), After(s, fs);
      && k.run.Busy? && k == m.(servers := k.servers, run := m.run.(procs := k.run.procs)) && AllDone(k.run.procs)
      && k.servers == m.servers[m.current := ExecAll(m.run.procs[m.current].rest, m.servers[m.current])]
  {
    var m := After(s, es);
    var rest := m.run.procs[m.current].rest;
    fs := es;
    if rest != [] {
      Extend(s, es, Step(m.current));
      fs := es + [Step(m.current)];
      assert rest[1..] == [];
      ExecTwo(rest[0], rest[0], m.servers[m.current]);
    } else {
      assert m.servers == m.servers[m.current := ExecAll(rest, m.servers[m.current])];
    }
  }

  // And the move to the next phase.
  lemma Advance(s: State, es: seq<Event>, seen: Seen) returns (fs: seq<Event>)
    requires WellFormed(s) && Legal(s, es)
    requires
      var m := After(s, es);
      && m.run.Busy? && m.run.phase in {LockPrimary, SetReadOnly}
      && (forall i | 0 <= i < |m.run.procs| && i != m.current :: m.run.procs[i] == DONE)
      && m.run.procs[m.current] in {DONE, Proc([LockTables], false), Proc([EnableReadOnly], false)}
    ensures Legal(s, fs)
    ensures
      var m, u := After(s, es), After(s, fs);
      && u == m.(servers := u.servers, run := u.run)
      && u.servers == m.servers[m.current := ExecAll(m.run.procs[m.current].rest, m.servers[m.current])]
      && u.run.Busy? && u.run.phase == Successor(m.run.phase) && u.run.to == m.run.to
      && forall i | 0 <= i < |u.run.procs| :: u.run.procs[i] == Proc(Handed(u, u.run.phase, seen, i), false)
    ensures forall e | e in fs ::
              || e in es || e.Step?
              || (e.NextPhase? && e.phase == Successor(After(s, es).run.phase) && Seen(e.obs.ready, e.obs.scanned) == seen)
  {
    fs := FinishPhase(s, es);
    var k := After(s, fs);
    MoveHands(k, seen);
    Extend(s, fs, Move(k, seen));
    fs := fs + [Move(k, seen)];
  }

  // u is s in the middle of an attempt: the same writes, the same data, and the same servers open and
  // locked but for the two primaries.
  ghost predicate Along(s: State, u: State) {
    && WellFormed(s) && WellFormed(u) && |u.servers| == |s.servers| && u.current == s.current
    && u.committed == s.committed && u.spec == s.spec && u.switching && u.run.Busy? && u.run.to == s.spec.target
    && u.servers[s.current].binlog == s.servers[s.current].binlog
    && (forall i | 0 <= i < |s.servers| :: u.servers[i].log == s.servers[i].log)
    && (forall i | 0 <= i < |s.servers| && i != s.current && i != s.spec.target ::
          u.servers[i].readOnly == s.servers[i].readOnly && u.servers[i].locked == s.servers[i].locked)
  }

  lemma RunToSync(s: State, fence: Seen, sync: Seen) returns (es: seq<Event>)
    requires WellFormed(s) && s.spec.replication && s.run.Idle? && s.spec.target != s.current
    ensures Legal(s, es) && (forall e | e in es :: Shaped(e, fence, sync))
    ensures
      var u := After(s, es);
      && Along(s, u) && u.run.phase == WaitSync
      && u.servers[u.current].readOnly == (s.servers[s.current].readOnly || fence.ready)
      && forall i | 0 <= i < |u.servers| ::
           u.run.procs[i] == DONE || u.run.procs[i] == Proc(SyncScript(Position(s, sync)), false)
  {
    es := RunToFence(s, fence, sync);
    var k := After(s, es);
    es := Advance(s, es, sync);
    ExecTwo(EnableReadOnly, EnableReadOnly, k.servers[s.current]);
  }

  lemma RunToFence(s: State, fence: Seen, sync: Seen) returns (es: seq<Event>)
    requires WellFormed(s) && s.spec.replication && s.run.Idle? && s.spec.target != s.current
    ensures Legal(s, es) && (forall e | e in es :: Shaped(e, fence, sync))
    ensures
      var u := After(s, es);
      && u == s.(servers := u.servers, switching := true, run := u.run)
      && u.servers == s.servers[s.current := s.servers[s.current].(locked := true)]
      && u.run.Busy? && u.run.phase == SetReadOnly && u.run.to == s.spec.target
      && forall i | 0 <= i < |u.servers| :: u.run.procs[i] == Proc(Handed(u, SetReadOnly, fence, i), false)
  {
    var e := Start(Sight(s, LockPrimary, s.spec.target, true, true));
    Extend(s, [], e);
    es := [] + [e];
    es := Advance(s, es, fence);
    ExecTwo(LockTables, LockTables, s.servers[s.current]);
  }

  // The same data, and the same servers open and locked.
  ghost predicate SameBut(w: State, u: State, but: int) {
    && |u.servers| == |w.servers| && (forall i | 0 <= i < |w.servers| :: u.servers[i].log == w.servers[i].log)
    && forall i | 0 <= i < |w.servers| && i != but ::
         && u.servers[i].readOnly == w.servers[i].readOnly && u.servers[i].locked == w.servers[i].locked
         && u.servers[i].binlog == w.servers[i].binlog
  }

  lemma ExecSync(gtid: nat, x: Server)
    ensures
      var y := ExecAll(SyncScript(gtid), x);
      y.log == x.log && y.readOnly == x.readOnly && y.locked == x.locked && y.binlog == x.binlog
  {
    ExecAllKeeps(SyncScript(gtid), x);
  }

  // Every server that waits has reached the position.
  ghost predicate Syncable(w: State, gtid: nat) {
    && WellFormed(w) && w.run.Busy? && w.run.phase == WaitSync
    && (forall i | 0 <= i < |w.servers| :: w.run.procs[i] == DONE || w.run.procs[i] == Proc(SyncScript(gtid), false))
    && (forall i | 0 <= i < |w.servers| :: gtid <= |w.servers[i].log|)
  }

  lemma DrainSync(w: State, gtid: nat) returns (es: seq<Event>)
    requires Syncable(w, gtid)
    ensures Legal(w, es) && (forall e | e in es :: e.Step?)
    ensures
      var t := After(w, es);
      && t.run.Busy? && t == w.(servers := t.servers, run := w.run.(procs := t.run.procs))
      && AllDone(t.run.procs) && SameBut(w, t, -1)
  {
    forall i | 0 <= i < |w.servers| ensures !w.run.procs[i].doomed && Free(w, i, |w.run.procs[i].rest|) {
      assert w.run.procs[i].rest == [] || w.run.procs[i].rest == SyncScript(gtid);
    }
    es := DrainAll(w, |w.servers|);
    forall i | 0 <= i < |w.servers| {
      ExecSync(gtid, w.servers[i]);
    }
  }

  lemma SyncAndMove(s: State, fs: seq<Event>, gtid: nat) returns (es: seq<Event>)
    requires WellFormed(s) && Legal(s, fs) && Syncable(After(s, fs), gtid)
    ensures Legal(s, es)
    ensures
      var w, u := After(s, fs), After(s, es);
      && u == w.(servers := u.servers, run := u.run) && u.run.Busy? && u.run.to == w.run.to && SameBut(w, u, -1)
      && u.run.procs[u.run.to].rest == PrimaryScript(PrimarySettings(u.run.to))
    ensures forall e | e in es :: e in fs || e.Step? ||
              (e.NextPhase? && e.phase == ConfigureNew && Seen(e.obs.ready, e.obs.scanned) == CLEAR)
  {
    var ds := DrainSync(After(s, fs), gtid);
    Join(s, fs, ds);
    es := fs + ds;
    var e := Move(After(s, es), CLEAR);
    Extend(s, es, e);
    es := es + [e];
  }

  lemma SyncAndOpen(s: State, fs: seq<Event>, gtid: nat) returns (es: seq<Event>)
    requires WellFormed(s) && Legal(s, fs) && Syncable(After(s, fs), gtid)
    ensures Legal(s, es)
    ensures
      var w, u := After(s, fs), After(s, es);
      && u == w.(servers := u.servers, run := u.run) && u.run.Busy? && u.run.to == w.run.to
      && SameBut(w, u, w.run.to) && Writable(u, w.run.to)
    ensures forall e | e in es :: e in fs || e.Step? ||
              (e.NextPhase? && e.phase == ConfigureNew && Seen(e.obs.ready, e.obs.scanned) == CLEAR)
  {
    es := SyncAndMove(s, fs, gtid);
    var o := After(s, es);
    Opens(o, PrimarySettings(o.run.to));
    Join(s, es, Repeat(o.run.to, 4));
    RepeatSteps(o.run.to, 4);
    es := es + Repeat(o.run.to, 4);
  }

  // Up to the point where the new primary is open, when every server has reached the position that was
  // read.
  lemma RunToOpen(s: State, fence: Seen, sync: Seen) returns (es: seq<Event>)
    requires WellFormed(s) && s.spec.replication && s.run.Idle? && s.spec.target != s.current
    requires forall i | 0 <= i < |s.servers| :: Position(s, sync) <= |s.servers[i].log|
    ensures Legal(s, es) && (forall e | e in es :: Shaped(e, fence, sync))
    ensures
      var u := After(s, es);
      && Along(s, u) && Writable(u, s.spec.target)
      && u.servers[u.current].readOnly == (s.servers[s.current].readOnly || fence.ready)
  {
    es := RunToSync(s, fence, sync);
    es := SyncAndOpen(s, es, Position(s, sync));
  }

  // ---- One bad observation is enough ----

  // Every server has reached the primary's position.
  ghost predicate CaughtUp(s: State) {
    WellFormed(s) && forall i | 0 <= i < |s.servers| :: s.servers[s.current].binlog <= |s.servers[i].log|
  }

  // An old primary that is not seen Ready when it is to be made read-only stays writable: on every
  // configured cluster that has caught up, an attempt with only that fault makes two writers.
  lemma UnreadyFenceMakesTwoWriters(s: State, scanned: bool) returns (es: seq<Event>)
    requires Configured(s) && CaughtUp(s) && Writable(s, s.current) && s.spec.replication && s.spec.target != s.current
    ensures Legal(s, es) && !SingleWriter(After(s, es))
    ensures forall e | e in es :: Shaped(e, Seen(false, scanned), CLEAR)
  {
    es := RunToOpen(s, Seen(false, scanned), CLEAR);
    var u := After(s, es);
    assert Writable(u, s.current) && Writable(u, s.spec.target);
  }

  // And once the attempt has stopped, the old primary accepts a write the new one never gets.
  lemma UnreadyFenceLosesWrites(s: State, scanned: bool) returns (es: seq<Event>)
    requires Configured(s) && CaughtUp(s) && Writable(s, s.current) && s.spec.replication && s.spec.target != s.current
    ensures Legal(s, es) && !NothingLost(After(s, es))
    ensures forall e | e in es :: Shaped(e, Seen(false, scanned), CLEAR) || e.Stop? || e.Write?
  {
    es := RunToOpen(s, Seen(false, scanned), CLEAR);
    Extend(s, es, Stop(true));
    es := es + [Stop(true)];
    Extend(s, es, Write(s.current, 0));
    es := es + [Write(s.current, 0)];
    var u := After(s, es);
    assert |u.committed| == |s.committed| + 1;
    assert Writable(u, s.spec.target) && u.servers[s.spec.target].log == s.servers[s.spec.target].log;
  }

  // When the old primary is not seen Ready, or the scan of gtid_binlog_pos fails and the empty position
  // it is taken for is reached at once, nobody is waited for: on every configured cluster whose target
  // lags behind, an attempt with only that fault opens a primary that misses a committed write.
  lemma UnsyncedLosesWrites(s: State, sync: Seen) returns (es: seq<Event>)
    requires Configured(s) && s.spec.replication && s.spec.target != s.current
    requires s.servers[s.spec.target].log != s.committed && sync != CLEAR
    ensures Legal(s, es) && !NothingLost(After(s, es))
    ensures forall e | e in es :: Shaped(e, CLEAR, sync)
  {
    es := RunToOpen(s, CLEAR, sync);
    assert Writable(After(s, es), s.spec.target);
  }

  // ---- Disabling replication ----

  // Replication off, target moved, replication on again: each update is admitted.
  lemma Thaw(s: State, other: nat) returns (es: seq<Event>)
    requires WellFormed(s) && s.spec.replication && other < |s.servers| && |s.servers| > 1
    ensures Legal(s, es) && After(s, es) == s.(spec := s.spec.(galera := false, target := other))
    ensures forall e | e in es :: e.Update?
  {
    var off := s.spec.(replication := false, galera := true);
    var moved := off.(target := other);
    var on := s.spec.(galera := false, target := other);
    Extend(s, [], Update(off, s.switching));
    var a := [] + [Update(off, s.switching)];
    Extend(s, a, Update(moved, s.switching));
    var b := a + [Update(moved, s.switching)];
    Extend(s, b, Update(on, s.switching));
    es := b + [Update(on, s.switching)];
  }

  // Disabling replication in mid-switchover thaws the target: from every state in which a stopped
  // attempt left its target open, whether or not that has taken writes, three admitted updates and a
  // planned attempt for a third server make two writers.
  lemma DisablingMakesTwoWriters(s: State, other: nat) returns (es: seq<Event>)
    requires Good(s) && s.switching && s.run.Idle? && Writable(s, s.spec.target)
    requires other < |s.servers| && other != s.current && other != s.spec.target && CaughtUp(s)
    ensures Legal(s, es) && !SingleWriter(After(s, es))
    ensures
      var u := After(s, es);
      && |u.servers| == |s.servers| && u.committed == s.committed && Writable(u, other) && Writable(u, s.spec.target)
      && u.servers[other].log == s.servers[other].log && u.servers[s.spec.target].locked == s.servers[s.spec.target].locked
    ensures forall e | e in es :: e.Update? || Shaped(e, CLEAR, CLEAR)
  {
    var us := Thaw(s, other);
    var v := After(s, us);
    var rs := RunToOpen(v, CLEAR, CLEAR);
    Join(s, us, rs);
    es := us + rs;
    var u := After(s, es);
    assert Writable(u, other) && Writable(u, s.spec.target);
  }
}
