/** The servers of a semi-synchronous replication cluster and the SQL scripts the operator runs on them.

    A server keeps the settings the operator changes, the transactions it holds and the position its
    binary log reports. A script is the ordered list of commands one goroutine still has to run.
 */
module Replication {
  import opened Optional

  datatype Server = Server(
    readOnly: bool,
    locked: bool,
    semiMaster: bool,
    semiSlave: bool,
    serverId: nat,
    master: Option<nat>,    // index of the host the replication connection points at
    slaveRunning: bool,
    log: seq<nat>,          // transactions the server holds, oldest first
    binlog: nat,            // gtid_binlog_pos, 0 when the binary log is empty
    slavePos: nat,          // gtid_slave_pos, 0 when it is empty
    accounts: bool          // the accounts and databases of a primary were created
  )

  // The settings part of a server: everything but the data.
  datatype Config = Config(
    readOnly: bool, locked: bool, semiMaster: bool, semiSlave: bool, serverId: nat,
    master: Option<nat>, slaveRunning: bool)

  function ConfigOf(s: Server): Config {
    Config(s.readOnly, s.locked, s.semiMaster, s.semiSlave, s.serverId, s.master, s.slaveRunning)
  }

  // System variables. Those that play no part in roles (sync_binlog, the master timeout, the wait
  // point) are Other.
  datatype Setting = SemiMaster(on: bool) | SemiSlave(on: bool) | ServerId(id: nat) | Other(name: string)

  datatype Command =
    | LockTables
    | UnlockTables
    | EnableReadOnly
    | DisableReadOnly
    | WaitGtid(pos: nat)
    | StopAllSlaves
    | ResetAllSlaves
    | ResetSlavePos
    | StartSlave
    | ResetMaster
    | ChangeMaster(host: nat)
    | PrimarySql
    | Set(setting: Setting)

  function Apply(c: Setting, s: Server): Server {
    match c
    case SemiMaster(on) => s.(semiMaster := on)
    case SemiSlave(on) => s.(semiSlave := on)
    case ServerId(id) => s.(serverId := id)
    case Other(_) => s
  }

  // The effect of a command on the server it runs on. PrimarySql creates accounts and databases: its
  // transactions are ordinary writes of a writable server.
  function Exec(c: Command, s: Server): Server {
    match c
    case LockTables => s.(locked := true)
    case UnlockTables => s.(locked := false)
    case EnableReadOnly => s.(readOnly := true)
    case DisableReadOnly => s.(readOnly := false)
    case StopAllSlaves => s.(slaveRunning := false)
    case ResetAllSlaves => s.(master := None, slaveRunning := false)
    case StartSlave => s.(slaveRunning := s.master.Some?)
    case ResetMaster => s.(binlog := 0)
    case ChangeMaster(host) => s.(master := Some(host))
    case Set(setting) => Apply(setting, s)
    case WaitGtid(_) => s
    case ResetSlavePos => s.(slavePos := 0)
    case PrimarySql => s.(accounts := true)
  }

  function ExecAll(cs: seq<Command>, s: Server): Server {
    if cs == [] then s else ExecAll(cs[1..], Exec(cs[0], s))
  }

  // ---- Scripts ----

  function SERVER_ID(index: nat): nat { 10 + index }

  function PrimarySettings(index: nat): seq<Setting> {
    [SemiMaster(true), SemiSlave(false), ServerId(SERVER_ID(index))]
  }

  function ReplicaSettings(index: nat): seq<Setting> {
    [SemiMaster(false), SemiSlave(true), ServerId(SERVER_ID(index))]
  }

  // The variables are set while iterating over a map, so in any order.
  predicate IsOrder(order: seq<Setting>, required: seq<Setting>) {
    && (forall r | r in required :: r in order)
    && (forall s | s in order :: s in required || s.Other?)
  }

  function Sets(order: seq<Setting>): (cs: seq<Command>)
    ensures |cs| == |order|
    ensures forall k | 0 <= k < |cs| :: cs[k] == Set(order[k])
  {
    seq(|order|, k requires 0 <= k < |order| => Set(order[k]))
  }

  const OPEN: seq<Command> := [StopAllSlaves, ResetAllSlaves, ResetSlavePos, DisableReadOnly, PrimarySql]

  function PrimaryScript(order: seq<Setting>): seq<Command> {
    OPEN + Sets(order)
  }

  function Fence(resetSlavePos: bool): seq<Command> {
    [ResetMaster, StopAllSlaves] + (if resetSlavePos then [ResetSlavePos] else []) + [EnableReadOnly]
  }

  function ReplicaScript(primary: nat, resetSlavePos: bool, order: seq<Setting>): seq<Command> {
    Fence(resetSlavePos) + Sets(order) + [ChangeMaster(primary), StartSlave]
  }

  const RESET_SLAVE: seq<Command> := [StopAllSlaves, ResetSlavePos, StartSlave]

  function SyncScript(gtid: nat): seq<Command> { [WaitGtid(gtid)] + RESET_SLAVE }

  // ---- What complete scripts achieve, from any starting point ----

  function PrimaryConfig(index: nat): Config {
    Config(false, false, true, false, SERVER_ID(index), None, false)
  }

  function ReplicaConfig(index: nat, primary: nat): Config {
    Config(true, false, false, true, SERVER_ID(index), Some(primary), true)
  }

  lemma {:induction false} ExecAllConcat(a: seq<Command>, b: seq<Command>, s: Server)
    ensures ExecAll(a + b, s) == ExecAll(b, ExecAll(a, s))
  {
    if a == [] {
      assert a + b == b;
    } else {
      assert (a + b)[1..] == a[1..] + b;
      ExecAllConcat(a[1..], b, Exec(a[0], s));
    }
  }

  lemma ExecTwo(a: Command, b: Command, s: Server)
    ensures ExecAll([b], s) == Exec(b, s)
    ensures ExecAll([a, b], s) == Exec(b, Exec(a, s))
  {
    assert ExecAll([b], s) == ExecAll([], Exec(b, s));
    assert [a, b][1..] == [b];
    assert ExecAll([b], Exec(a, s)) == ExecAll([], Exec(b, Exec(a, s)));
  }

  lemma ExecDetach(s: Server)
    ensures ExecAll([StopAllSlaves, ResetAllSlaves], s) == s.(slaveRunning := false, master := None)
  {
    ExecTwo(StopAllSlaves, ResetAllSlaves, s);
  }

  lemma ExecUnprotect(s: Server)
    ensures ExecAll([ResetSlavePos, DisableReadOnly] + [PrimarySql], s)
         == s.(slavePos := 0, readOnly := false, accounts := true)
  {
    ExecAllConcat([ResetSlavePos, DisableReadOnly], [PrimarySql], s);
    ExecTwo(ResetSlavePos, DisableReadOnly, s);
    ExecTwo(PrimarySql, PrimarySql, s.(slavePos := 0, readOnly := false));
  }

  // A server that replicates from nobody, takes writes and has a primary's accounts.
  function Opened(s: Server): Server {
    s.(slaveRunning := false, master := None, slavePos := 0, readOnly := false, accounts := true)
  }

  lemma ExecOpen(s: Server)
    ensures ExecAll(OPEN, s) == Opened(s)
  {
    assert OPEN == [StopAllSlaves, ResetAllSlaves] + ([ResetSlavePos, DisableReadOnly] + [PrimarySql]);
    ExecAllConcat([StopAllSlaves, ResetAllSlaves], [ResetSlavePos, DisableReadOnly] + [PrimarySql], s);
    ExecDetach(s);
    ExecUnprotect(s.(slaveRunning := false, master := None));
  }

  // A server that takes no writes and replicates nothing, with an empty binary log.
  function WriteProtected(reset: bool, s: Server): Server {
    s.(binlog := 0, slaveRunning := false, readOnly := true, slavePos := if reset then 0 else s.slavePos)
  }

  lemma ExecFence(reset: bool, s: Server)
    ensures ExecAll(Fence(reset), s) == WriteProtected(reset, s)
  {
    var rest := (if reset then [ResetSlavePos] else []) + [EnableReadOnly];
    assert Fence(reset) == [ResetMaster, StopAllSlaves] + rest;
    ExecAllConcat([ResetMaster, StopAllSlaves], rest, s);
    ExecTwo(ResetMaster, StopAllSlaves, s);
    ExecTwo(ResetSlavePos, EnableReadOnly, s.(binlog := 0, slaveRunning := false));
    assert rest == if reset then [ResetSlavePos, EnableReadOnly] else [EnableReadOnly];
  }

  // From s to t only the three role variables change, and each ends at the value the settings name for
  // it, or where it was.
  predicate Ends(order: seq<Setting>, m: bool, sl: bool, id: nat, s: Server, t: Server) {
    && t == s.(semiMaster := t.semiMaster, semiSlave := t.semiSlave, serverId := t.serverId)
    && (SemiMaster(m) in order || s.semiMaster == m ==> t.semiMaster == m)
    && (SemiSlave(sl) in order || s.semiSlave == sl ==> t.semiSlave == sl)
    && (ServerId(id) in order || s.serverId == id ==> t.serverId == id)
  }

  lemma EndsCons(x: Setting, rest: seq<Setting>, m: bool, sl: bool, id: nat, s: Server, t: Server)
    requires x in [SemiMaster(m), SemiSlave(sl), ServerId(id)] || x.Other?
    requires Ends(rest, m, sl, id, Apply(x, s), t)
    ensures Ends([x] + rest, m, sl, id, s, t)
  {
    var u := Apply(x, s);
    match x
    case SemiMaster(_) => assert u == s.(semiMaster := m);
    case SemiSlave(_) => assert u == s.(semiSlave := sl);
    case ServerId(_) => assert u == s.(serverId := id);
    case Other(_) => assert u == s;
  }

  lemma {:induction false} ExecSets(order: seq<Setting>, m: bool, sl: bool, id: nat, s: Server)
    requires forall x | x in order :: x in [SemiMaster(m), SemiSlave(sl), ServerId(id)] || x.Other?
    ensures Ends(order, m, sl, id, s, ExecAll(Sets(order), s))
  {
    if order != [] {
      var x, rest := order[0], order[1..];
      assert Sets(order)[1..] == Sets(rest) && Sets(order)[0] == Set(x);
      assert order == [x] + rest;
      ExecSets(rest, m, sl, id, Apply(x, s));
      EndsCons(x, rest, m, sl, id, s, ExecAll(Sets(rest), Apply(x, s)));
    }
  }

  // ConfigurePrimary, run to its end on any unlocked server, leaves a writable semi-sync master that
  // replicates from nobody; the data is untouched.
  lemma PrimaryScriptConfigures(index: nat, order: seq<Setting>, s: Server)
    requires IsOrder(order, PrimarySettings(index)) && !s.locked
    ensures
      var t := ExecAll(PrimaryScript(order), s);
      && ConfigOf(t) == PrimaryConfig(index) && t.serverId == 10 + index
      && t.slavePos == 0 && t.accounts && t.log == s.log && t.binlog == s.binlog
  {
    ExecAllConcat(OPEN, Sets(order), s);
    ExecOpen(s);
    var mid := Opened(s);
    ExecSets(order, true, false, SERVER_ID(index), mid);
  }

  // ConfigureReplica, run to its end on any unlocked server, leaves a read-only semi-sync slave of the
  // primary with a running connection and an empty binary log; the data is untouched.
  lemma ReplicaScriptConfigures(index: nat, primary: nat, reset: bool, order: seq<Setting>, s: Server)
    requires IsOrder(order, ReplicaSettings(index)) && !s.locked
    ensures
      var t := ExecAll(ReplicaScript(primary, reset, order), s);
      && ConfigOf(t) == ReplicaConfig(index, primary) && t.serverId == 10 + index
      && t.slavePos == (if reset then 0 else s.slavePos) && t.accounts == s.accounts && t.log == s.log && t.binlog == 0
  {
    var tail := [ChangeMaster(primary), StartSlave];
    ExecAllConcat(Fence(reset) + Sets(order), tail, s);
    ExecAllConcat(Fence(reset), Sets(order), s);
    ExecFence(reset, s);
    var mid := WriteProtected(reset, s);
    ExecSets(order, false, true, SERVER_ID(index), mid);
    var late := ExecAll(Sets(order), mid);
    ExecTwo(ChangeMaster(primary), StartSlave, late);
    assert ExecAll(tail, late) == late.(master := Some(primary), slaveRunning := true);
  }

  // What the scripts do on any server, locked or not.
  lemma PrimaryScriptEffect(index: nat, order: seq<Setting>, s: Server)
    requires IsOrder(order, PrimarySettings(index))
    ensures
      var t := ExecAll(PrimaryScript(order), s);
      && t == Opened(s).(semiMaster := true, semiSlave := false, serverId := 10 + index)
      && t.locked == s.locked
  {
    ExecAllConcat(OPEN, Sets(order), s);
    ExecOpen(s);
    ExecSets(order, true, false, SERVER_ID(index), Opened(s));
  }

  lemma ReplicaScriptEffect(index: nat, primary: nat, order: seq<Setting>, s: Server)
    requires IsOrder(order, ReplicaSettings(index))
    ensures ExecAll(ReplicaScript(primary, true, order), s)
         == WriteProtected(true, s).(semiMaster := false, semiSlave := true, serverId := 10 + index,
                                     master := Some(primary), slaveRunning := true)
  {
    var tail := [ChangeMaster(primary), StartSlave];
    ExecAllConcat(Fence(true) + Sets(order), tail, s);
    ExecAllConcat(Fence(true), Sets(order), s);
    ExecFence(true, s);
    ExecSets(order, false, true, SERVER_ID(index), WriteProtected(true, s));
    ExecTwo(ChangeMaster(primary), StartSlave, ExecAll(Sets(order), WriteProtected(true, s)));
  }

  // A wait, and what follows one that timed out, forgets the position replicated so far and restarts the
  // replication of a server that has a source. Nothing else changes.
  function Restarted(s: Server): Server {
    s.(slavePos := 0, slaveRunning := s.master.Some?)
  }

  lemma SyncScriptRestarts(gtid: nat, s: Server)
    ensures ExecAll(SyncScript(gtid), s) == ExecAll(RESET_SLAVE, s) == Restarted(s)
  {
    assert RESET_SLAVE == [StopAllSlaves, ResetSlavePos] + [StartSlave];
    ExecAllConcat([StopAllSlaves, ResetSlavePos], [StartSlave], s);
    ExecTwo(StopAllSlaves, ResetSlavePos, s);
    ExecTwo(StartSlave, StartSlave, s.(slaveRunning := false, slavePos := 0));
    ExecAllConcat([WaitGtid(gtid)], RESET_SLAVE, s);
    ExecTwo(WaitGtid(gtid), WaitGtid(gtid), s);
  }
}
