/** ConfigurePrimary and ConfigureReplica as the code runs them, one SQL command after the other.

    A command may fail before or after it took effect. Whatever happens, the commands run so far are a
    beginning of the role's script, and a call that reports success has run all of it.
 */
module ReplicationConfig {
  import opened Replication

  class SqlClient {
    var server: Server
    ghost var origin: Server        // the server when the configuration began
    ghost var ran: seq<Command>     // the commands that took effect since
    ghost var faults: nat           // the commands that reported an error, ever

    ghost predicate Valid()
      reads this
    {
      server == ExecAll(ran, origin)
    }

    constructor (s: Server)
      ensures Valid() && server == s && origin == s && ran == []
    {
      server, origin, ran, faults := s, s, [], 0;
    }

    ghost method Mark()
      modifies this`origin, this`ran
      ensures Valid() && origin == server && ran == []
    {
      origin, ran := server, [];
    }

    // One command on this connection.
    method Run(c: Command) returns (ok: bool)
      requires Valid()
      modifies this`server, this`ran, this`faults
      ensures Valid()
      ensures ran == old(ran) + [c] || (!ok && ran == old(ran))
      ensures faults == old(faults) + if ok then 0 else 1
    {
      ok := false;
      if * {
        ExecAllConcat(ran, [c], origin);
        ExecTwo(c, c, server);
        server, ran := Exec(c, server), ran + [c];
        if * { ok := true; }
      }
      if !ok {
        faults := faults + 1;
      }
    }

    // The map of variables is iterated in any order, up to the first failure.
    method SetSystemVariables(vars: set<Setting>) returns (ok: bool, ghost order: seq<Setting>)
      requires Valid()
      modifies this`server, this`ran, this`faults
      ensures Valid() && faults == old(faults) + if ok then 0 else 1
      ensures forall v :: v in order <==> v in vars
      ensures old(ran) <= ran <= old(ran) + Sets(order)
      ensures ok ==> ran == old(ran) + Sets(order)
    {
      var todo := vars;
      order := [];
      ok := true;
      while todo != {}
        invariant Valid() && ok
        invariant todo <= vars && forall v :: v in order <==> v in vars - todo
        invariant ran == old(ran) + Sets(order) && faults == old(faults)
        decreases todo
      {
        var v :| v in todo;
        todo := todo - {v};
        ok := Run(Set(v));
        SetsConcat(order, [v]);
        order := order + [v];
        if !ok {
          SetsConcat(order, Listed(todo));
          order := order + Listed(todo);
          return;
        }
      }
    }

    method ConfigurePrimary(index: nat, extra: set<Setting>) returns (ok: bool, ghost order: seq<Setting>)
      requires forall v | v in extra :: v.Other?
      modifies this
      ensures Valid() && origin == old(server) && faults == old(faults) + if ok then 0 else 1
      ensures IsOrder(order, PrimarySettings(index)) && ran <= PrimaryScript(order)
      ensures ok ==> ran == PrimaryScript(order)
      ensures ok && !origin.locked ==>
        && ConfigOf(server) == PrimaryConfig(index) && server.serverId == 10 + index
        && server.slavePos == 0 && server.accounts && server.log == origin.log && server.binlog == origin.binlog
    {
      var vars := {SemiMaster(true), SemiSlave(false), ServerId(SERVER_ID(index))} + extra;
      order := Listed(vars);
      Mark();
      ok := Run(StopAllSlaves);
      if !ok { return; }
      ok := Run(ResetAllSlaves);
      if !ok { return; }
      ok := Run(ResetSlavePos);
      if !ok { return; }
      ok := Run(DisableReadOnly);
      if !ok { return; }
      ok := Run(PrimarySql);
      if !ok { return; }
      assert ran == OPEN;
      ok, order := SetSystemVariables(vars);
      if ok && !origin.locked {
        PrimaryScriptConfigures(index, order, origin);
      }
    }

    method ConfigureReplica(index: nat, primary: nat, resetSlavePos: bool, extra: set<Setting>)
      returns (ok: bool, ghost order: seq<Setting>)
      requires forall v | v in extra :: v.Other?
      modifies this
      ensures Valid() && origin == old(server) && faults == old(faults) + if ok then 0 else 1
      ensures IsOrder(order, ReplicaSettings(index)) && ran <= ReplicaScript(primary, resetSlavePos, order)
      ensures ok ==> ran == ReplicaScript(primary, resetSlavePos, order)
      ensures ok && !origin.locked ==>
        && ConfigOf(server) == ReplicaConfig(index, primary) && server.serverId == 10 + index
        && server.slavePos == (if resetSlavePos then 0 else origin.slavePos) && server.accounts == origin.accounts
        && server.log == origin.log && server.binlog == 0
    {
      var vars := {SemiMaster(false), SemiSlave(true), ServerId(SERVER_ID(index))} + extra;
      order := Listed(vars);
      ok := FenceServer(resetSlavePos);
      if !ok { return; }
      ok, order := SetSystemVariables(vars);
      ghost var set_ := Fence(resetSlavePos) + Sets(order);
      assert set_ <= ReplicaScript(primary, resetSlavePos, order);
      if !ok { return; }
      ok := Run(ChangeMaster(primary));
      if !ok { return; }
      ok := Run(StartSlave);
      if ok && !origin.locked {
        ReplicaScriptConfigures(index, primary, resetSlavePos, order, origin);
      }
    }

    // The first commands of ConfigureReplica, up to and including the one that ends writes.
    method FenceServer(resetSlavePos: bool) returns (ok: bool)
      modifies this
      ensures Valid() && origin == old(server) && faults == old(faults) + if ok then 0 else 1
      ensures ran <= Fence(resetSlavePos) && (ok ==> ran == Fence(resetSlavePos))
      ensures ok ==> server == WriteProtected(resetSlavePos, origin) && server.readOnly
    {
      ExecFence(resetSlavePos, server);
      Mark();
      ok := Run(ResetMaster);
      if !ok { return; }
      ok := Run(StopAllSlaves);
      if !ok { return; }
      if resetSlavePos {
        ok := Run(ResetSlavePos);
        if !ok { return; }
      }
      ok := Run(EnableReadOnly);
    }
  }

  lemma SetsConcat(a: seq<Setting>, b: seq<Setting>)
    ensures Sets(a + b) == Sets(a) + Sets(b)
    ensures |b| == 1 ==> Sets(b) == [Set(b[0])]
  {
  }

  ghost function Listed(s: set<Setting>): (l: seq<Setting>)
    ensures forall v :: v in l <==> v in s
  {
    if s == {} then [] else var v :| v in s; [v] + Listed(s - {v})
  }
}
