/** The fan-out of a switchover phase together with the scripts its goroutines run: each runs its
    commands, may time out or find its Pod gone, and may give up with an error at any point.
 */
module PhaseJoin {
  import opened Replication
  import Fanout
  import opened Switchover

  datatype Joint = Joint(fan: Fanout.State, procs: seq<Proc>)

  datatype Move =
    | Fan(e: Fanout.Event)
    | Run(i: nat)
    | Expire(i: nat)
    | Skip(i: nat)

  predicate Working(j: Joint, i: nat) {
    i < |j.fan.gs| && i < |j.procs| && j.fan.gs[i] == Fanout.Working
  }

  // A goroutine succeeds at the end of its script, if it has not timed out.
  predicate CanMove(j: Joint, m: Move) {
    match m
    case Fan(e) => Fanout.Enabled(j.fan, e) && (e.Succeed? ==> Working(j, e.i) && j.procs[e.i] == DONE)
    case Run(i) => Working(j, i) && j.procs[i].rest != []
    case Expire(i) => Working(j, i) && j.procs[i].rest != [] && j.procs[i].rest[0].WaitGtid?
    case Skip(i) => Working(j, i)
  }

  function Moved(j: Joint, m: Move): Joint
    requires CanMove(j, m)
  {
    match m
    case Fan(e) => j.(fan := Fanout.Next(j.fan, e))
    case Run(i) => j.(procs := j.procs[i := j.procs[i].(rest := j.procs[i].rest[1..])])
    case Expire(i) => j.(procs := j.procs[i := Proc(j.procs[i].rest[1..], true)])
    case Skip(i) => j.(procs := j.procs[i := DONE])
  }

  ghost predicate CanMoveAll(j: Joint, ms: seq<Move>)
    decreases |ms|
  {
    ms == [] || (CanMove(j, ms[0]) && CanMoveAll(Moved(j, ms[0]), ms[1..]))
  }

  ghost function MovedAll(j: Joint, ms: seq<Move>): Joint
    requires CanMoveAll(j, ms)
    decreases |ms|
  {
    if ms == [] then j else MovedAll(Moved(j, ms[0]), ms[1..])
  }

  ghost predicate Matched(j: Joint) {
    && Fanout.Inv(j.fan) && |j.fan.gs| == |j.procs|
    && forall i | 0 <= i < |j.procs| && j.fan.gs[i] == Fanout.Returned(true) :: j.procs[i] == DONE
  }

  lemma MatchedNext(j: Joint, m: Move)
    requires Matched(j) && CanMove(j, m)
    ensures Matched(Moved(j, m))
  {
    if m.Fan? {
      Fanout.InvNext(j.fan, m.e);
    }
  }

  lemma {:induction false} MatchedAfter(j: Joint, ms: seq<Move>)
    requires Matched(j) && CanMoveAll(j, ms)
    ensures Matched(MovedAll(j, ms))
    decreases |ms|
  {
    if ms != [] {
      MatchedNext(j, ms[0]);
      MatchedAfter(Moved(j, ms[0]), ms[1..]);
    }
  }

  // A phase whose fan-out returns nil has all its work done, whatever the interleaving: that is when the
  // protocol may move on.
  lemma NilMeansAllDone(procs: seq<Proc>, ms: seq<Move>)
    requires CanMoveAll(Joint(Fanout.Initial(|procs|), procs), ms)
    ensures
      var j := MovedAll(Joint(Fanout.Initial(|procs|), procs), ms);
      j.fan.main == Fanout.Nil ==> AllDone(j.procs)
  {
    Fanout.InvInitial(|procs|);
    MatchedAfter(Joint(Fanout.Initial(|procs|), procs), ms);
  }
}
