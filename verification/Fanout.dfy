/** The fan-out used by the replica phases and by the Galera recovery: one goroutine per server, a
    WaitGroup, an unbuffered error channel, a goroutine that closes the done channel after the
    WaitGroup, and a select that receives once.
 */
module Fanout {

  datatype Goroutine =
    | Unborn
    | Working
    | Sending               // blocked in the send of its error
    | Received              // its error was taken; it is about to return
    | Returned(ok: bool)    // has run its deferred wg.Done

  // Bailed: the loop that starts the goroutines has returned early, as the Galera recovery's does when a
  // Pod's name has no index.
  datatype Outcome = Selecting | Nil | Err(from: nat) | Cancelled | Bailed

  datatype State = State(
    gs: seq<Goroutine>,
    spawned: nat,           // the loop has started this many; the closer starts after the last
    wg: int,                // the WaitGroup's counter
    closed: bool,           // doneChan
    main: Outcome
  )

  datatype Event =
    | Spawn
    | Succeed(i: nat)
    | Break(i: nat)
    | Receive(i: nat)
    | Return(i: nat)
    | Close
    | TakeDone
    | Cancel
    | Bail

  function Initial(n: nat): State {
    State(seq(n, _ => Unborn), 0, 0, false, Selecting)
  }

  predicate Enabled(s: State, e: Event) {
    match e
    case Spawn => s.spawned < |s.gs| && s.main == Selecting
    case Succeed(i) => i < |s.gs| && s.gs[i] == Working
    case Break(i) => i < |s.gs| && s.gs[i] == Working
    case Receive(i) => i < |s.gs| && s.gs[i] == Sending && s.spawned == |s.gs| && s.main == Selecting
    case Return(i) => i < |s.gs| && s.gs[i] == Received
    case Close => s.spawned == |s.gs| && s.wg == 0 && !s.closed
    case TakeDone => s.closed && s.main == Selecting
    case Cancel => s.spawned == |s.gs| && s.main == Selecting
    case Bail => s.spawned < |s.gs| && s.main == Selecting
  }

  function Next(s: State, e: Event): (t: State)
    requires Enabled(s, e)
    ensures |t.gs| == |s.gs|
  {
    match e
    case Spawn => s.(gs := s.gs[s.spawned := Working], spawned := s.spawned + 1, wg := s.wg + 1)
    case Succeed(i) => s.(gs := s.gs[i := Returned(true)], wg := s.wg - 1)
    case Break(i) => s.(gs := s.gs[i := Sending])
    case Receive(i) => s.(gs := s.gs[i := Received], main := Err(i))
    case Return(i) => s.(gs := s.gs[i := Returned(false)], wg := s.wg - 1)
    case Close => s.(closed := true)
    case TakeDone => s.(main := Nil)
    case Cancel => s.(main := Cancelled)
    case Bail => s.(main := Bailed)
  }

  ghost predicate Legal(s: State, es: seq<Event>)
    decreases |es|
  {
    es == [] || (Enabled(s, es[0]) && Legal(Next(s, es[0]), es[1..]))
  }

  ghost function After(s: State, es: seq<Event>): (t: State)
    requires Legal(s, es)
    ensures |t.gs| == |s.gs|
    decreases |es|
  {
    if es == [] then s else After(Next(s, es[0]), es[1..])
  }

  function Weight(g: Goroutine): nat { if g == Unborn || g.Returned? then 0 else 1 }

  // Goroutines that hold the WaitGroup.
  function Holding(gs: seq<Goroutine>): nat {
    if gs == [] then 0 else Weight(gs[0]) + Holding(gs[1..])
  }

  lemma {:induction false} HoldingUpdate(gs: seq<Goroutine>, i: nat, g: Goroutine)
    requires i < |gs|
    ensures Holding(gs[i := g]) == Holding(gs) - Weight(gs[i]) + Weight(g)
    decreases |gs|
  {
    if i == 0 {
      assert gs[0 := g][1..] == gs[1..];
    } else {
      assert gs[i := g][1..] == gs[1..][i - 1 := g];
      HoldingUpdate(gs[1..], i - 1, g);
    }
  }

  lemma {:induction false} NoneHolding(gs: seq<Goroutine>)
    ensures Holding(gs) == 0 <==> forall i | 0 <= i < |gs| :: gs[i] == Unborn || gs[i].Returned?
    decreases |gs|
  {
    if gs != [] {
      NoneHolding(gs[1..]);
      assert forall i | 0 <= i < |gs| :: i == 0 || gs[i] == gs[1..][i - 1];
    }
  }

  ghost predicate Inv(s: State) {
    && s.spawned <= |s.gs| && s.wg == Holding(s.gs)
    && (forall i | 0 <= i < |s.gs| :: s.gs[i] == Unborn <==> i >= s.spawned)
    // An error that was received, and only that one, is what the select returns.
    && (forall i | 0 <= i < |s.gs| && (s.gs[i] == Received || s.gs[i] == Returned(false)) :: s.main == Err(i))
    && (s.main.Err? ==> s.main.from < |s.gs| && (s.gs[s.main.from] == Received || s.gs[s.main.from] == Returned(false)))
    && (s.closed ==> s.spawned == |s.gs| && forall i | 0 <= i < |s.gs| :: s.gs[i].Returned?)
    && (s.main == Nil ==> s.closed)
    && (s.spawned < |s.gs| ==> s.main == Selecting || s.main == Bailed)
    && (s.main == Bailed ==> s.spawned < |s.gs|)
  }

  lemma InvInitial(n: nat)
    ensures Inv(Initial(n))
  {
    NoneHolding(Initial(n).gs);
  }

  lemma InvNext(s: State, e: Event)
    requires Inv(s) && Enabled(s, e)
    ensures Inv(Next(s, e))
  {
    var t := Next(s, e);
    if e.Spawn? {
      HoldingUpdate(s.gs, s.spawned, Working);
    } else if e.Succeed? || e.Break? || e.Receive? || e.Return? {
      HoldingUpdate(s.gs, e.i, t.gs[e.i]);
    } else {
      NoneHolding(s.gs);
    }
  }

  lemma {:induction false} InvAfter(s: State, es: seq<Event>)
    requires Inv(s) && Legal(s, es)
    ensures Inv(After(s, es))
    decreases |es|
  {
    if es != [] {
      InvNext(s, es[0]);
      InvAfter(Next(s, es[0]), es[1..]);
    }
  }

  // For every number of goroutines and every interleaving: the fan-out reports success only when each
  // goroutine has returned without an error, and an error it reports is that of one that failed.
  lemma JoinIsSound(n: nat, es: seq<Event>)
    requires Legal(Initial(n), es)
    ensures
      var t := After(Initial(n), es);
      && (t.main == Nil ==> forall i | 0 <= i < n :: t.gs[i] == Returned(true))
      && (t.main.Err? ==> t.main.from < n && t.gs[t.main.from] in {Received, Returned(false)})
  {
    InvInitial(n);
    InvAfter(Initial(n), es);
  }

  // The select never starves: while it waits, something can happen.
  lemma NoDeadlock(n: nat, es: seq<Event>) returns (e: Event)
    requires Legal(Initial(n), es) && After(Initial(n), es).main == Selecting
    ensures Enabled(After(Initial(n), es), e) && e != Cancel && e != Bail
  {
    InvInitial(n);
    InvAfter(Initial(n), es);
    var t := After(Initial(n), es);
    NoneHolding(t.gs);
    if t.spawned < n {
      e := Spawn;
    } else if i: nat :| i < n && t.gs[i] == Working {
      e := Succeed(i);
    } else if i: nat :| i < n && t.gs[i] == Sending {
      e := Receive(i);
    } else if i: nat :| i < n && t.gs[i] == Received {
      e := Return(i);
    } else {
      e := if t.closed then TakeDone else Close;
    }
  }

  // ---- Leaks ----

  // A goroutine that fails after the select has returned stays blocked in its send for ever, and so
  // does the goroutine that would close the done channel.
  lemma {:induction false} LateErrorLeaks(s: State, es: seq<Event>, i: nat)
    requires Inv(s) && Legal(s, es) && i < |s.gs| && s.gs[i] == Sending && s.main != Selecting
    ensures After(s, es).gs[i] == Sending && !After(s, es).closed
    decreases |es|
  {
    if es == [] {
    } else {
      InvNext(s, es[0]);
      NoneHolding(s.gs);
      LateErrorLeaks(Next(s, es[0]), es[1..], i);
    }
  }

  function Stuck(gs: seq<Goroutine>): nat {
    if gs == [] then 0 else (if gs[0] == Sending then 1 else 0) + Stuck(gs[1..])
  }

  lemma {:induction false} StuckUpdate(gs: seq<Goroutine>, i: nat, g: Goroutine)
    requires i < |gs|
    ensures Stuck(gs[i := g]) == Stuck(gs) - (if gs[i] == Sending then 1 else 0) + (if g == Sending then 1 else 0)
    decreases |gs|
  {
    if i == 0 {
      assert gs[0 := g][1..] == gs[1..];
    } else {
      assert gs[i := g][1..] == gs[1..][i - 1 := g];
      StuckUpdate(gs[1..], i - 1, g);
    }
  }

  lemma {:induction false} NoneStuck(gs: seq<Goroutine>)
    ensures Stuck(gs) == 0 <==> forall i | 0 <= i < |gs| :: gs[i] != Sending
    decreases |gs|
  {
    if gs != [] {
      NoneStuck(gs[1..]);
      assert forall i | 0 <= i < |gs| :: i == 0 || gs[i] == gs[1..][i - 1];
    }
  }

  // How many goroutines failed in a run.
  function Breaks(es: seq<Event>): nat
    decreases |es|
  {
    if es == [] then 0 else (if es[0].Break? then 1 else 0) + Breaks(es[1..])
  }

  function Taken(m: Outcome): nat { if m.Err? then 1 else 0 }

  lemma StuckNext(s: State, e: Event)
    requires Inv(s) && Enabled(s, e)
    ensures Stuck(Next(s, e).gs) - Stuck(s.gs)
         == (if e.Break? then 1 else 0) - (Taken(Next(s, e).main) - Taken(s.main))
  {
    var t := Next(s, e);
    if e.Spawn? {
      StuckUpdate(s.gs, s.spawned, Working);
    } else if e.Succeed? || e.Break? || e.Receive? || e.Return? {
      StuckUpdate(s.gs, e.i, t.gs[e.i]);
    }
  }

  lemma {:induction false} StuckAfter(s: State, es: seq<Event>)
    requires Inv(s) && Legal(s, es)
    ensures Stuck(After(s, es).gs) == Stuck(s.gs) + Breaks(es) - (Taken(After(s, es).main) - Taken(s.main))
    decreases |es|
  {
    if es != [] {
      StuckNext(s, es[0]);
      InvNext(s, es[0]);
      StuckAfter(Next(s, es[0]), es[1..]);
    }
  }

  // A run that is over leaves a goroutine behind if and only if more of them failed than the one error
  // that was taken, if any was. The done channel is closed exactly when none is left behind and the loop
  // did not return early.
  lemma LeaksExactly(n: nat, es: seq<Event>)
    requires Legal(Initial(n), es) && forall e :: !Enabled(After(Initial(n), es), e)
    ensures
      var t := After(Initial(n), es);
      && t.main != Selecting
      && ((exists i | 0 <= i < n :: t.gs[i] == Sending) <==> Breaks(es) > Taken(t.main))
      && (t.closed <==> t.main != Bailed && Breaks(es) == Taken(t.main))
  {
    InvInitial(n);
    InvAfter(Initial(n), es);
    StuckAfter(Initial(n), es);
    NoneStuck(Initial(n).gs);
    var t := After(Initial(n), es);
    NoneStuck(t.gs);
    NoneHolding(t.gs);
    if t.main == Selecting {
      var e := NoDeadlock(n, es);
      assert false;
    }
    if t.closed {
      assert forall i | 0 <= i < n :: t.gs[i] != Sending;
    } else if t.main != Bailed {
      assert !Enabled(t, Close);
      assert Holding(t.gs) != 0;
      var i: nat :| i < n && t.gs[i] != Unborn && !t.gs[i].Returned?;
      assert !Enabled(t, Succeed(i)) && !Enabled(t, Return(i));
      assert t.gs[i] == Sending;
    }
  }

  function Spawns(n: nat): seq<Event> { seq(n, _ => Spawn) }

  function Started(n: nat, k: nat): State
    requires k <= n
  {
    State(seq(n, i => if i < k then Working else Unborn), k, k, false, Selecting)
  }

  lemma {:induction false} SpawnAll(n: nat, k: nat)
    requires k <= n
    ensures Legal(Started(n, k), Spawns(n - k)) && After(Started(n, k), Spawns(n - k)) == Started(n, n)
    decreases n - k
  {
    if k < n {
      assert Spawns(n - k)[0] == Spawn && Spawns(n - k)[1..] == Spawns(n - k - 1);
      assert Next(Started(n, k), Spawn) == Started(n, k + 1);
      SpawnAll(n, k + 1);
    }
  }

  lemma {:induction false} Join(s: State, a: seq<Event>, b: seq<Event>)
    requires Legal(s, a) && Legal(After(s, a), b)
    ensures Legal(s, a + b) && After(s, a + b) == After(After(s, a), b)
    decreases |a|
  {
    if a == [] {
      assert a + b == b;
    } else {
      assert (a + b)[1..] == a[1..] + b;
      Join(Next(s, a[0]), a[1..], b);
    }
  }

  // With two goroutines or more, two errors leak; with one, an error after a cancellation does.
  lemma LeakingRun(n: nat, cancelled: bool) returns (es: seq<Event>, i: nat)
    requires n >= if cancelled then 1 else 2
    ensures i < n && Legal(Initial(n), es) && Inv(After(Initial(n), es))
    ensures After(Initial(n), es).gs[i] == Sending && After(Initial(n), es).main != Selecting
    ensures Cancel in es ==> cancelled
  {
    var s := Started(n, n);
    assert Initial(n) == Started(n, 0);
    SpawnAll(n, 0);
    var tail;
    if cancelled {
      i, tail := 0, [Cancel, Break(0)];
      assert tail[1..] == [Break(0)] && [Break(0)][1..] == [];
      assert Legal(Next(Next(s, Cancel), Break(0)), []);
      assert Legal(Next(s, Cancel), [Break(0)]);
    } else {
      i, tail := 1, [Break(0), Break(1), Receive(0)];
      assert tail[1..] == [Break(1), Receive(0)] && [Break(1), Receive(0)][1..] == [Receive(0)] && [Receive(0)][1..] == [];
      var t := Next(Next(s, Break(0)), Break(1));
      assert Legal(Next(t, Receive(0)), []);
      assert Legal(t, [Receive(0)]);
      assert Legal(Next(s, Break(0)), tail[1..]);
    }
    assert Legal(s, tail);
    Join(Initial(n), Spawns(n), tail);
    es := Spawns(n) + tail;
    InvInitial(n);
    InvAfter(Initial(n), es);
  }
}
