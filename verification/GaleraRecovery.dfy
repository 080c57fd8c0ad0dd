/** The record a Galera cluster recovery keeps, and the choice of the Pod to bootstrap from. */
module GaleraRecovery {
  import opened Optional

  datatype GaleraState = GaleraState(uuid: string, seqno: int, safeToBootstrap: bool)
  datatype Bootstrap = Bootstrap(uuid: string, seqno: int)

  // When and where a cluster bootstrap was performed.
  datatype Bootstrapping = Bootstrapping(time: int, pod: string)

  datatype Recovery = Recovery(
    state: map<string, GaleraState>,
    recovered: map<string, Bootstrap>,
    bootstrap: Option<Bootstrapping>)

  datatype Source = Source(bootstrap: Bootstrap, pod: string)

  datatype Error = PodNotListed | NoneSafe | NotCompleted | SourceNotFound

  datatype Result = Ok(source: Source) | Err(error: Error)

  // ---- What a recovery knows ----

  function StateReport(r: Recovery, pod: string): set<Bootstrap> {
    if pod in r.state && r.state[pod].seqno != -1 then {Bootstrap(r.state[pod].uuid, r.state[pod].seqno)} else {}
  }

  function RecoveredReport(r: Recovery, pod: string): set<Bootstrap> {
    if pod in r.recovered && r.recovered[pod].seqno != -1 then {r.recovered[pod]} else {}
  }

  // The sequence numbers that a Pod's state file and its recovery reported.
  function Reports(r: Recovery, pod: string): set<Bootstrap> {
    StateReport(r, pod) + RecoveredReport(r, pod)
  }

  predicate SafeFor(r: Recovery, pod: string) {
    pod in r.state && r.state[pod].safeToBootstrap && r.state[pod].seqno != -1
  }

  // Every listed Pod has reported one.
  ghost predicate Complete(r: Recovery, pods: seq<string>) {
    pods != [] && forall p | p in pods :: Reports(r, p) != {}
  }

  ghost predicate IsSafeSource(r: Recovery, pods: seq<string>, s: Source) {
    && s.pod in pods && SafeFor(r, s.pod)
    && s.bootstrap == Bootstrap(r.state[s.pod].uuid, r.state[s.pod].seqno)
  }

  // The source reports the greatest sequence number of all Pods; among Pods that tie, the last listed.
  ghost predicate IsMostAdvanced(r: Recovery, pods: seq<string>, s: Source) {
    && s.pod in pods && s.bootstrap in Reports(r, s.pod)
    && (forall p, b | p in pods && b in Reports(r, p) :: b.seqno <= s.bootstrap.seqno)
    && exists k | 0 <= k < |pods| :: IsLast(r, pods, s, k)
  }

  ghost predicate IsLast(r: Recovery, pods: seq<string>, s: Source, k: nat)
    requires k < |pods|
  {
    pods[k] == s.pod && forall j, b | k < j < |pods| && b in Reports(r, pods[j]) :: b.seqno < s.bootstrap.seqno
  }

  // No listed Pod is recorded safe, or one that is safe is not listed.
  ghost predicate NoneSafeToUse(r: Recovery, pods: seq<string>) {
    (forall p | p in pods :: !SafeFor(r, p)) || exists q :: SafeFor(r, q) && q !in pods
  }

  // A safe Pod comes before the most advanced one.
  ghost predicate IsSource(r: Recovery, pods: seq<string>, s: Source) {
    IsSafeSource(r, pods, s) || (NoneSafeToUse(r, pods) && Complete(r, pods) && IsMostAdvanced(r, pods, s))
  }

  // Compare: a total preorder on sequence numbers in which no source is least.
  function Compare(b: Bootstrap, current: Option<Source>): int {
    if current.None? then 1
    else if b.seqno < current.value.bootstrap.seqno then -1
    else if b.seqno == current.value.bootstrap.seqno then 0
    else 1
  }

  // ---- The record as the reconcile works on it ----

  class RecoveryStatus {
    var inner: Option<Recovery>

    constructor (persisted: Option<Recovery>)
      ensures inner == Some(if persisted.Some? then persisted.value else Recovery(map[], map[], None))
    {
      inner := Some(if persisted.Some? then persisted.value else Recovery(map[], map[], None));
    }

    method SetState(pod: string, state: GaleraState)
      requires inner.Some?
      modifies this
      ensures inner == Some(old(inner).value.(state := old(inner).value.state[pod := state]))
    {
      inner := Some(inner.value.(state := inner.value.state[pod := state]));
    }

    method SetRecovered(pod: string, b: Bootstrap)
      requires inner.Some?
      modifies this
      ensures inner == Some(old(inner).value.(recovered := old(inner).value.recovered[pod := b]))
    {
      inner := Some(inner.value.(recovered := inner.value.recovered[pod := b]));
    }

    method Reset()
      modifies this
      ensures inner == None
    {
      inner := None;
    }

    method SetBootstrapping(now: int, pod: string)
      requires inner.Some?
      modifies this
      ensures inner == Some(old(inner).value.(bootstrap := Some(Bootstrapping(now, pod))))
    {
      inner := Some(inner.value.(bootstrap := Some(Bootstrapping(now, pod))));
    }

    // Some recorded safe Pod, whichever the map yields first, if it is listed.
    method SafeToBootstrap(pods: seq<string>) returns (r: Result)
      requires inner.Some?
      ensures r.Ok? ==> IsSafeSource(inner.value, pods, r.source)
      ensures r == Err(PodNotListed) ==> exists p :: SafeFor(inner.value, p) && p !in pods
      ensures r == Err(NoneSafe) <==> forall p :: !SafeFor(inner.value, p)
      ensures r.Err? ==> r.error in {PodNotListed, NoneSafe}
    {
      var state := inner.value.state;
      var todo := state.Keys;
      while todo != {}
        invariant todo <= state.Keys
        invariant forall p | p in state.Keys - todo :: !SafeFor(inner.value, p)
        decreases todo
      {
        var k :| k in todo;
        todo := todo - {k};
        var v := state[k];
        if v.safeToBootstrap && v.seqno != -1 {
          assert SafeFor(inner.value, k);
          for j := 0 to |pods|
            invariant forall i | 0 <= i < j :: pods[i] != k
          {
            if pods[j] == k {
              return Ok(Source(Bootstrap(v.uuid, v.seqno), pods[j]));
            }
          }
          return Err(PodNotListed);
        }
      }
      return Err(NoneSafe);
    }

    method IsComplete(pods: seq<string>) returns (b: bool)
      requires inner.Some?
      ensures b <==> Complete(inner.value, pods)
    {
      if |pods| == 0 { return false; }
      var r := inner.value;
      for j := 0 to |pods|
        invariant forall i | 0 <= i < j :: Reports(r, pods[i]) != {}
      {
        var p := pods[j];
        if (p in r.state && r.state[p].seqno != -1) || (p in r.recovered && r.recovered[p].seqno != -1) {
          continue;
        }
        assert Reports(r, pods[j]) == {};
        return false;
      }
      return true;
    }

    // The last Pod that reports the greatest sequence number.
    method MostAdvanced(pods: seq<string>) returns (current: Option<Source>)
      requires inner.Some?
      ensures current.None? <==> forall p | p in pods :: Reports(inner.value, p) == {}
      ensures current.Some? ==> IsMostAdvanced(inner.value, pods, current.value)
    {
      var rec := inner.value;
      current := None;
      ghost var k := 0;
      for j := 0 to |pods|
        invariant Best(rec, pods, j, current, k)
      {
        var p := pods[j];
        ghost var old_, oldk := current, k;
        if p in rec.state && rec.state[p].seqno != -1 {
          var b := Bootstrap(rec.state[p].uuid, rec.state[p].seqno);
          if Compare(b, current) >= 0 {
            current, k := Some(Source(b, p)), j;
          }
        }
        if p in rec.recovered && rec.recovered[p].seqno != -1 && Compare(rec.recovered[p], current) >= 0 {
          current, k := Some(Source(rec.recovered[p], p)), j;
        }
        BestStep(rec, pods, j, old_, oldk, current, k);
      }
      if current.Some? {
        assert IsLast(rec, pods, current.value, k);
      }
    }

    // A listed Pod that is recorded safe, or the most advanced Pod of a completed recovery. A completed
    // recovery always has a source.
    method BootstrapSource(pods: seq<string>) returns (r: Result)
      requires inner.Some?
      ensures r.Ok? ==> IsSource(inner.value, pods, r.source) && r.source.bootstrap.seqno != -1
      ensures r.Err? ==> r.error == NotCompleted && !Complete(inner.value, pods)
      ensures !NoneSafeToUse(inner.value, pods) ==> r.Ok? && IsSafeSource(inner.value, pods, r.source)
    {
      r := SafeToBootstrap(pods);
      if r.Ok? { return; }
      var complete := IsComplete(pods);
      if !complete { return Err(NotCompleted); }
      var current := MostAdvanced(pods);
      assert pods[0] in pods;
      if current.None? { return Err(SourceNotFound); }
      return Ok(current.value);
    }
  }

  // The best report among the first n Pods, that of Pod k; a later one wins a tie.
  ghost predicate Best(r: Recovery, pods: seq<string>, n: nat, current: Option<Source>, k: nat)
    requires n <= |pods|
  {
    match current
    case None => forall i | 0 <= i < n :: Reports(r, pods[i]) == {}
    case Some(s) =>
      && k < n && pods[k] == s.pod && s.bootstrap in Reports(r, s.pod)
      && (forall i, b | 0 <= i < n && b in Reports(r, pods[i]) :: b.seqno <= s.bootstrap.seqno)
      && (forall i, b | k < i < n && b in Reports(r, pods[i]) :: b.seqno < s.bootstrap.seqno)
  }

  lemma BestStep(r: Recovery, pods: seq<string>, n: nat, old_: Option<Source>, oldk: nat, new_: Option<Source>, k: nat)
    requires n < |pods| && Best(r, pods, n, old_, oldk)
    requires
      var p := pods[n];
      var first := p in r.state && r.state[p].seqno != -1 && Compare(Bootstrap(r.state[p].uuid, r.state[p].seqno), old_) >= 0;
      var mid := if first then Some(Source(Bootstrap(r.state[p].uuid, r.state[p].seqno), p)) else old_;
      var second := p in r.recovered && r.recovered[p].seqno != -1 && Compare(r.recovered[p], mid) >= 0;
      && new_ == (if second then Some(Source(r.recovered[p], p)) else mid)
      && k == if first || second then n else oldk
    ensures Best(r, pods, n + 1, new_, k)
  {
    var p := pods[n];
    if new_.Some? {
      var top := new_.value.bootstrap.seqno;
      assert forall b | b in Reports(r, p) :: b.seqno <= top;
      assert old_.Some? ==> old_.value.bootstrap.seqno <= top;
    }
  }
}
