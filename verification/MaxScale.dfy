/** Reconciliation of MaxScale servers, monitor and services against its REST API. A create stores the
    resource, a patch overwrites what it sends and keeps parameters it does not mention, a delete
    removes. Any call may fail, and one that reports an error may have happened.
 */
module MaxScale {
  import opened Optional
  import opened Diff

  // A server or a service: flag is maintenance for servers, suspension for services, which are switched
  // by a separate call; links are the servers a service uses.
  datatype Entry = Entry(config: string, params: map<string, string>, links: seq<string>, flag: bool)

  type Index = map<string, Entry>

  // What a patch and then, for servers only, a state update make of an entry.
  function Merge(stateful: bool, x: Entry, d: Entry): Entry {
    d.(params := x.params + d.params, flag := if stateful then d.flag else x.flag)
  }

  // What a creation and then, for servers only, a state update make.
  function New(stateful: bool, d: Entry): Entry {
    d.(flag := stateful && d.flag)
  }

  function Target(stateful: bool, desired: Index, from: Index): Index {
    map id | id in desired :: if id in from then Merge(stateful, from[id], desired[id]) else New(stateful, desired[id])
  }

  // The values an entry may have on its way.
  predicate OnTheWay(stateful: bool, desired: Index, from: Index, id: string, e: Entry)
    requires id in desired
  {
    if id in from
    then e == from[id] || e == Merge(false, from[id], desired[id]) || e == Merge(stateful, from[id], desired[id])
    else e == New(false, desired[id]) || e == New(stateful, desired[id])
  }

  // What a pass, complete or cut short at any call, may have made of an index.
  ghost predicate Halfway(stateful: bool, desired: Index, from: Index, to: Index) {
    && (forall id | id in to && id !in desired :: id in from && to[id] == from[id])
    && (forall id | id in desired && id in from :: id in to)
    && (forall id | id in desired && id in to :: OnTheWay(stateful, desired, from, id, to[id]))
  }

  // Patching again what was patched already, or partly, comes to the same.
  lemma PatchAgain(stateful: bool, x: Entry, y: Entry, d: Entry)
    requires y == x || y == Merge(false, x, d) || y == Merge(stateful, x, d)
    ensures Merge(false, y, d) == Merge(false, x, d) || Merge(false, y, d) == Merge(stateful, x, d)
    ensures Merge(false, y, d).(flag := d.flag) == Merge(true, x, d) == Merge(true, y, d)
  {
    assert x.params + d.params + d.params == x.params + d.params;
  }

  // A pass cut short loses no desired entry and changes nothing about where the next pass leads.
  lemma HalfwayLeadsOn(stateful: bool, desired: Index, from: Index, to: Index)
    requires Halfway(stateful, desired, from, to)
    ensures Target(stateful, desired, to) == Target(stateful, desired, from)
    ensures forall id | id in desired && id in from :: id in to
  {
    forall id | id in desired ensures Target(stateful, desired, to)[id] == Target(stateful, desired, from)[id] {
      var d := desired[id];
      if id in from {
        PatchAgain(stateful, from[id], to[id], d);
      } else if id in to {
        assert d.params + d.params == d.params;
      }
    }
  }

  // Any number of passes over the same desired index.
  ghost predicate Passes(stateful: bool, desired: Index, h: seq<Index>) {
    forall k | 0 < k < |h| :: Halfway(stateful, desired, h[k - 1], h[k])
  }

  // Failed passes leave no trace: the goal after any number of them is the first one.
  lemma {:induction false} FailuresLeaveNoTrace(stateful: bool, desired: Index, h: seq<Index>)
    requires h != [] && Passes(stateful, desired, h)
    ensures Target(stateful, desired, h[|h| - 1]) == Target(stateful, desired, h[0])
    ensures forall id | id in desired && id in h[0] :: id in h[|h| - 1]
  {
    if |h| > 1 {
      var before := h[..|h| - 1];
      FailuresLeaveNoTrace(stateful, desired, before);
      HalfwayLeadsOn(stateful, desired, before[|before| - 1], h[|h| - 1]);
    }
  }

  // The index becomes exactly the desired one if and only if no entry kept from before carries a
  // parameter that is no longer desired and, for services, whose state is not updated here, kept ones
  // are in the desired state and new ones are not to be suspended.
  lemma TargetIsDesiredExactly(stateful: bool, desired: Index, from: Index)
    ensures Target(stateful, desired, from) == desired <==>
      && (forall id | id in desired && id in from ::
            from[id].params.Keys <= desired[id].params.Keys && (stateful || from[id].flag == desired[id].flag))
      && (forall id | id in desired && id !in from :: stateful || !desired[id].flag)
  {
    var t := Target(stateful, desired, from);
    forall id | id in desired
      ensures t[id] == desired[id] <==>
        if id in from
        then from[id].params.Keys <= desired[id].params.Keys && (stateful || from[id].flag == desired[id].flag)
        else stateful || !desired[id].flag
    {
      if id in from {
        MergeIsDesired(stateful, from[id], desired[id]);
      }
    }
    if t == desired {
      assert forall id | id in desired :: t[id] == desired[id];
    } else {
      assert t.Keys == desired.Keys;
      var id :| id in desired && t[id] != desired[id];
    }
  }

  lemma MergeIsDesired(stateful: bool, x: Entry, d: Entry)
    ensures Merge(stateful, x, d) == d <==> x.params.Keys <= d.params.Keys && (stateful || x.flag == d.flag)
  {
    assert (x.params + d.params).Keys == x.params.Keys + d.params.Keys;
    if x.params.Keys <= d.params.Keys {
      assert x.params + d.params == d.params;
    }
  }

  // The index a converged pass starts from is the one it ends with: nothing is added or deleted.
  lemma RepeatIsIdle(stateful: bool, desired: Index, from: Index, to: Index, d: DiffResult)
    requires from == Target(stateful, desired, from) && Halfway(stateful, desired, from, to)
    requires IsDiff(d, desired.Keys, from.Keys)
    ensures to == from && d.added == [] && d.deleted == []
  {
    assert from.Keys == desired.Keys;
    EmptyLists(d.added, desired.Keys - from.Keys);
    EmptyLists(d.deleted, from.Keys - desired.Keys);
    forall id | id in desired ensures id in to && to[id] == from[id] {
      assert from[id] == Merge(stateful, from[id], desired[id]);
    }
    assert to.Keys == from.Keys;
  }

  // ---- The passes ----

  ghost predicate Settled(stateful: bool, desired: Index, from: Index, to: Index, id: string) {
    if id in desired then id in to && to[id] == Target(stateful, desired, from)[id] else id !in to
  }

  ghost predicate AllSettledIn(stateful: bool, desired: Index, from: Index, to: Index, ids: seq<string>) {
    forall id | id in ids :: Settled(stateful, desired, from, to, id)
  }

  // A call about one id unsettles no other and, if it succeeds, settles that one.
  ghost predicate Advances(stateful: bool, desired: Index, from: Index, before: Index, to: Index, id: string, ok: bool) {
    && (forall x | x != id :: Settled(stateful, desired, from, before, x) ==> Settled(stateful, desired, from, to, x))
    && (ok ==> Settled(stateful, desired, from, to, id))
  }

  lemma StaySettled(stateful: bool, desired: Index, from: Index, before: Index, to: Index, id: string, ids: seq<string>)
    requires Advances(stateful, desired, from, before, to, id, true) && AllSettledIn(stateful, desired, from, before, ids)
    ensures AllSettledIn(stateful, desired, from, to, ids) && AllSettledIn(stateful, desired, from, to, ids + [id])
  {
  }

  lemma Written(stateful: bool, desired: Index, from: Index, to: Index, id: string, e: Entry)
    requires Halfway(stateful, desired, from, to) && id in desired && OnTheWay(stateful, desired, from, id, e)
    ensures Halfway(stateful, desired, from, to[id := e])
    ensures Advances(stateful, desired, from, to, to[id := e], id, e == Target(stateful, desired, from)[id])
  {
  }

  class Registry {
    const stateful: bool
    var items: Index
    ghost var faults: nat    // calls that failed

    constructor (stateful: bool, items: Index)
      ensures this.stateful == stateful && this.items == items
    {
      this.stateful, this.items, faults := stateful, items, 0;
    }

    // One write that may fail, and may have happened even so.
    method Write(next: Index) returns (ok: bool)
      modifies this
      ensures items == next || items == old(items)
      ensures ok ==> items == next
      ensures faults == old(faults) + if ok then 0 else 1
    {
      var done: bool := *;
      if done {
        items := next;
      }
      var reported: bool := *;
      ok := done && reported;
      if !ok {
        faults := faults + 1;
      }
    }

    method UpdateState(id: string, d: Entry) returns (ok: bool)
      requires stateful
      modifies this
      ensures items == old(items) || (id in old(items) && items == old(items)[id := old(items)[id].(flag := d.flag)])
      ensures ok ==> id in old(items) && items == old(items)[id := old(items)[id].(flag := d.flag)]
      ensures faults == old(faults) + if ok then 0 else 1
    {
      if id !in items {
        faults := faults + 1;
        return false;
      }
      ok := Write(items[id := items[id].(flag := d.flag)]);
    }

    method Create(id: string, desired: Index, ghost from: Index) returns (ok: bool)
      requires id in desired && id !in from && Halfway(stateful, desired, from, items)
      modifies this
      ensures Halfway(stateful, desired, from, items)
      ensures Advances(stateful, desired, from, old(items), items, id, ok)
      ensures faults == old(faults) + if ok then 0 else 1
    {
      var created := New(false, desired[id]);
      Written(stateful, desired, from, items, id, created);
      ghost var before := items;
      ok := Write(items[id := created]);
      if ok && stateful {
        Written(stateful, desired, from, items, id, New(true, desired[id]));
        ok := UpdateState(id, desired[id]);
        assert items == before[id := created] || items == before[id := created][id := New(true, desired[id])];
      }
    }

    method Delete(id: string, desired: Index, ghost from: Index) returns (ok: bool)
      requires id !in desired && Halfway(stateful, desired, from, items)
      modifies this
      ensures Halfway(stateful, desired, from, items)
      ensures Advances(stateful, desired, from, old(items), items, id, ok)
      ensures faults == old(faults) + if ok then 0 else 1
    {
      ok := Write(items - {id});
    }

    method Patch(id: string, desired: Index, ghost from: Index) returns (ok: bool)
      requires id in desired && id in from && Halfway(stateful, desired, from, items)
      modifies this
      ensures Halfway(stateful, desired, from, items)
      ensures Advances(stateful, desired, from, old(items), items, id, ok)
      ensures faults == old(faults) + if ok then 0 else 1
    {
      PatchAgain(stateful, from[id], items[id], desired[id]);
      var patched := Merge(false, items[id], desired[id]);
      Written(stateful, desired, from, items, id, patched);
      ghost var before := items;
      ok := Write(items[id := patched]);
      if ok && stateful {
        Written(stateful, desired, from, items, id, Merge(true, from[id], desired[id]));
        ok := UpdateState(id, desired[id]);
        assert items == before[id := patched] || items == before[id := patched][id := Merge(true, from[id], desired[id])];
      }
    }

    method Pass(desired: Index) returns (ok: bool, d: DiffResult)
      modifies this
      ensures IsDiff(d, desired.Keys, old(items).Keys)
      ensures Halfway(stateful, desired, old(items), items)
      ensures ok ==> items == Target(stateful, desired, old(items))
      ensures faults == old(faults) + if ok then 0 else 1
    {
      ghost var from := items;
      d := Diff.Diff(desired, items);
      ok := CreateAll(d, desired, from);
      if ok {
        ok := DeleteAll(d, desired, from);
      }
      if ok {
        ok := PatchAll(d, desired, from);
      }
      if ok {
        AllSettled(stateful, desired, from, items, d);
      }
    }

    method CreateAll(d: DiffResult, desired: Index, ghost from: Index) returns (ok: bool)
      requires IsDiff(d, desired.Keys, from.Keys) && Halfway(stateful, desired, from, items)
      modifies this
      ensures Halfway(stateful, desired, from, items)
      ensures ok ==> AllSettledIn(stateful, desired, from, items, d.added)
      ensures faults == old(faults) + if ok then 0 else 1
    {
      for i := 0 to |d.added|
        invariant Halfway(stateful, desired, from, items) && faults == old(faults)
        invariant AllSettledIn(stateful, desired, from, items, d.added[..i])
      {
        assert d.added[i] in desired.Keys - from.Keys;
        ghost var before := items;
        ok := Create(d.added[i], desired, from);
        if !ok {
          return;
        }
        StaySettled(stateful, desired, from, before, items, d.added[i], d.added[..i]);
        assert d.added[..i + 1] == d.added[..i] + [d.added[i]];
      }
      assert d.added[..|d.added|] == d.added;
      return true;
    }

    method DeleteAll(d: DiffResult, desired: Index, ghost from: Index) returns (ok: bool)
      requires IsDiff(d, desired.Keys, from.Keys) && Halfway(stateful, desired, from, items)
      requires AllSettledIn(stateful, desired, from, items, d.added)
      modifies this
      ensures Halfway(stateful, desired, from, items)
      ensures ok ==> AllSettledIn(stateful, desired, from, items, d.added)
      ensures ok ==> AllSettledIn(stateful, desired, from, items, d.deleted)
      ensures faults == old(faults) + if ok then 0 else 1
    {
      for i := 0 to |d.deleted|
        invariant Halfway(stateful, desired, from, items) && faults == old(faults)
        invariant AllSettledIn(stateful, desired, from, items, d.added)
        invariant AllSettledIn(stateful, desired, from, items, d.deleted[..i])
      {
        assert d.deleted[i] in from.Keys - desired.Keys;
        ghost var before := items;
        ok := Delete(d.deleted[i], desired, from);
        if !ok {
          return;
        }
        StaySettled(stateful, desired, from, before, items, d.deleted[i], d.added);
        StaySettled(stateful, desired, from, before, items, d.deleted[i], d.deleted[..i]);
        assert d.deleted[..i + 1] == d.deleted[..i] + [d.deleted[i]];
      }
      assert d.deleted[..|d.deleted|] == d.deleted;
      return true;
    }

    method PatchAll(d: DiffResult, desired: Index, ghost from: Index) returns (ok: bool)
      requires IsDiff(d, desired.Keys, from.Keys) && Halfway(stateful, desired, from, items)
      requires AllSettledIn(stateful, desired, from, items, d.added)
      requires AllSettledIn(stateful, desired, from, items, d.deleted)
      modifies this
      ensures Halfway(stateful, desired, from, items)
      ensures ok ==> AllSettledIn(stateful, desired, from, items, d.added)
      ensures ok ==> AllSettledIn(stateful, desired, from, items, d.deleted)
      ensures ok ==> AllSettledIn(stateful, desired, from, items, d.rest)
      ensures faults == old(faults) + if ok then 0 else 1
    {
      for i := 0 to |d.rest|
        invariant Halfway(stateful, desired, from, items) && faults == old(faults)
        invariant AllSettledIn(stateful, desired, from, items, d.added)
        invariant AllSettledIn(stateful, desired, from, items, d.deleted)
        invariant AllSettledIn(stateful, desired, from, items, d.rest[..i])
      {
        assert d.rest[i] in desired.Keys * from.Keys;
        ghost var before := items;
        ok := Patch(d.rest[i], desired, from);
        if !ok {
          return;
        }
        StaySettled(stateful, desired, from, before, items, d.rest[i], d.added);
        StaySettled(stateful, desired, from, before, items, d.rest[i], d.deleted);
        StaySettled(stateful, desired, from, before, items, d.rest[i], d.rest[..i]);
        assert d.rest[..i + 1] == d.rest[..i] + [d.rest[i]];
      }
      assert d.rest[..|d.rest|] == d.rest;
      return true;
    }
  }

  lemma AllSettled(stateful: bool, desired: Index, from: Index, to: Index, d: DiffResult)
    requires IsDiff(d, desired.Keys, from.Keys) && Halfway(stateful, desired, from, to)
    requires AllSettledIn(stateful, desired, from, to, d.added) && AllSettledIn(stateful, desired, from, to, d.deleted)
    requires AllSettledIn(stateful, desired, from, to, d.rest)
    ensures to == Target(stateful, desired, from)
  {
    forall id | id in desired ensures id in to && to[id] == Target(stateful, desired, from)[id] {
      assert id in desired.Keys - from.Keys || id in desired.Keys * from.Keys;
      assert Settled(stateful, desired, from, to, id);
    }
    forall id | id in from.Keys - desired.Keys ensures id !in to {
      assert Settled(stateful, desired, from, to, id);
    }
    assert to.Keys == desired.Keys;
  }

  // ---- Servers, monitor, services ----

  function Linked(services: Index, links: seq<string>): Index {
    map id | id in services :: services[id].(links := links)
  }

  class MaxScaleReconciler {
    const servers: Registry
    const services: Registry
    var monitor: Option<seq<string>>    // the servers the monitor is linked to
    ghost var faults: nat               // calls that failed, other than those of the registries

    constructor (servers: Registry, services: Registry, monitor: Option<seq<string>>)
      ensures this.servers == servers && this.services == services && this.monitor == monitor
    {
      this.servers, this.services, this.monitor, faults := servers, services, monitor, 0;
    }

    // The listed servers that are desired, sorted.
    method ServerRelationships(desired: Index, listed: bool) returns (ok: bool, links: seq<string>)
      ensures ok == listed && (ok ==> Lists(links, servers.items.Keys * desired.Keys))
    {
      if !listed {
        return false, [];
      }
      var filtered := map id | id in servers.items && id in desired :: servers.items[id];
      var keys := KeysOf(filtered.Keys);
      assert (set x | x in keys) == servers.items.Keys * desired.Keys;
      return true, Sort(keys);
    }

    // Whether the next call fails.
    method Fails() returns (failed: bool)
      modifies this`faults
      ensures faults == old(faults) + if failed then 1 else 0
    {
      failed := *;
      if failed {
        faults := faults + 1;
      }
    }

    method ReconcileMonitor(desired: Index) returns (ok: bool)
      modifies this
      ensures monitor == old(monitor) || (monitor.Some? && Lists(monitor.value, servers.items.Keys * desired.Keys))
      ensures ok ==> monitor.Some? && Lists(monitor.value, servers.items.Keys * desired.Keys)
      ensures faults == old(faults) + if ok then 0 else 1
    {
      var failed := Fails();
      if failed {
        return false;
      }
      failed := Fails();
      var links;
      ok, links := ServerRelationships(desired, !failed);
      if !ok {
        return;
      }
      failed := Fails();
      var done: bool := *;    // a call that fails may have happened
      if !failed || done {
        monitor := Some(links);
      }
      return !failed;
    }

    method ReconcileServices(desired: Index, desiredServers: Index) returns (ok: bool, ghost links: seq<string>)
      requires !services.stateful && servers != services
      modifies services, this`faults
      ensures Lists(links, servers.items.Keys * desiredServers.Keys) || services.items == old(services.items)
      ensures Halfway(false, Linked(desired, links), old(services.items), services.items)
      ensures ok ==> Lists(links, servers.items.Keys * desiredServers.Keys)
      ensures ok ==> services.items == Target(false, Linked(desired, links), old(services.items))
      ensures faults + services.faults == old(faults + services.faults) + if ok then 0 else 1
    {
      var failed := Fails();
      var rels;
      ok, rels := ServerRelationships(desiredServers, !failed);
      links := rels;
      if ok {
        var d;
        ok, d := services.Pass(Linked(desired, rels));
      }
    }

    // The three phases in order. When they all succeed the servers are the desired ones and both the
    // monitor and every service are linked to exactly those.
    method Reconcile(desired: Index, desiredServices: Index) returns (ok: bool)
      requires servers.stateful && !services.stateful && servers != services
      modifies this, servers, services
      ensures Halfway(true, desired, old(servers.items), servers.items)
      ensures ok ==> servers.items == Target(true, desired, old(servers.items))
      ensures ok ==> monitor.Some? && Lists(monitor.value, desired.Keys)
      ensures ok ==> services.items == Target(false, Linked(desiredServices, monitor.value), old(services.items))
      ensures ok ==> forall id | id in desiredServices :: id in services.items && services.items[id].links == monitor.value
      ensures faults + servers.faults + services.faults
           == old(faults + servers.faults + services.faults) + if ok then 0 else 1
    {
      var d;
      ok, d := servers.Pass(desired);
      if !ok {
        return;
      }
      assert servers.items.Keys * desired.Keys == desired.Keys;
      ok := ReconcileMonitor(desired);
      if !ok {
        return;
      }
      ghost var links;
      ok, links := ReconcileServices(desiredServices, desired);
      if ok {
        ListsIsUnique(links, monitor.value, desired.Keys);
      }
    }
  }
}
