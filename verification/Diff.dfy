/** Desired/actual difference of two indexes. Maps are iterated in an arbitrary order; the result does
    not depend on it. Strings are ordered by code point, as sort.Strings does on UTF-8.
 */
module Diff {

  // ---- String order ----

  predicate Less(a: string, b: string) {
    b != [] && (a == [] || a[0] < b[0] || (a[0] == b[0] && Less(a[1..], b[1..])))
  }

  lemma {:induction false} LessTotal(a: string, b: string)
    ensures Less(a, b) || a == b || Less(b, a)
  {
    if a != [] && b != [] && a[0] == b[0] {
      LessTotal(a[1..], b[1..]);
      assert a == [a[0]] + a[1..] && b == [b[0]] + b[1..];
    }
  }

  lemma {:induction false} LessTrans(a: string, b: string, c: string)
    requires Less(a, b) && Less(b, c)
    ensures Less(a, c)
  {
    if a != [] && a[0] == b[0] == c[0] {
      LessTrans(a[1..], b[1..], c[1..]);
    }
  }

  lemma {:induction false} LessIrreflexive(a: string)
    ensures !Less(a, a)
  {
    if a != [] {
      LessIrreflexive(a[1..]);
    }
  }

  predicate Increasing(s: seq<string>) {
    forall i, j | 0 <= i < j < |s| :: Less(s[i], s[j])
  }

  // The one sorted list, without duplicates, of a set.
  ghost predicate Lists(s: seq<string>, keys: set<string>) {
    Increasing(s) && forall x :: x in s <==> x in keys
  }

  lemma FirstIsLeast(a: seq<string>, x: string)
    requires Increasing(a) && x in a
    ensures x == a[0] || Less(a[0], x)
  {}

  lemma EmptyLists(s: seq<string>, keys: set<string>)
    requires Lists(s, keys)
    ensures s == [] <==> keys == {}
  {
    if s != [] {
      assert s[0] in keys;
    } else {
      assert forall x | x in keys :: x in s;
      assert keys <= {};
    }
  }

  // Whatever order the map was iterated in, the sorted list is the same.
  lemma {:induction false} ListsIsUnique(a: seq<string>, b: seq<string>, keys: set<string>)
    requires Lists(a, keys) && Lists(b, keys)
    ensures a == b
  {
    EmptyLists(a, keys);
    EmptyLists(b, keys);
    if a != [] {
      assert a[0] in b && b[0] in a;
      FirstIsLeast(a, b[0]);
      FirstIsLeast(b, a[0]);
      if a[0] != b[0] {
        LessTrans(a[0], b[0], a[0]);
        LessIrreflexive(a[0]);
        assert false;
      }
      TailLists(a, keys);
      TailLists(b, keys);
      ListsIsUnique(a[1..], b[1..], keys - {a[0]});
      assert a == [a[0]] + a[1..] && b == [b[0]] + b[1..];
    }
  }

  lemma TailLists(a: seq<string>, keys: set<string>)
    requires Lists(a, keys) && a != []
    ensures Lists(a[1..], keys - {a[0]})
  {
    LessIrreflexive(a[0]);
    forall x ensures x in a[1..] <==> x in keys - {a[0]} {
      if x in keys - {a[0]} {
        var i :| 0 <= i < |a| && a[i] == x;
        assert a[1..][i - 1] == x;
      }
    }
  }

  // ---- Sorting ----

  function Insert(x: string, s: seq<string>): (r: seq<string>)
    requires Increasing(s) && x !in s
    ensures Increasing(r) && forall y :: y in r <==> y == x || y in s
  {
    if s == [] then [x]
    else if Less(x, s[0]) then InsertFront(x, s); [x] + s
    else
      LessTotal(x, s[0]);
      assert s[0] !in s[1..] by { LessIrreflexive(s[0]); }
      InsertBehind(x, s);
      [s[0]] + Insert(x, s[1..])
  }

  lemma InsertFront(x: string, s: seq<string>)
    requires Increasing(s) && s != [] && Less(x, s[0])
    ensures Increasing([x] + s)
  {
    forall j | 0 <= j < |s| ensures Less(x, s[j]) {
      if j > 0 {
        LessTrans(x, s[0], s[j]);
      }
    }
  }

  lemma InsertBehind(x: string, s: seq<string>)
    requires Increasing(s) && s != [] && Less(s[0], x) && x !in s
    ensures Increasing(s[1..]) && x !in s[1..]
    ensures forall r: seq<string> | Increasing(r) && (forall y :: y in r <==> y == x || y in s[1..]) ::
      Increasing([s[0]] + r) && forall y :: y in [s[0]] + r <==> y == x || y in s
  {
    assert s == [s[0]] + s[1..];
    forall r: seq<string> | Increasing(r) && (forall y :: y in r <==> y == x || y in s[1..])
      ensures Increasing([s[0]] + r) && forall y :: y in [s[0]] + r <==> y == x || y in s
    {
      forall j | 0 <= j < |r| ensures Less(s[0], r[j]) {
        assert r[j] in r;
      }
    }
  }

  predicate Distinct(s: seq<string>) {
    forall i, j | 0 <= i < j < |s| :: s[i] != s[j]
  }

  function Sort(s: seq<string>): (r: seq<string>)
    requires Distinct(s)
    ensures Lists(r, set x | x in s)
  {
    if s == [] then []
    else
      assert s == [s[0]] + s[1..];
      Insert(s[0], Sort(s[1..]))
  }

  // ---- The difference ----

  datatype DiffResult = DiffResult(added: seq<string>, deleted: seq<string>, rest: seq<string>)

  ghost predicate IsDiff(d: DiffResult, current: set<string>, previous: set<string>) {
    Lists(d.added, current - previous) && Lists(d.deleted, previous - current) && Lists(d.rest, current * previous)
  }

  // Every key of either index is in exactly one of the three lists, once.
  lemma Partition(d: DiffResult, current: set<string>, previous: set<string>)
    requires IsDiff(d, current, previous)
    ensures multiset(d.added) + multiset(d.deleted) + multiset(d.rest) == multiset(current + previous)
  {
    CountsOnce(d.added, current - previous);
    CountsOnce(d.deleted, previous - current);
    CountsOnce(d.rest, current * previous);
    assert multiset(current - previous) + multiset(previous - current) + multiset(current * previous)
        == multiset(current + previous);
  }

  lemma {:induction false} CountsOnce(s: seq<string>, keys: set<string>)
    requires Lists(s, keys)
    ensures multiset(s) == multiset(keys)
  {
    EmptyLists(s, keys);
    if s != [] {
      TailLists(s, keys);
      CountsOnce(s[1..], keys - {s[0]});
      assert s == [s[0]] + s[1..];
      assert s[0] in s;
      assert multiset(keys) == multiset(keys - {s[0]}) + multiset{s[0]};
    }
  }

  // One loop over a map: the keys that are in the other map or not, in the order they come.
  method Classify(keys: set<string>, other: set<string>) returns (absent: seq<string>, present: set<string>)
    ensures Distinct(absent) && (forall x :: x in absent <==> x in keys - other)
    ensures present == keys * other
  {
    absent, present := [], {};
    var todo := keys;
    while todo != {}
      invariant todo <= keys && Distinct(absent)
      invariant forall x :: x in absent <==> x in keys - todo - other
      invariant present == (keys - todo) * other
      decreases |todo|
    {
      var k :| k in todo;
      if k in other {
        present := present + {k};
      } else {
        assert k !in absent;
        absent := absent + [k];
      }
      todo := todo - {k};
    }
  }

  method KeysOf(keys: set<string>) returns (list: seq<string>)
    ensures Distinct(list) && forall x :: x in list <==> x in keys
  {
    var none;
    list, none := Classify(keys, {});
  }

  method Diff<C, P>(current: map<string, C>, previous: map<string, P>) returns (d: DiffResult)
    ensures IsDiff(d, current.Keys, previous.Keys)
  {
    var added, both := Classify(current.Keys, previous.Keys);
    var deleted, again := Classify(previous.Keys, current.Keys);
    var rest := KeysOf(both + again);
    assert (set x | x in added) == current.Keys - previous.Keys;
    assert (set x | x in deleted) == previous.Keys - current.Keys;
    assert (set x | x in rest) == current.Keys * previous.Keys;
    d := DiffResult(Sort(added), Sort(deleted), Sort(rest));
  }
}
