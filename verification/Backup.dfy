/** Choice of the backup to restore and retention of old ones. Dates follow section 5.6 of RFC 3339 and
    are read by an abstract parser into instants; durations are signed 64-bit and saturate.
 */
module Backup {
  import opened Optional
  import opened Text

  type Parser = string -> Option<int>

  const MAX_DURATION: int := 0x7fff_ffff_ffff_ffff

  // Time.Sub.
  function Sub(a: int, b: int): (d: int)
    ensures Int64(d)
  {
    if a - b > MAX_DURATION then MAX_DURATION else if a - b < -MAX_DURATION - 1 then -MAX_DURATION - 1 else a - b
  }

  // Duration.Abs: the most negative duration becomes the largest one.
  function Abs(d: int): (r: int)
    requires Int64(d)
  {
    if d >= 0 then d else if d == -MAX_DURATION - 1 then MAX_DURATION else -d
  }

  function Date(parse: Parser, file: string): Option<int> {
    var parts := Split(file, '.');
    if |parts| == 3 then parse(parts[1]) else None
  }

  function Distance(parse: Parser, file: string, target: int): nat
    requires Date(parse, file).Some?
  {
    Abs(Sub(Date(parse, file).value, target))
  }

  // A file has a date exactly when its name is three parts, of which the second can be read.
  lemma DateIsExact(parse: Parser, file: string, date: int)
    ensures Date(parse, file) == Some(date) <==>
      exists a: string, b: string, c: string ::
        '.' !in a && '.' !in b && '.' !in c && file == a + "." + b + "." + c && parse(b) == Some(date)
  {
    if Date(parse, file) == Some(date) {
      var parts := Split(file, '.');
      SplitJoins(file, '.');
      assert parts[0] in parts && parts[1] in parts && parts[2] in parts;
      assert parts == [parts[0], parts[1], parts[2]];
      JoinThree(parts[0], parts[1], parts[2], '.');
      assert file == parts[0] + "." + parts[1] + "." + parts[2];
    }
    forall a: string, b: string, c: string |
      '.' !in a && '.' !in b && '.' !in c && file == a + "." + b + "." + c && parse(b) == Some(date)
      ensures Date(parse, file) == Some(date)
    {
      SplitThree(a, b, c);
    }
  }

  lemma SplitThree(a: string, b: string, c: string)
    requires '.' !in a && '.' !in b && '.' !in c
    ensures Split(a + "." + b + "." + c, '.') == [a, b, c]
  {
    SplitFirst(a, b + "." + c, '.');
    assert a + ['.'] + (b + "." + c) == a + "." + b + "." + c;
    SplitFirst(b, c, '.');
    assert b + ['.'] + c == b + "." + c;
    SplitWhole(c, '.');
  }

  // Distance in time, which only saturates where it exceeds 292 years.
  lemma DistanceIsExact(parse: Parser, file: string, target: int)
    requires Date(parse, file).Some?
    ensures
      var gap := Date(parse, file).value - target;
      Distance(parse, file, target) == Least(if gap < 0 then -gap else gap, MAX_DURATION)
  {}

  function Least(a: nat, b: nat): nat { if a <= b then a else b }

  predicate IsValidBackupFile(parse: Parser, file: string) {
    && "backup." <= file && |file| >= 4 && file[|file| - 4..] == ".sql"
    && Date(parse, file).Some?
  }

  // The valid names are exactly backup.DATE.sql with a date that has no dot and can be read.
  lemma ValidFilesAreNamed(parse: Parser, file: string)
    ensures IsValidBackupFile(parse, file) <==>
      exists date: string :: '.' !in date && file == "backup." + date + ".sql" && parse(date).Some?
  {
    if IsValidBackupFile(parse, file) {
      ThreeParts(file);
      var parts := Split(file, '.');
      SplitJoins(file, '.');
      assert parts[1] in parts;
      assert '.' !in parts[1] && file == "backup." + parts[1] + ".sql" && parse(parts[1]).Some?;
    }
    forall date: string | '.' !in date && file == "backup." + date + ".sql" && parse(date).Some?
      ensures IsValidBackupFile(parse, file)
    {
      SplitName(date);
    }
  }

  lemma SplitName(date: string)
    requires '.' !in date
    ensures Split("backup." + date + ".sql", '.') == ["backup", date, "sql"]
  {
    SplitThree("backup", date, "sql");
    assert "backup" + "." + date + "." + "sql" == "backup." + date + ".sql";
  }

  // A name with three parts that starts with "backup." and ends with ".sql" has those as outer parts.
  lemma ThreeParts(file: string)
    requires "backup." <= file && |file| >= 4 && file[|file| - 4..] == ".sql" && |Split(file, '.')| == 3
    ensures file == "backup." + Split(file, '.')[1] + ".sql"
  {
    OuterParts(file);
    var parts := Split(file, '.');
    SplitJoins(file, '.');
    assert parts == ["backup", parts[1], "sql"];
    JoinThree("backup", parts[1], "sql", '.');
  }

  lemma OuterParts(file: string)
    requires "backup." <= file && |file| >= 4 && file[|file| - 4..] == ".sql" && |Split(file, '.')| == 3
    ensures Split(file, '.')[0] == "backup" && Split(file, '.')[2] == "sql"
  {
    var head, rest := file[..|file| - 4], file[7..];
    assert file == head + ['.'] + "sql";
    SplitLast(head, "sql", '.');
    assert file == "backup" + ['.'] + rest;
    SplitFirst("backup", rest, '.');
  }

  lemma JoinThree(a: string, b: string, c: string, sep: char)
    ensures Join([a, b, c], sep) == a + [sep] + b + [sep] + c
  {
    assert [a, b, c][1..] == [b, c];
    assert [b, c][1..] == [c];
    assert Join([b, c], sep) == b + [sep] + c;
  }

  // ---- The choice ----

  predicate IsClosest(parse: Parser, files: seq<string>, target: int, file: string) {
    && file in files && Date(parse, file).Some?
    && forall g | g in files && Date(parse, g).Some? :: Distance(parse, file, target) <= Distance(parse, g, target)
  }

  datatype BackupDiff = BackupDiff(file: string, diff: int)

  predicate Sorted(ds: seq<BackupDiff>) {
    forall i, j | 0 <= i < j < |ds| :: ds[i].diff <= ds[j].diff
  }

  lemma SortedWith(d: BackupDiff, ds: seq<BackupDiff>, k: nat)
    requires Sorted(ds) && k <= |ds| && (k < |ds| ==> d.diff <= ds[k].diff)
    requires forall i | 0 <= i < k :: ds[i].diff <= d.diff
    ensures Sorted(ds[..k] + [d] + ds[k..])
  {
    assert forall i | k <= i < |ds| :: d.diff <= ds[i].diff;
  }

  // Puts d in its place; before or behind those it ties with.
  method Insert(d: BackupDiff, ds: seq<BackupDiff>) returns (r: seq<BackupDiff>)
    requires Sorted(ds)
    ensures Sorted(r) && multiset(r) == multiset(ds) + multiset{d}
  {
    var k := 0;
    var behind: bool := *;
    while k < |ds| && (ds[k].diff < d.diff || (ds[k].diff == d.diff && behind))
      invariant 0 <= k <= |ds| && forall i | 0 <= i < k :: ds[i].diff <= d.diff
    {
      k := k + 1;
      behind := *;
    }
    SortedWith(d, ds, k);
    r := ds[..k] + [d] + ds[k..];
    assert ds == ds[..k] + ds[k..];
  }

  // sort.Slice, which is not stable.
  method SortByDiff(ds: seq<BackupDiff>) returns (r: seq<BackupDiff>)
    ensures Sorted(r) && multiset(r) == multiset(ds)
  {
    r := [];
    for i := 0 to |ds|
      invariant Sorted(r) && multiset(r) == multiset(ds[..i])
    {
      r := Insert(ds[i], r);
      assert ds[..i + 1] == ds[..i] + [ds[i]];
    }
    assert ds[..|ds|] == ds;
  }

  // The candidates are the files that can be read, each with its distance.
  ghost predicate Measures(parse: Parser, files: seq<string>, target: int, ds: seq<BackupDiff>) {
    forall d :: d in ds <==> d.file in files && Date(parse, d.file).Some? && d.diff == Distance(parse, d.file, target)
  }

  lemma NoneMeasured(parse: Parser, files: seq<string>, target: int, ds: seq<BackupDiff>)
    requires Measures(parse, files, target, ds)
    ensures ds == [] <==> forall f | f in files :: Date(parse, f).None?
  {
    assert forall f | f in files && Date(parse, f).Some? :: BackupDiff(f, Distance(parse, f, target)) in ds;
    if ds != [] {
      assert ds[0] in ds;
    }
  }

  lemma FirstIsClosest(parse: Parser, files: seq<string>, target: int, ds: seq<BackupDiff>, sorted: seq<BackupDiff>)
    requires Measures(parse, files, target, ds) && Sorted(sorted) && multiset(sorted) == multiset(ds) && ds != []
    ensures sorted != [] && IsClosest(parse, files, target, sorted[0].file)
  {
    assert |multiset(sorted)| == |sorted| && |multiset(ds)| == |ds|;
    forall d ensures d in sorted <==> d in ds {
      assert d in sorted <==> d in multiset(sorted);
    }
    assert sorted[0] in sorted;
    forall g | g in files && Date(parse, g).Some?
      ensures sorted[0].diff <= Distance(parse, g, target)
    {
      assert BackupDiff(g, Distance(parse, g, target)) in sorted;
    }
  }

  method GetBackupTargetFile(parse: Parser, files: seq<string>, target: int) returns (r: Option<string>)
    ensures r.Some? ==> IsClosest(parse, files, target, r.value)
    ensures r.None? <==> forall f | f in files :: Date(parse, f).None?
  {
    var diffs: seq<BackupDiff> := [];
    for i := 0 to |files|
      invariant Measures(parse, files[..i], target, diffs)
    {
      var date := Date(parse, files[i]);
      assert files[..i + 1] == files[..i] + [files[i]];
      if date.Some? {
        var diff := Abs(Sub(date.value, target));
        if diff == 0 {
          return Some(files[i]);
        }
        diffs := diffs + [BackupDiff(files[i], diff)];
      }
    }
    assert files[..|files|] == files;
    NoneMeasured(parse, files, target, diffs);
    if |diffs| == 0 {
      return None;
    }
    var sorted := SortByDiff(diffs);
    FirstIsClosest(parse, files, target, diffs, sorted);
    return Some(sorted[0].file);
  }

  // ---- Retention ----

  predicate IsOld(parse: Parser, file: string, now: int, maxRetention: int) {
    Date(parse, file).Some? && Sub(now, Date(parse, file).value) > maxRetention
  }

  function Select(parse: Parser, files: seq<string>, now: int, maxRetention: int, aged: bool): seq<string> {
    if files == [] then []
    else
      var n := |files| - 1;
      Select(parse, files[..n], now, maxRetention, aged) + Pick(parse, files[n], now, maxRetention, aged)
  }

  function Pick(parse: Parser, file: string, now: int, maxRetention: int, aged: bool): seq<string> {
    if IsOld(parse, file, now, maxRetention) == aged then [file] else []
  }

  // Each file is selected as often as it is listed, or not at all.
  lemma {:induction false} SelectCounts(parse: Parser, files: seq<string>, now: int, max: int, aged: bool, f: string)
    ensures
      var r := Select(parse, files, now, max, aged);
      && multiset(r)[f] == (if IsOld(parse, f, now, max) == aged then multiset(files)[f] else 0)
      && (f in r <==> f in files && IsOld(parse, f, now, max) == aged)
    decreases |files|
  {
    var r := Select(parse, files, now, max, aged);
    if files != [] {
      var n := |files| - 1;
      assert files == files[..n] + [files[n]];
      SelectCounts(parse, files[..n], now, max, aged, f);
    }
    assert f in r <==> multiset(r)[f] > 0;
    assert f in files <==> multiset(files)[f] > 0;
  }

  method GetOldBackupFiles(parse: Parser, files: seq<string>, now: int, maxRetention: int) returns (r: seq<string>)
    ensures r == Select(parse, files, now, maxRetention, true)
  {
    r := [];
    for i := 0 to |files|
      invariant r == Select(parse, files[..i], now, maxRetention, true)
    {
      assert files[..i + 1][..i] == files[..i];
      var date := Date(parse, files[i]);
      if date.Some? && Sub(now, date.value) > maxRetention {
        r := r + [files[i]];
      }
    }
    assert files[..|files|] == files;
  }

  lemma SelectLast(parse: Parser, files: seq<string>, f: string, now: int, max: int, aged: bool)
    ensures Select(parse, files + [f], now, max, aged) == Select(parse, files, now, max, aged) + Pick(parse, f, now, max, aged)
  {
    assert (files + [f])[..|files|] == files;
  }

  // Files are selected one by one, in their order.
  lemma {:induction false} SelectIsPointwise(parse: Parser, a: seq<string>, b: seq<string>, now: int, max: int, aged: bool)
    ensures Select(parse, a + b, now, max, aged) == Select(parse, a, now, max, aged) + Select(parse, b, now, max, aged)
    ensures |b| == 1 ==> Select(parse, b, now, max, aged) == Pick(parse, b[0], now, max, aged)
    decreases |b|
  {
    if b == [] {
      assert a + b == a;
    } else {
      var front, last := b[..|b| - 1], b[|b| - 1];
      assert b == front + [last] && a + b == (a + front) + [last];
      SelectIsPointwise(parse, a, front, now, max, aged);
      SelectLast(parse, a + front, last, now, max, aged);
      SelectLast(parse, front, last, now, max, aged);
    }
  }

  // Exact age: with any limit but the largest duration a file is old exactly when its age exceeds the limit.
  lemma OldIsExact(parse: Parser, file: string, now: int, maxRetention: int)
    requires Int64(maxRetention) && Date(parse, file).Some?
    ensures IsOld(parse, file, now, maxRetention) <==>
      maxRetention < MAX_DURATION && now - Date(parse, file).value > maxRetention
  {}

  // Cleaning up and then choosing is as good as choosing first if and only if some closest file is kept.
  lemma ChoiceCommutesWithRetention(
      parse: Parser, files: seq<string>, target: int, now: int, maxRetention: int, before: string, after: string)
    requires IsClosest(parse, files, target, before)
    requires IsClosest(parse, Select(parse, files, now, maxRetention, false), target, after)
    ensures Distance(parse, after, target) == Distance(parse, before, target) <==>
      exists f :: IsClosest(parse, files, target, f) && !IsOld(parse, f, now, maxRetention)
  {
    var kept := Select(parse, files, now, maxRetention, false);
    forall f ensures f in kept <==> f in files && !IsOld(parse, f, now, maxRetention) {
      SelectCounts(parse, files, now, maxRetention, false, f);
    }
    if Distance(parse, after, target) == Distance(parse, before, target) {
      assert IsClosest(parse, files, target, after) && !IsOld(parse, after, now, maxRetention);
    }
    if f :| IsClosest(parse, files, target, f) && !IsOld(parse, f, now, maxRetention) {
      assert f in kept;
    }
  }
}
