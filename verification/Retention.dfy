/** Backup retention (backups/retention.ts) and the run that applies it (backups/runner.ts). */
module Retention {
  import opened Text
  import BackupName

  datatype BackupRecord = BackupRecord(id: string, createdAt: int)

  // ---- newest first ----

  function InsertNewest(r: BackupRecord, sorted: seq<BackupRecord>): seq<BackupRecord> {
    if sorted == [] || sorted[0].createdAt <= r.createdAt then [r] + sorted
    else [sorted[0]] + InsertNewest(r, sorted[1..])
  }

  /** The stable sort by descending createdAt. */
  function NewestFirst(backups: seq<BackupRecord>): seq<BackupRecord> {
    if backups == [] then [] else InsertNewest(backups[0], NewestFirst(backups[1..]))
  }

  ghost predicate Descending(s: seq<BackupRecord>) {
    |s| <= 1 || (s[0].createdAt >= s[1].createdAt && Descending(s[1..]))
  }

  lemma {:induction false} DescendingHead(s: seq<BackupRecord>, i: nat)
    requires Descending(s) && i < |s|
    ensures s[0].createdAt >= s[i].createdAt
  {
    if i > 0 {
      DescendingHead(s[1..], i - 1);
    }
  }

  ghost predicate DistinctIds(s: seq<BackupRecord>) {
    forall i, j :: 0 <= i < j < |s| ==> s[i].id != s[j].id
  }

  lemma {:induction false} InsertKeepsOrder(r: BackupRecord, s: seq<BackupRecord>)
    requires Descending(s)
    ensures Descending(InsertNewest(r, s))
  {
    if s != [] && s[0].createdAt > r.createdAt {
      InsertKeepsOrder(r, s[1..]);
      var t := InsertNewest(r, s[1..]);
      assert t[0] == r || t[0] == s[1];
      assert ([s[0]] + t)[1..] == t;
    } else {
      assert ([r] + s)[1..] == s;
    }
  }

  lemma {:induction false} InsertAdds(r: BackupRecord, s: seq<BackupRecord>)
    ensures multiset(InsertNewest(r, s)) == multiset(s) + multiset{r}
  {
    if s != [] && s[0].createdAt > r.createdAt {
      InsertAdds(r, s[1..]);
      assert s == [s[0]] + s[1..];
    }
  }

  /** The sort is a descending permutation. */
  lemma {:induction false} SortIsSorted(b: seq<BackupRecord>)
    ensures Descending(NewestFirst(b)) && multiset(NewestFirst(b)) == multiset(b)
    ensures |NewestFirst(b)| == |b|
  {
    if b != [] {
      hide Descending, InsertNewest;
      var rest := NewestFirst(b[1..]);
      SortIsSorted(b[1..]);
      InsertKeepsOrder(b[0], rest);
      InsertAdds(b[0], rest);
      assert b == [b[0]] + b[1..] && multiset(b) == multiset{b[0]} + multiset(b[1..]);
    }
    assert |multiset(NewestFirst(b))| == |multiset(b)|;
  }

  // ---- selecting what to prune ----

  function Ids(s: seq<BackupRecord>): seq<string> {
    if s == [] then [] else [s[0].id] + Ids(s[1..])
  }

  predicate InWindow(r: BackupRecord, retentionMs: int, now: int) {
    now - r.createdAt <= retentionMs
  }

  /** How many of a newest-first sequence are in the window: they come first. */
  function WindowCount(s: seq<BackupRecord>, retentionMs: int, now: int): (n: nat)
    ensures n <= |s|
  {
    if s == [] || !InWindow(s[0], retentionMs, now) then 0 else 1 + WindowCount(s[1..], retentionMs, now)
  }

  /** The length of the kept prefix: the newest keepCount, or everything in the window if that is more. */
  function KeptCount(s: seq<BackupRecord>, keepCount: int, retentionMs: int, now: int): (n: nat)
    ensures n <= |s|
  {
    Max(Min(Max(0, keepCount), |s|), WindowCount(s, retentionMs, now))
  }

  lemma {:induction false} WindowIsPrefix(s: seq<BackupRecord>, retentionMs: int, now: int, i: nat)
    requires Descending(s) && i < |s|
    ensures InWindow(s[i], retentionMs, now) <==> i < WindowCount(s, retentionMs, now)
  {
    DescendingHead(s, i);
    if i > 0 && InWindow(s[0], retentionMs, now) {
      WindowIsPrefix(s[1..], retentionMs, now, i - 1);
    }
  }

  lemma {:induction false} IdsAt(s: seq<BackupRecord>)
    ensures |Ids(s)| == |s| && forall i :: 0 <= i < |s| ==> Ids(s)[i] == s[i].id
  {
    if s != [] {
      IdsAt(s[1..]);
    }
  }

  lemma {:induction false} SortKeepsDistinct(b: seq<BackupRecord>)
    requires DistinctIds(b)
    ensures DistinctIds(NewestFirst(b))
    ensures forall r :: r in NewestFirst(b) <==> r in b
  {
    SortIsSorted(b);
    forall r ensures r in NewestFirst(b) <==> r in b {
      assert r in multiset(NewestFirst(b)) <==> r in multiset(b);
    }
    if b != [] {
      SortKeepsDistinct(b[1..]);
      forall r | r in NewestFirst(b[1..]) ensures r.id != b[0].id {
        var i :| 0 <= i < |b[1..]| && b[1..][i] == r;
        assert b[0].id != b[i + 1].id;
      }
      InsertKeepsDistinct(b[0], NewestFirst(b[1..]));
    }
  }

  lemma {:induction false} InsertKeepsDistinct(r: BackupRecord, s: seq<BackupRecord>)
    requires DistinctIds(s) && forall x :: x in s ==> x.id != r.id
    ensures DistinctIds(InsertNewest(r, s))
    ensures forall x :: x in InsertNewest(r, s) ==> x == r || x in s
  {
    if s != [] && s[0].createdAt > r.createdAt {
      InsertKeepsDistinct(r, s[1..]);
      var t := InsertNewest(r, s[1..]);
      forall x | x in t ensures x.id != s[0].id {
        if x != r {
          var i :| 0 <= i < |s[1..]| && s[1..][i] == x;
          assert s[0].id != s[i + 1].id;
        }
      }
    }
  }

  /** The names that are not marked, in order. */
  function Unmarked(s: seq<BackupRecord>, keep: set<string>): seq<string> {
    if s == [] then []
    else if s[0].id in keep then Unmarked(s[1..], keep)
    else [s[0].id] + Unmarked(s[1..], keep)
  }

  ghost predicate IsKept(s: seq<BackupRecord>, keepCount: int, retentionMs: int, now: int, i: nat)
    requires i < |s|
  {
    i < keepCount || InWindow(s[i], retentionMs, now)
  }

  /** The marked names are those of the records that are kept. */
  ghost predicate IsMarking(s: seq<BackupRecord>, keepCount: int, retentionMs: int, now: int, keep: set<string>) {
    && (forall i :: 0 <= i < |s| && IsKept(s, keepCount, retentionMs, now, i) ==> s[i].id in keep)
    && (forall id :: id in keep ==>
          exists i :: 0 <= i < |s| && s[i].id == id && IsKept(s, keepCount, retentionMs, now, i))
  }

  /** Sorts a copy, marks the newest keepCount, then whatever is in the window, and returns the rest:
      a name is marked exactly when one of its records is among the newest keepCount or in the window. */
  method SelectBackupsToPrune(backups: seq<BackupRecord>, keepCount: int, retentionMs: int, now: int)
    returns (prune: seq<string>, ghost keep: set<string>)
    ensures prune == Unmarked(NewestFirst(backups), keep)
    ensures IsMarking(NewestFirst(backups), keepCount, retentionMs, now, keep)
    ensures DistinctIds(backups) ==> prune == Pruned(backups, keepCount, retentionMs, now)
  {
    var sorted := NewestFirst(backups);
    var marked := set i | 0 <= i < Min(Max(0, keepCount), |sorted|) :: sorted[i].id;
    for i := 0 to |sorted|
      invariant forall k :: 0 <= k < |sorted| && (k < keepCount || (k < i && InWindow(sorted[k], retentionMs, now)))
                  ==> sorted[k].id in marked
      invariant forall id :: id in marked ==>
                  exists k :: 0 <= k < |sorted| && sorted[k].id == id && IsKept(sorted, keepCount, retentionMs, now, k)
    {
      if now - sorted[i].createdAt <= retentionMs {
        assert IsKept(sorted, keepCount, retentionMs, now, i);
        marked := marked + {sorted[i].id};
      }
    }
    assert IsMarking(sorted, keepCount, retentionMs, now, marked);
    keep := marked;
    prune := Unmarked(sorted, marked);
    if DistinctIds(backups) {
      DistinctPrune(backups, keepCount, retentionMs, now, marked);
    }
  }

  /** What pruning leaves: the kept prefix of the newest-first order. */
  function Kept(backups: seq<BackupRecord>, keepCount: int, retentionMs: int, now: int): seq<BackupRecord> {
    var s := NewestFirst(backups);
    s[..KeptCount(s, keepCount, retentionMs, now)]
  }

  function Pruned(backups: seq<BackupRecord>, keepCount: int, retentionMs: int, now: int): seq<string> {
    var s := NewestFirst(backups);
    Ids(s[KeptCount(s, keepCount, retentionMs, now)..])
  }

  lemma {:induction false} UnmarkedSuffix(s: seq<BackupRecord>, keep: set<string>, n: nat)
    requires n <= |s| && forall i :: 0 <= i < |s| ==> (s[i].id in keep <==> i < n)
    ensures Unmarked(s, keep) == Ids(s[n..])
  {
    if s != [] {
      if n > 0 {
        UnmarkedSuffix(s[1..], keep, n - 1);
        assert s[1..][n - 1..] == s[n..];
      } else {
        UnmarkedSuffix(s[1..], keep, 0);
        assert s[1..][0..] == s[0..][1..];
      }
    }
  }

  /** With distinct names, the marked records are the kept prefix. */
  lemma {:induction false} DistinctPrune(backups: seq<BackupRecord>, keepCount: int, retentionMs: int, now: int,
                                         keep: set<string>)
    requires DistinctIds(backups)
    requires IsMarking(NewestFirst(backups), keepCount, retentionMs, now, keep)
    ensures Unmarked(NewestFirst(backups), keep) == Pruned(backups, keepCount, retentionMs, now)
  {
    var s := NewestFirst(backups);
    SortIsSorted(backups);
    SortKeepsDistinct(backups);
    var n := KeptCount(s, keepCount, retentionMs, now);
    forall i | 0 <= i < |s| ensures s[i].id in keep <==> i < n {
      WindowIsPrefix(s, retentionMs, now, i);
      if s[i].id in keep {
        var k :| 0 <= k < |s| && s[k].id == s[i].id && IsKept(s, keepCount, retentionMs, now, k);
        assert k == i;
      }
    }
    UnmarkedSuffix(s, keep, n);
  }

  // ---- laws of the kept set ----

  /** Advancing the clock only shrinks the kept prefix. */
  lemma {:induction false} WindowShrinks(s: seq<BackupRecord>, retentionMs: int, now: int, later: int)
    requires now <= later
    ensures WindowCount(s, retentionMs, later) <= WindowCount(s, retentionMs, now)
  {
    if s != [] {
      WindowShrinks(s[1..], retentionMs, now, later);
    }
  }

  lemma {:induction false} KeptShrinks(backups: seq<BackupRecord>, keepCount: int, retentionMs: int, now: int,
                                       later: int)
    requires now <= later
    ensures Kept(backups, keepCount, retentionMs, later) <= Kept(backups, keepCount, retentionMs, now)
  {
    var s := NewestFirst(backups);
    WindowShrinks(s, retentionMs, now, later);
    var n, m := KeptCount(s, keepCount, retentionMs, now), KeptCount(s, keepCount, retentionMs, later);
    assert s[..m] == s[..n][..m];
  }

  lemma {:induction false} AllInWindow(s: seq<BackupRecord>, retentionMs: int, now: int)
    requires forall i :: 0 <= i < |s| ==> InWindow(s[i], retentionMs, now)
    ensures WindowCount(s, retentionMs, now) == |s|
  {
    if s != [] {
      AllInWindow(s[1..], retentionMs, now);
    }
  }

  /** A bag of records all in the window. */
  lemma {:induction false} BagInWindow(s: seq<BackupRecord>, t: seq<BackupRecord>, retentionMs: int, now: int)
    requires Descending(s) && multiset(t) == multiset(s[..WindowCount(s, retentionMs, now)])
    ensures WindowCount(t, retentionMs, now) == |t|
  {
    var n := WindowCount(s, retentionMs, now);
    forall i | 0 <= i < |t| ensures InWindow(t[i], retentionMs, now) {
      assert t[i] in multiset(t);
      assert t[i] in s[..n];
      var k :| 0 <= k < n && s[k] == t[i];
      WindowIsPrefix(s, retentionMs, now, k);
    }
    AllInWindow(t, retentionMs, now);
  }

  /** Pruning again at the same clock prunes nothing, in whatever order the kept files are listed. */
  lemma {:induction false} PruneIsIdempotent(backups: seq<BackupRecord>, relisted: seq<BackupRecord>,
                                             keepCount: int, retentionMs: int, now: int)
    requires multiset(relisted) == multiset(Kept(backups, keepCount, retentionMs, now))
    ensures Pruned(relisted, keepCount, retentionMs, now) == []
  {
    var s, t := NewestFirst(backups), NewestFirst(relisted);
    var kept := Kept(backups, keepCount, retentionMs, now);
    SortIsSorted(backups);
    SortIsSorted(relisted);
    assert |multiset(relisted)| == |multiset(kept)|;
    if |kept| == WindowCount(s, retentionMs, now) {
      BagInWindow(s, t, retentionMs, now);
    }
    assert KeptCount(t, keepCount, retentionMs, now) == |t|;
  }

  /** Exactly when a listed file survives a prune: its place in the newest-first order is below the
      count, or it is in the window. */
  lemma {:induction false} SurvivesExactly(backups: seq<BackupRecord>, keepCount: int, retentionMs: int, now: int,
                                           i: nat)
    requires DistinctIds(backups) && i < |backups|
    ensures |NewestFirst(backups)| == |backups|
    ensures NewestFirst(backups)[i].id !in Pruned(backups, keepCount, retentionMs, now)
            <==> i < keepCount || InWindow(NewestFirst(backups)[i], retentionMs, now)
  {
    SortIsSorted(backups);
    SortKeepsDistinct(backups);
    var s := NewestFirst(backups);
    var n := KeptCount(s, keepCount, retentionMs, now);
    IdsAt(s[n..]);
    WindowIsPrefix(s, retentionMs, now, i);
    if i >= n {
      assert Ids(s[n..])[i - n] == s[i].id;
    } else {
      forall k | 0 <= k < |Ids(s[n..])| ensures Ids(s[n..])[k] != s[i].id {
        assert Ids(s[n..])[k] == s[n + k].id;
      }
    }
  }

  // ---- the newest backups over a run of uploads and prunes ----

  function Stamp(name: string): Option<int> {
    BackupName.ParseBackupTimestamp(name)
  }

  /** The listed names that parse as backups. */
  function Records(names: seq<string>): seq<BackupRecord> {
    if names == [] then []
    else if Stamp(names[0]).Some? then [BackupRecord(names[0], Stamp(names[0]).value)] + Records(names[1..])
    else Records(names[1..])
  }

  lemma {:induction false} RecordsAreListed(names: seq<string>)
    ensures forall r :: r in Records(names) <==> r.id in names && Stamp(r.id) == Some(r.createdAt)
  {
    if names != [] {
      RecordsAreListed(names[1..]);
      assert names == [names[0]] + names[1..];
    }
  }

  ghost predicate Distinct(names: seq<string>) {
    forall i, j :: 0 <= i < j < |names| ==> names[i] != names[j]
  }

  lemma {:induction false} RecordsAreDistinct(names: seq<string>)
    requires Distinct(names)
    ensures DistinctIds(Records(names))
  {
    if names != [] {
      RecordsAreDistinct(names[1..]);
      RecordsAreListed(names[1..]);
      assert names[0] !in names[1..] by {
        forall k | 0 <= k < |names[1..]| ensures names[1..][k] != names[0] {
          assert names[0] != names[k + 1];
        }
      }
    }
  }

  lemma {:induction false} TwoNewestFirst(older: BackupRecord, newer: BackupRecord)
    requires older.createdAt < newer.createdAt
    ensures NewestFirst([older, newer]) == [newer, older]
  {
    assert [older, newer][1..] == [newer] && [newer][1..] == [];
    assert NewestFirst([newer]) == [newer];
    assert InsertNewest(older, []) == [older];
  }

  /** The runner's claim that the file just uploaded always survives fails for settings the routes accept: keep 1
      and a window of at least a day, when another listed backup has a later stamp and the clock that retention
      reads is past the window. */
  lemma {:induction false} JustUploadedCanBePruned(database: string, ext: string, uploaded: int, later: int,
                                                   days: nat, now: int)
    requires database != "" && forall c :: c in database ==> c !in {'\n', '\r', '\U{2028}', '\U{2029}'}
    requires ext in {"dump.gz", "tar.gz", "tar"}
    requires BackupName.FourDigitYear(uploaded) && BackupName.FourDigitYear(later) && uploaded + 1000 <= later
    requires days >= 1 && now > uploaded + days * BackupName.MS_PER_DAY
    ensures var name := BackupName.BackupFilename(database, uploaded, ext);
      var other := BackupName.BackupFilename(database, later, ext);
      && Distinct([name, other])
      && Pruned(Records([name, other]), 1, days * BackupName.MS_PER_DAY, now) == [name]
  {
    hide BackupName.ParseBackupTimestamp, BackupName.BackupFilename, BackupName.FourDigitYear;
    var name := BackupName.BackupFilename(database, uploaded, ext);
    var other := BackupName.BackupFilename(database, later, ext);
    BackupName.NameReadsBack(database, uploaded, ext);
    BackupName.NameReadsBack(database, later, ext);
    var r, s := BackupRecord(name, uploaded - uploaded % 1000), BackupRecord(other, later - later % 1000);
    RecordFirst(other, s.createdAt, []);
    RecordFirst(name, r.createdAt, [other]);
    assert [name] + [other] == [name, other] && [other] + [] == [other] && [r] + [s] == [r, s] && [s] + [] == [s];
    TwoNewestFirst(r, s);
    OneKept(s, r, days * BackupName.MS_PER_DAY, now);
    assert [s, r][1..] == [r] && [r][1..] == [];
    assert Ids([r]) == [name];
  }

  lemma {:induction false} RecordFirst(name: string, at: int, names: seq<string>)
    requires Stamp(name) == Some(at)
    ensures Records([name] + names) == [BackupRecord(name, at)] + Records(names)
  {
    assert ([name] + names)[1..] == names;
  }

  lemma {:induction false} OneKept(newer: BackupRecord, older: BackupRecord, retentionMs: int, now: int)
    requires !InWindow(older, retentionMs, now)
    ensures KeptCount([newer, older], 1, retentionMs, now) == 1
  {
    assert [newer, older][1..] == [older];
    assert WindowCount([older], retentionMs, now) == 0;
  }

  /** The backups of a set that are at least as new as a given one, itself included. */
  ghost function AsNew(files: set<string>, at: int): set<string> {
    set f | f in files && Stamp(f).Some? && Stamp(f).value >= at
  }

  /** b is one of the newest n backups of files, whatever way ties are broken. */
  ghost predicate AmongNewest(files: set<string>, b: string, n: int) {
    b in files && Stamp(b).Some? && |AsNew(files, Stamp(b).value)| <= n
  }

  /** Uploads, and prunes of any listing of existing files at any clock and window; deletions may fail. */
  datatype StoreEvent =
    | Upload(name: string)
    | Prune(listed: seq<string>, retentionMs: int, now: int, undeleted: set<string>)

  datatype Store = Store(files: set<string>, ever: set<string>)

  ghost predicate Enabled(s: Store, e: StoreEvent) {
    e.Prune? ==> Distinct(e.listed) && forall f :: f in e.listed ==> f in s.files
  }

  function After(s: Store, e: StoreEvent, keepCount: int): Store {
    match e
    case Upload(name) => Store(s.files + {name}, s.ever + {name})
    case Prune(listed, retentionMs, now, undeleted) =>
      var prune := Pruned(Records(listed), keepCount, retentionMs, now);
      s.(files := s.files - (set f | f in prune && f !in undeleted))
  }

  ghost predicate EnabledRun(s: Store, run: seq<StoreEvent>, keepCount: int)
    decreases |run|
  {
    run == [] || (Enabled(s, run[0]) && EnabledRun(After(s, run[0], keepCount), run[1..], keepCount))
  }

  function AfterRun(s: Store, run: seq<StoreEvent>, keepCount: int): Store
    decreases |run|
  {
    if run == [] then s else AfterRun(After(s, run[0], keepCount), run[1..], keepCount)
  }

  ghost predicate Safe(s: Store, keepCount: int) {
    && s.files <= s.ever
    && (forall b :: AmongNewest(s.ever, b, keepCount) ==> b in s.files)
    && (forall f :: f in s.ever && Stamp(f).None? ==> f in s.files)
  }

  lemma {:induction false} NotOlder(sorted: seq<BackupRecord>, k: nat, i: nat)
    requires Descending(sorted) && k <= i < |sorted|
    ensures sorted[k].createdAt >= sorted[i].createdAt
  {
    TailDescends(sorted, k);
    DescendingHead(sorted[k..], i - k);
  }

  /** The names in front of position i of a newest-first listing are at least as new. */
  lemma {:induction false} RankInListing(sorted: seq<BackupRecord>, files: set<string>, i: nat)
    requires Descending(sorted) && DistinctIds(sorted) && i < |sorted|
    requires forall k :: 0 <= k < |sorted| ==>
               sorted[k].id in files && Stamp(sorted[k].id) == Some(sorted[k].createdAt)
    ensures |AsNew(files, sorted[i].createdAt)| > i
  {
    hide Descending, BackupName.ParseBackupTimestamp;
    var front, asNew := set k | 0 <= k < i + 1 :: sorted[k].id, AsNew(files, sorted[i].createdAt);
    CountDistinct(sorted, i + 1);
    forall k | 0 <= k < i + 1 ensures sorted[k].id in asNew {
      NotOlder(sorted, k, i);
    }
    assert front <= asNew;
    SubsetSize(front, asNew);
  }

  lemma {:induction false} TailDescends(s: seq<BackupRecord>, k: nat)
    requires Descending(s) && k <= |s|
    ensures Descending(s[k..])
  {
    if k > 0 {
      TailDescends(s[1..], k - 1);
      assert s[1..][k - 1..] == s[k..];
    }
  }

  lemma {:induction false} CountDistinct(s: seq<BackupRecord>, n: nat)
    requires DistinctIds(s) && n <= |s|
    ensures |(set k | 0 <= k < n :: s[k].id)| == n
  {
    if n > 0 {
      CountDistinct(s, n - 1);
      var before := set k | 0 <= k < n - 1 :: s[k].id;
      assert (set k | 0 <= k < n :: s[k].id) == before + {s[n - 1].id};
    }
  }

  /** What one prune may delete: only listed backups beyond the newest keepCount of everything stored. */
  lemma {:induction false} PruneSparesNewest(listed: seq<string>, files: set<string>, keepCount: int,
                                             retentionMs: int, now: int, f: string)
    requires Distinct(listed) && (forall x :: x in listed ==> x in files)
    requires f in Pruned(Records(listed), keepCount, retentionMs, now)
    ensures f in listed && Stamp(f).Some? && |AsNew(files, Stamp(f).value)| > keepCount
  {
    hide BackupName.ParseBackupTimestamp, AsNew, Descending, NewestFirst, Records;
    var records := Records(listed);
    RecordsAreDistinct(listed);
    RecordsAreListed(listed);
    SortIsSorted(records);
    SortKeepsDistinct(records);
    var s := NewestFirst(records);
    var n := KeptCount(s, keepCount, retentionMs, now);
    IdsAt(s[n..]);
    var i :| 0 <= i < |s[n..]| && Ids(s[n..])[i] == f;
    assert s[n + i].id == f;
    forall k | 0 <= k < |s| ensures s[k].id in files && Stamp(s[k].id) == Some(s[k].createdAt) {
      assert s[k] in s;
    }
    RankInListing(s, files, n + i);
  }

  lemma {:induction false} StepIsSafe(s: Store, e: StoreEvent, keepCount: int)
    requires Safe(s, keepCount) && Enabled(s, e)
    ensures Safe(After(s, e, keepCount), keepCount)
  {
    var t := After(s, e, keepCount);
    if e.Upload? {
      forall b | AmongNewest(t.ever, b, keepCount) ensures b in t.files {
        if b != e.name {
          SubsetSize(AsNew(s.ever, Stamp(b).value), AsNew(t.ever, Stamp(b).value));
          assert AmongNewest(s.ever, b, keepCount);
        }
      }
    } else {
      var prune := Pruned(Records(e.listed), keepCount, e.retentionMs, e.now);
      forall f | f in prune ensures Stamp(f).Some? && !AmongNewest(s.ever, f, keepCount) {
        PruneSparesNewest(e.listed, s.files, keepCount, e.retentionMs, e.now, f);
        SubsetSize(AsNew(s.files, Stamp(f).value), AsNew(s.ever, Stamp(f).value));
      }
    }
  }

  lemma {:induction false} SafeStays(s: Store, run: seq<StoreEvent>, keepCount: int)
    requires Safe(s, keepCount) && EnabledRun(s, run, keepCount)
    ensures Safe(AfterRun(s, run, keepCount), keepCount)
    decreases |run|
  {
    if run != [] {
      StepIsSafe(s, run[0], keepCount);
      SafeStays(After(s, run[0], keepCount), run[1..], keepCount);
    }
  }

  lemma {:induction false} SafeIs(s: Store, keepCount: int)
    ensures Safe(s, keepCount) <==>
      && s.files <= s.ever
      && (forall b :: b in s.ever && Stamp(b).Some?
                      && |set f | f in s.ever && Stamp(f).Some? && Stamp(f).value >= Stamp(b).value| <= keepCount ==>
            b in s.files)
      && (forall f :: f in s.ever && Stamp(f).None? ==> f in s.files)
  {
    forall b | b in s.ever && Stamp(b).Some?
      ensures AsNew(s.ever, Stamp(b).value)
           == set f | f in s.ever && Stamp(f).Some? && Stamp(f).value >= Stamp(b).value {
    }
  }

  /** Over any run of uploads and prunes, if they are there at its start, each of the newest keepCount of all backups
      ever uploaded is there at its end, and so is every file that does not parse as a backup. */
  lemma {:induction false} NewestSurvive(s: Store, run: seq<StoreEvent>, keepCount: int)
    requires s.files <= s.ever && EnabledRun(s, run, keepCount)
    requires forall b ::
               b in s.ever && Stamp(b).Some?
               && |set f | f in s.ever && Stamp(f).Some? && Stamp(f).value >= Stamp(b).value| <= keepCount ==>
                 b in s.files
    requires forall f :: f in s.ever && Stamp(f).None? ==> f in s.files
    ensures var t := AfterRun(s, run, keepCount);
      && (forall b :: b in t.ever && Stamp(b).Some?
                      && |set f | f in t.ever && Stamp(f).Some? && Stamp(f).value >= Stamp(b).value| <= keepCount ==>
            b in t.files)
      && (forall f :: f in t.ever && Stamp(f).None? ==> f in t.files)
  {
    hide Stamp, Safe;
    SafeIs(s, keepCount);
    SafeStays(s, run, keepCount);
    SafeIs(AfterRun(s, run, keepCount), keepCount);
  }
}
