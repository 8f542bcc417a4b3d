/** One backup run of backups/runner.ts: upload, size probe, retention, and the recorded outcome. */
module BackupRun {
  import opened Text
  import opened Retention
  import BackupName

  datatype Spec = Spec(database: string, ext: string, prefix: string, keep: int, retentionMs: int)

  datatype OutLine = OutLine(stdout: bool, line: string)

  /** The commands a run hands to exec, by what they do to the bucket prefix. */
  datatype Command = UploadTo(name: string) | SizeOf(name: string) | List | Delete(name: string)

  /** exec settles with an exit code and output, or rejects; `took` says whether the command's effect
      on the bucket happened all the same (a failed delete may or may not have removed the file). */
  datatype Answer = Exit(code: int, lines: seq<OutLine>, took: bool) | Rejected(took: bool)

  predicate Succeeded(a: Answer) { a.Exit? && a.code == 0 }

  /** Everything outside the run: answers may depend on all commands so far. */
  datatype World = World(
    exec: seq<Command> -> Answer,
    uploadClock: int,
    retentionClock: int,
    bytes: seq<OutLine> -> Option<nat>)

  datatype Recorded = Success(location: string, sizeBytes: Option<nat>) | Failure

  /** The file names of a listing. */
  function Listed(lines: seq<OutLine>): seq<string> {
    if lines == [] then []
    else if lines[0].stdout && Trim(lines[0].line) != "" then [Trim(lines[0].line)] + Listed(lines[1..])
    else Listed(lines[1..])
  }

  predicate PrintsName(l: OutLine, name: string) { l.stdout && Trim(l.line) == name }

  /** The names are the trimmed stdout lines that are not blank. */
  lemma {:induction false} ListedAre(lines: seq<OutLine>, name: string)
    ensures name in Listed(lines) <==> name != "" && exists i :: 0 <= i < |lines| && PrintsName(lines[i], name)
  {
    if lines != [] {
      ListedAre(lines[1..], name);
      if name != "" && PrintsName(lines[0], name) {
        assert Listed(lines)[0] == name;
      } else {
        assert forall i :: 0 < i < |lines| ==> lines[i] == lines[1..][i - 1];
        assert forall i :: 0 <= i < |lines| - 1 ==> lines[1..][i] == lines[i + 1];
        assert name in Listed(lines) <==> name in Listed(lines[1..]);
      }
    }
  }

  /** They come in the order of the lines. */
  lemma {:induction false} ListedInOrder(a: seq<OutLine>, b: seq<OutLine>)
    ensures Listed(a + b) == Listed(a) + Listed(b)
  {
    hide Trim;
    if a == [] {
      assert a + b == b;
    } else {
      ListedInOrder(a[1..], b);
      assert (a + b)[1..] == a[1..] + b && (a + b)[0] == a[0];
      var head := if a[0].stdout && Trim(a[0].line) != "" then [Trim(a[0].line)] else [];
      assert Listed(a) == head + Listed(a[1..]) && Listed(a + b) == head + Listed(a[1..] + b);
      PlusAssociates(head, Listed(a[1..]), Listed(b));
    }
  }

  function Deletes(names: seq<string>): (commands: seq<Command>)
    ensures |commands| == |names| && forall i :: 0 <= i < |names| ==> commands[i] == Delete(names[i])
  {
    if names == [] then [] else [Delete(names[0])] + Deletes(names[1..])
  }

  /** Deletes one object at a time; a failure is noted and the loop goes on. */
  method DeleteAll(prune: seq<string>, world: World, past: seq<Command>, before: set<string>)
    returns (log: seq<Command>, files: set<string>, undeleted: set<string>)
    ensures log == past + Deletes(prune)
    ensures files == before - (set f | f in prune && f !in undeleted)
  {
    log, files, undeleted := past, before, set f | f in prune;
    var gone: set<string> := {};
    for i := 0 to |prune|
      invariant log + Deletes(prune[i..]) == past + Deletes(prune)
      invariant files == before - gone
      invariant gone <= set f | f in prune
    {
      log := log + [Delete(prune[i])];
      var a := world.exec(log);
      if a.took {
        files := files - {prune[i]};
        gone := gone + {prune[i]};
      }
    }
    undeleted := (set f | f in prune) - gone;
    assert (set f | f in prune && f !in undeleted) == gone;
  }

  function Without(files: set<string>, prune: seq<string>, undeleted: set<string>): set<string> {
    files - (set f | f in prune && f !in undeleted)
  }

  /** The names retention prunes from a listing; only names that parse as backups are candidates. */
  method SelectFrom(spec: Spec, names: seq<string>, now: int) returns (prune: seq<string>)
    ensures forall f :: f in prune ==> f in names && Stamp(f).Some?
    ensures Distinct(names) ==> prune == Pruned(Records(names), spec.keep, spec.retentionMs, now)
  {
    RecordsAreListed(names);
    if Distinct(names) {
      RecordsAreDistinct(names);
    }
    ghost var keep;
    prune, keep := SelectBackupsToPrune(Records(names), spec.keep, spec.retentionMs, now);
    UnmarkedAreListed(NewestFirst(Records(names)), keep);
    SortIsSorted(Records(names));
    forall f | f in prune ensures f in names && Stamp(f).Some? {
      var r :| r in NewestFirst(Records(names)) && r.id == f;
      assert r in multiset(Records(names));
    }
  }

  lemma {:induction false} UnmarkedAreListed(s: seq<BackupRecord>, keep: set<string>)
    ensures forall f :: f in Unmarked(s, keep) ==> exists r :: r in s && r.id == f
  {
    if s != [] {
      UnmarkedAreListed(s[1..], keep);
      assert s[0] in s;
      forall f | f in Unmarked(s[1..], keep) ensures exists r :: r in s && r.id == f {
        var r :| r in s[1..] && r.id == f;
        assert r in s;
      }
    }
  }

  /** keep-N plus the window over the prefix; a listing that fails prunes nothing. */
  method ApplyRetention(spec: Spec, world: World, past: seq<Command>, before: set<string>)
    returns (log: seq<Command>, files: set<string>, prune: seq<string>, undeleted: set<string>)
    ensures log == past + [List] + Deletes(prune)
    ensures files == Without(before, prune, undeleted)
    ensures forall f :: f in prune ==> Stamp(f).Some?
    ensures var a := world.exec(past + [List]);
            if Succeeded(a) then
              Distinct(Listed(a.lines)) ==>
                prune == Pruned(Records(Listed(a.lines)), spec.keep, spec.retentionMs, world.retentionClock)
            else prune == []
  {
    log, files, prune, undeleted := past + [List], before, [], {};
    var a := world.exec(log);
    if a.Exit? && a.code == 0 {
      var selected := SelectFrom(spec, Listed(a.lines), world.retentionClock);
      prune := selected;
      log, files, undeleted := DeleteAll(selected, world, log, files);
    }
  }

  /** probeSize: the size the probe printed, None when it failed or printed none. */
  function ProbedSize(world: World, name: string): Option<nat> {
    var size := world.exec([UploadTo(name), SizeOf(name)]);
    if Succeeded(size) then world.bytes(size.lines) else None
  }

  /** A run never throws: it succeeds exactly when the upload exits 0, and then the size probe and
      retention cannot change the outcome. After a failed upload nothing else is executed. */
  method RunBackup(spec: Spec, world: World, before: set<string>)
    returns (ok: bool, recorded: Recorded, log: seq<Command>, files: set<string>,
             prune: seq<string>, undeleted: set<string>)
    requires BackupName.FourDigitYear(world.uploadClock)
    ensures var name := BackupName.BackupFilename(spec.database, world.uploadClock, spec.ext);
            var upload, size := world.exec([UploadTo(name)]), world.exec([UploadTo(name), SizeOf(name)]);
            var list := world.exec([UploadTo(name), SizeOf(name), List]);
            && ok == (upload.Exit? && upload.code == 0)
            && log == (if ok then [UploadTo(name), SizeOf(name), List] + Deletes(prune) else [UploadTo(name)])
            && files == (if ok then before + {name} - (set f | f in prune && f !in undeleted)
                         else if upload.took then before + {name} else before)
            && recorded == (if !ok then Failure
                            else Success(spec.prefix + "/" + name,
                                         if size.Exit? && size.code == 0 then world.bytes(size.lines) else None))
            && (ok ==>
                  if list.Exit? && list.code == 0 then
                    Distinct(Listed(list.lines)) ==>
                      prune == Pruned(Records(Listed(list.lines)), spec.keep, spec.retentionMs, world.retentionClock)
                  else prune == [])
    ensures forall f :: f in prune ==> Stamp(f).Some?
  {
    var name := BackupName.BackupFilename(spec.database, world.uploadClock, spec.ext);
    log, prune, undeleted := [UploadTo(name)], [], {};
    var a := world.exec(log);
    ok := Succeeded(a);
    if !ok {
      files := if a.took then before + {name} else before;
      recorded := Failure;
    } else {
      log := [UploadTo(name), SizeOf(name)];
      recorded := Success(spec.prefix + "/" + name, ProbedSize(world, name));
      assert log + [List] == [UploadTo(name), SizeOf(name), List];
      log, files, prune, undeleted := ApplyRetention(spec, world, log, before + {name});
    }
  }

  /** The listing of a run names files of the bucket, each once. */
  ghost predicate ListsBucket(world: World, name: string, files: set<string>) {
    var a := world.exec([UploadTo(name), SizeOf(name), List]);
    Succeeded(a) ==> Distinct(Listed(a.lines)) && forall f :: f in Listed(a.lines) ==> f in files
  }

  /** Every run, failed ones included, takes only steps of the store that the survival theorem is about. So after
      each run of a bucket the newest backups ever uploaded and all foreign files are still there. */
  method RunOnStore(spec: Spec, world: World, s: Store)
    returns (ok: bool, recorded: Recorded, log: seq<Command>, t: Store, ghost events: seq<StoreEvent>)
    requires BackupName.FourDigitYear(world.uploadClock) && Safe(s, spec.keep)
    requires ListsBucket(world, BackupName.BackupFilename(spec.database, world.uploadClock, spec.ext),
                         s.files + {BackupName.BackupFilename(spec.database, world.uploadClock, spec.ext)})
    ensures EnabledRun(s, events, spec.keep) && t == AfterRun(s, events, spec.keep) && Safe(t, spec.keep)
    ensures var name := BackupName.BackupFilename(spec.database, world.uploadClock, spec.ext);
      && ok == Succeeded(world.exec([UploadTo(name)]))
      && t.ever == if ok || world.exec([UploadTo(name)]).took then s.ever + {name} else s.ever
  {
    hide BackupName.BackupFilename, BackupName.FourDigitYear, BackupName.ParseBackupTimestamp, Safe, Records, Pruned,
      Listed;
    var name := BackupName.BackupFilename(spec.database, world.uploadClock, spec.ext);
    var files, prune, undeleted;
    ok, recorded, log, files, prune, undeleted := RunBackup(spec, world, s.files);
    var uploaded := ok || world.exec([UploadTo(name)]).took;
    t := Store(files, if uploaded then s.ever + {name} else s.ever);
    var listing := world.exec([UploadTo(name), SizeOf(name), List]);
    if ok && Succeeded(listing) {
      ghost var down := Prune(Listed(listing.lines), spec.retentionMs, world.retentionClock, undeleted);
      UploadThenPrune(s, name, down, spec.keep);
      events := [Upload(name), down];
    } else if uploaded {
      UploadOnly(s, name, prune, undeleted, spec.keep);
      events := [Upload(name)];
    } else {
      events := [];
    }
    SafeStays(s, events, spec.keep);
  }

  lemma {:induction false} UploadOnly(s: Store, name: string, prune: seq<string>, undeleted: set<string>, keep: int)
    ensures EnabledRun(s, [Upload(name)], keep)
    ensures AfterRun(s, [Upload(name)], keep) == Store(s.files + {name}, s.ever + {name})
    ensures prune == [] ==> Without(s.files + {name}, prune, undeleted) == s.files + {name}
  {
    assert [Upload(name)][1..] == [];
  }

  lemma {:induction false} UploadThenPrune(s: Store, name: string, down: StoreEvent, keep: int)
    requires down.Prune? && Enabled(Store(s.files + {name}, s.ever + {name}), down)
    ensures EnabledRun(s, [Upload(name), down], keep)
    ensures AfterRun(s, [Upload(name), down], keep)
         == Store(Without(s.files + {name}, Pruned(Records(down.listed), keep, down.retentionMs, down.now),
                          down.undeleted),
                  s.ever + {name})
  {
    assert [Upload(name), down][1..] == [down] && [down][1..] == [];
    var t := After(s, Upload(name), keep);
    assert AfterRun(t, [down], keep) == AfterRun(After(t, down, keep), [], keep);
  }
}
