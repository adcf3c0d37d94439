/** The backup service's restore code, changing the live site step by step. The ghost log ties every
    state it passes through to SiteRestore. A boolean result of false stands for a thrown error. */
module BackupService {
  import opened Options
  import opened SiteRestore

  datatype Call = Restart | Ask(id: string) | Poll(safety: string) | Save(database: string, dirs: seq<Dir>)

  class Backups {
    var database: string
    const live: array<Dir>
    var archives: map<string, Site>
    var request: Option<RestoreRequest>
    var maintenance: Option<Maintenance>

    /** When set, no file operation, command or lock fails. */
    const reliable: bool

    var aim: Site                   // the archive unpacked by the running restore
    ghost var shown: Site
    ghost const start: Server
    ghost var log: seq<Step>

    ghost function View(): Server
      reads this, live
    {
      Server(database, live[..], archives, request, maintenance, shown, aim)
    }

    ghost predicate Valid()
      reads this, live
    {
      live.Length == DIRECTORIES && Quiet(start) && View() == Replay(start, log)
    }

    ghost method Record(e: Step)
      requires live.Length == DIRECTORIES && Quiet(start) && View() == Next(Replay(start, log), e)
      modifies this`log
      ensures Valid() && log == old(log) + [e]
    {
      assert (log + [e])[..|log + [e]|-1] == log;
      log := log + [e];
    }

    lemma ValidIsSound()
      requires Valid()
      ensures Sound(View())
    {
      SiteIsNeverMixed(start, log);
    }

    predicate Disturbable()
      reads this
    {
      maintenance.Some? && maintenance.value.phase == Prepared
    }

    /** One directory changes while the maintenance file is in place. */
    method SetDir(i: nat, d: Dir)
      requires Valid() && Disturbable() && i < DIRECTORIES
      modifies live, this`log
      ensures Valid() && old(log) <= log && live[..] == old(live[..])[i := d]
    {
      live[i] := d;
      assert live[..] == old(live[..])[i := d];
      Record(Disturb(database, live[..]));
    }

    /** pg_restore in one transaction: a failure may be reported after the commit. */
    method RestoreDatabase(dump: string) returns (ok: bool)
      requires Valid() && Disturbable()
      modifies this`database, this`log
      ensures Valid() && old(log) <= log
      ensures ok ==> database == dump
      ensures database == dump || database == old(database)
      ensures reliable ==> ok
    {
      var committed: bool, clean: bool := *, *;
      if reliable || committed {
        database := dump;
        Record(Disturb(database, live[..]));
        return reliable || clean;
      }
      return false;
    }

    /** Moves every live directory aside and the unpacked one into its place. When it fails, the first
        `moved` directories are aside and the others are still where they were. */
    method SwapIn(staged: array<Dir>, rollback: array<Dir>) returns (ok: bool, ghost moved: nat)
      requires Valid() && Disturbable() && staged.Length == rollback.Length == DIRECTORIES
      requires staged != rollback && staged != live && rollback != live
      requires forall k :: 0 <= k < DIRECTORIES ==> rollback[k] == Missing
      modifies live, staged, rollback, this`log
      ensures Valid() && old(log) <= log
      ensures ok ==> live[..] == old(staged[..]) && rollback[..] == old(live[..])
      ensures moved <= DIRECTORIES && (ok ==> moved == DIRECTORIES)
      ensures forall k :: 0 <= k < moved ==> rollback[k] == old(live[k])
      ensures forall k :: moved <= k < DIRECTORIES ==> rollback[k] == Missing && live[k] == old(live[k])
      ensures reliable ==> ok
    {
      moved := 0;
      for i := 0 to DIRECTORIES
        invariant Valid() && old(log) <= log && moved == i
        invariant forall k :: 0 <= k < i ==> live[k] == old(staged[k]) && rollback[k] == old(live[k])
        invariant forall k :: i <= k < DIRECTORIES ==>
                    staged[k] == old(staged[k]) && live[k] == old(live[k]) && rollback[k] == Missing
      {
        var ready: bool, aside: bool, renamed: bool := *, *, *;
        if !reliable && !ready { return false, moved; }
        if live[i] != Missing {
          if !reliable && !aside { return false, moved; }
          rollback[i] := live[i];
          SetDir(i, Missing);
        }
        moved := i + 1;
        if !reliable && !renamed { return false, moved; }
        SetDir(i, staged[i]);
        staged[i] := Missing;
      }
      assert live[..] == old(staged[..]) && rollback[..] == old(live[..]);
      return true, moved;
    }

    /** Removes every live directory and puts the one aside back, in reverse order, ignoring every error:
        a directory that was not moved aside is lost. */
    method SwapBack(rollback: array<Dir>) returns (smooth: bool)
      requires Valid() && Disturbable() && rollback.Length == DIRECTORIES && rollback != live
      modifies live, this`log
      ensures Valid() && old(log) <= log
      ensures smooth ==> live[..] == old(rollback[..])
    {
      smooth := true;
      for i := DIRECTORIES downto 0
        invariant Valid() && old(log) <= log
        invariant smooth ==> forall k :: i <= k < DIRECTORIES ==> live[k] == rollback[k]
      {
        var removed: bool, back: bool, left: Dir := *, *, *;
        SetDir(i, if removed then Missing else left);
        if rollback[i] != Missing && back { SetDir(i, rollback[i]); }
        smooth := smooth && removed && (rollback[i] != Missing ==> back);
      }
      assert smooth ==> live[..] == rollback[..];
    }

    /** Claimed, but interrupted before the maintenance file was written; see Abandoned. */
    predicate Stranded()
      reads this
    {
      maintenance.None? && request.Some? && request.value.status == RunningRestore
    }

    /** Validates the target, takes the safety backup and enters maintenance mode. */
    method EnterMaintenance(safety: string) returns (ok: bool)
      requires Valid() && Stranded() && safety !in archives
      modifies this`archives, this`maintenance, this`aim, this`log
      ensures Valid() && old(log) <= log
      ensures maintenance.Some? ==> request.value.backup in old(archives) && aim == old(archives)[request.value.backup]
                                    && Disturbable()
      ensures ok ==> maintenance.Some?
      ensures reliable && request.value.backup in old(archives) ==> ok
    {
      var id := request.value.backup;
      var valid: bool, dumped: bool, written: bool, clean: bool := *, *, *, *;
      if id !in archives || (!reliable && !(valid && dumped)) { return false; }
      var target := archives[id];
      ghost var snapshot := Snapshot(View());
      archives := archives[safety := Site(database, TreesOf())];
      assert archives[safety] == snapshot;
      Record(Step.Backup(safety, snapshot));
      if !reliable && !written { return false; }
      maintenance := Some(Maintenance(id, safety, Prepared));
      aim := target;
      Record(Step.Prepare(safety));
      return reliable || clean;
    }

    method RestoreBackup(safety: string) returns (ok: bool)
      requires Valid() && Stranded() && safety !in archives
      modifies this`database, this`archives, this`maintenance, this`aim, this`log, live
      ensures Valid() && old(log) <= log
      ensures ok ==> maintenance.Some? && maintenance.value.phase == Completed
                     && request.value.backup in old(archives) && Shows(View(), old(archives)[request.value.backup])
      ensures reliable && request.value.backup in old(archives) ==> ok
    {
      ok := EnterMaintenance(safety);
      if !ok { return; }
      ValidIsSound();
      var undone; ghost var moved;
      ok, undone, moved := ReplaceSite(aim);
      if !ok { return; }
      var completed: bool := *;
      if !reliable && !completed { return false; }
      maintenance := Some(maintenance.value.(phase := Completed));
      Record(Step.Complete);
    }

    function TreesOf(): (trees: seq<string>)
      reads live
      ensures trees == Snapshot(Server("", live[..], map[], None, None, Site("", []), Site("", []))).trees
    {
      seq(live.Length, i requires 0 <= i < live.Length reads live => Tree(live[i]))
    }

    /** Under the lock: swap the directories, restore the database, or put the directories back. `undone`
        says that nothing went wrong in putting them back: then the first `moved` directories are as before
        and the others are missing. */
    method ReplaceSite(target: Site) returns (ok: bool, undone: bool, ghost moved: nat)
      requires Valid() && Disturbable() && WholeSite(target)
      modifies this`database, this`log, live
      ensures Valid() && old(log) <= log
      ensures ok ==> Shows(View(), target)
      ensures ok ==> !undone
      ensures undone ==> live[..] == PutBack(old(live[..]), moved)
      ensures undone ==>
                (live[..] == old(live[..]) <==> forall k :: moved <= k < DIRECTORIES ==> old(live[k]) == Missing)
      ensures reliable ==> ok
    {
      undone, moved := false, 0;
      var locked: bool, removed: bool := *, *;
      if !reliable && !locked { return false, false, 0; }
      var staged := new Dir[DIRECTORIES](i requires 0 <= i < DIRECTORIES => Dir.Complete(target.trees[i]));
      var rollback := new Dir[DIRECTORIES](_ => Missing);
      ghost var unpacked := staged[..];
      ok, moved := SwapIn(staged, rollback);
      if ok { ok := RestoreDatabase(target.database); }
      if !ok {
        undone := SwapBack(rollback);
        if undone {
          assert live[..] == PutBack(old(live[..]), moved);
          PutBackLosesTheRest(old(live[..]), moved);
        }
        return;
      }
      assert Snapshot(View()).trees == target.trees;
      ok := reliable || removed;
    }

    /** The safety backup is restored: the database, then each directory removed and copied. */
    method RestoreSafetyBackup() returns (ok: bool)
      requires Valid() && Disturbable()
      modifies this`database, this`log, live
      ensures Valid() && old(log) <= log
      ensures ok ==> maintenance.value.safety in archives && Shows(View(), archives[maintenance.value.safety])
      ensures reliable ==> ok
    {
      ValidIsSound();
      var locked: bool, valid: bool := *, *;
      if !reliable && !(locked && valid) { return false; }
      var saved := archives[maintenance.value.safety];
      ok := RestoreDatabase(saved.database);
      if !ok { return; }
      for i := 0 to DIRECTORIES
        invariant Valid() && old(log) <= log && database == saved.database
        invariant forall k :: 0 <= k < i ==> live[k] == Dir.Complete(saved.trees[k])
      {
        var removed: bool, copied: bool := *, *;
        SetDir(i, Partial);
        if !reliable && !removed { return false; }
        SetDir(i, Missing);
        if !reliable && !copied {
          SetDir(i, Partial);
          return false;
        }
        SetDir(i, Dir.Complete(saved.trees[i]));
      }
      assert Snapshot(View()).trees == saved.trees;
      return true;
    }

    method WriteStatus(status: RestoreStatus) returns (ok: bool)
      requires Valid() && Allowed(View(), SetStatus(status))
      modifies this`request, this`log
      ensures Valid() && old(log) <= log
      ensures request == old(request) || request == Some(old(request).value.(status := status))
      ensures ok ==> request == Some(old(request).value.(status := status))
      ensures reliable ==> ok
    {
      var written: bool, clean: bool := *, *;
      if reliable || written {
        request := Some(request.value.(status := status));
        Record(SetStatus(status));
        return reliable || clean;
      }
      return false;
    }

    method LeaveMaintenance() returns (ok: bool)
      requires Valid() && Allowed(View(), Lift)
      modifies this`maintenance, this`shown, this`log
      ensures Valid() && old(log) <= log
      ensures ok ==> maintenance.None?
      ensures reliable ==> ok
    {
      var removed: bool, clean: bool := *, *;
      if reliable || removed {
        shown := if maintenance.value.phase == Completed then aim else shown;
        maintenance := None;
        Record(Lift);
        return reliable || clean;
      }
      return false;
    }

    /** recoverInterruptedRestore: called when the worker starts, and after a failed restore. */
    method Recover() returns (ok: bool)
      requires Valid()
      modifies this, live
      ensures Valid() && old(log) <= log
      ensures ok ==> maintenance.None?
      ensures old(Stranded()) ==> !ok && View() == old(View())
      ensures reliable && !old(Stranded()) ==> ok
      ensures ok && old(Disturbable()) ==>
                old(maintenance).value.safety in archives && Shows(View(), archives[old(maintenance).value.safety])
      ensures !old(Disturbable()) ==> database == old(database) && live[..] == old(live[..])
      ensures ok && old(maintenance.Some?) && old(request.Some?) ==>
        request == Some(old(request).value.(status :=
          if old(maintenance).value.phase == Completed then SucceededRestore else FailedRestore))
    {
      if maintenance.None? {
        return !Stranded();
      }
      if maintenance.value.phase == Completed {
        if request.Some? {
          ok := WriteStatus(SucceededRestore);
          if !ok { return; }
        }
        ok := LeaveMaintenance();
        return;
      }
      ok := RestoreSafetyBackup();
      if !ok {
        if request.Some? { var _ := WriteStatus(FailedRestore); }
        return false;
      }
      if request.Some? {
        ok := WriteStatus(FailedRestore);
        if !ok { return; }
      }
      ok := LeaveMaintenance();
    }

    /** requestRestore, behind the guard that turns requests away in maintenance mode. */
    method RequestRestore(id: string) returns (accepted: bool)
      requires Valid()
      modifies this`request, this`log
      ensures Valid() && old(log) <= log
      ensures accepted ==> request == Some(RestoreRequest(id, QueuedRestore))
      ensures !accepted ==> request == old(request)
      ensures var busy := old(request).Some? && old(request).value.status in {QueuedRestore, RunningRestore};
              var free := maintenance.None? && id in archives && !busy;
              (accepted ==> free) && (reliable && free ==> accepted)
    {
      var valid: bool := *;
      if maintenance.Some? || id !in archives || (!reliable && !valid) { return false; }
      if request.Some? && (request.value.status == QueuedRestore || request.value.status == RunningRestore) {
        return false;
      }
      request := Some(RestoreRequest(id, QueuedRestore));
      Record(Step.Request(id));
      return true;
    }

    /** processPendingRestore. */
    method ProcessPendingRestore(safety: string) returns (ok: bool)
      requires Valid() && safety !in archives && maintenance.None?
      modifies this, live
      ensures Valid() && old(log) <= log
      ensures old(request.None? || request.value.status != QueuedRestore) ==> ok && View() == old(View())
      ensures ok && old(request.Some? && request.value.status == QueuedRestore) ==>
        maintenance.None? && request.Some?
        && (request.value.status == SucceededRestore || request.value.status == FailedRestore)
      ensures reliable
              && old(request.Some? && request.value.status == QueuedRestore && request.value.backup in archives)
              ==> ok && request == Some(old(request).value.(status := SucceededRestore)) && maintenance.None?
                  && Shows(View(), old(archives)[old(request).value.backup])
    {
      if request.None? || request.value.status != QueuedRestore { return true; }
      var claimed: bool, clean: bool := *, *;
      if !reliable && !claimed { return false; }
      request := Some(request.value.(status := RunningRestore));
      Record(Claim);
      if !reliable && !clean { return false; }
      ok := RestoreBackup(safety);
      if ok { ok := FinishRestore(); }
      if ok { return; }
      if maintenance.Some? {
        ok := Recover();
      } else if request.value.status == RunningRestore {
        ok := WriteStatus(FailedRestore);
      }
    }

    /** The success path after the maintenance file says completed. */
    method FinishRestore() returns (ok: bool)
      requires Valid() && maintenance.Some? && maintenance.value.phase == Completed && request.Some?
      modifies this`request, this`maintenance, this`shown, this`log
      ensures Valid() && old(log) <= log
      ensures request == old(request) || request == Some(old(request).value.(status := SucceededRestore))
      ensures ok ==> maintenance.None? && request == Some(old(request).value.(status := SucceededRestore))
      ensures reliable ==> ok
      ensures maintenance.None? ==> request == Some(old(request).value.(status := SucceededRestore))
    {
      ok := WriteStatus(SucceededRestore);
      if !ok { return; }
      ok := LeaveMaintenance();
    }

    /** Workers that restart, administrators that ask for a restore, polls and writing users, in any order:
        every restart and every request is refused, and nothing brings a stranded server out of its state. */
    method KeepTrying(calls: seq<Call>) returns (refused: bool)
      requires Valid() && Stranded()
      modifies this, live
      ensures Valid() && Stranded() && request == old(request)
      ensures refused
    {
      refused := true;
      for i := 0 to |calls|
        invariant Valid() && Stranded() && request == old(request) && refused
      {
        match calls[i]
        case Restart =>
          var started := Recover();
          refused := refused && !started;
        case Ask(id) =>
          var accepted := RequestRestore(id);
          refused := refused && !accepted;
        case Poll(safety) =>
          if safety !in archives {
            var _ := ProcessPendingRestore(safety);
          }
        case Save(dump, dirs) =>
          if |dirs| == DIRECTORIES && Partial !in dirs {
            WriteSite(dump, dirs);
          }
      }
    }

    /** Users change the site. */
    method WriteSite(dump: string, dirs: seq<Dir>)
      requires Valid() && maintenance.None? && |dirs| == DIRECTORIES && Partial !in dirs
      modifies this`database, this`shown, this`log, live
      ensures Valid() && database == dump && live[..] == dirs && old(log) <= log
    {
      database := dump;
      forall i | 0 <= i < DIRECTORIES {
        live[i] := dirs[i];
      }
      assert live[..] == dirs;
      shown := Snapshot(View());
      Record(Write(dump, dirs));
    }
  }
}
