/** Restoring a full-site backup: the database, the four asset directories, the request file and the
    maintenance file. As in UpdateProtocol, a run is a sequence of durable steps, and a crash at any
    point leaves the state of a prefix. Outside maintenance mode users may write; from the safety
    backup until maintenance mode is lifted nothing but the restore does. */
module SiteRestore {
  import opened Options

  const DIRECTORIES := 4

  /** A directory that is absent, half removed or half copied, or complete. */
  datatype Dir = Missing | Partial | Complete(tree: string)

  /** What a backup holds: the database dump and the content of each directory. */
  datatype Site = Site(database: string, trees: seq<string>)

  datatype RestoreStatus = QueuedRestore | RunningRestore | SucceededRestore | FailedRestore
  datatype RestoreRequest = RestoreRequest(backup: string, status: RestoreStatus)
  datatype MaintenancePhase = Prepared | Completed
  datatype Maintenance = Maintenance(backup: string, safety: string, phase: MaintenancePhase)

  /** `shown` is the site users last saw with maintenance mode off, `aim` what the running restore
      unpacked; both are history, not files. */
  datatype Server = Server(
    database: string,
    dirs: seq<Dir>,
    archives: map<string, Site>,
    request: Option<RestoreRequest>,
    maintenance: Option<Maintenance>,
    shown: Site,
    aim: Site)

  /** An absent directory is backed up, and comes back, as an empty one. */
  function Tree(d: Dir): string {
    if d.Complete? then d.tree else ""
  }

  function Snapshot(s: Server): Site {
    Site(s.database, seq(|s.dirs|, i requires 0 <= i < |s.dirs| => Tree(s.dirs[i])))
  }

  /** The live database and all directories are, together, exactly this site. */
  predicate Shows(s: Server, site: Site) {
    Snapshot(s) == site && forall i :: 0 <= i < |s.dirs| ==> s.dirs[i] != Partial
  }

  predicate WholeSite(site: Site) {
    |site.trees| == DIRECTORIES
  }

  datatype Step =
    | Write(database: string, dirs: seq<Dir>)      // users change the live site
    | Backup(id: string, content: Site)
    | Delete(id: string)
    | Request(id: string)
    | Claim
    | Prepare(safety: string)                      // the maintenance file is written
    | Disturb(database: string, dirs: seq<Dir>)    // any partial effect of a restore or a rollback
    | Complete                                     // the maintenance file says completed
    | SetStatus(status: RestoreStatus)
    | Lift                                         // the maintenance file is removed

  predicate Allowed(s: Server, e: Step) {
    match e
    case Write(_, dirs) => s.maintenance.None? && |dirs| == DIRECTORIES && Partial !in dirs
    case Backup(id, content) =>
      id !in s.archives && WholeSite(content) && (s.maintenance.None? ==> content == Snapshot(s))
    case Delete(id) => s.maintenance.Some? ==> id != s.maintenance.value.safety
    case Request(id) =>
      && s.maintenance.None? && id in s.archives
      && (s.request.Some? ==> s.request.value.status != QueuedRestore && s.request.value.status != RunningRestore)
    case Claim => s.request.Some? && s.request.value.status == QueuedRestore
    case Prepare(safety) =>
      && s.maintenance.None? && s.request.Some? && s.request.value.status == RunningRestore
      && safety in s.archives && s.archives[safety] == Snapshot(s)
      && s.request.value.backup in s.archives
    case Disturb(_, dirs) =>
      s.maintenance.Some? && s.maintenance.value.phase == Prepared && |dirs| == DIRECTORIES
    case Complete =>
      && s.maintenance.Some? && s.maintenance.value.phase == Prepared && Shows(s, s.aim)
      && s.request.Some? && s.request.value.status == RunningRestore
    case SetStatus(status) =>
      && s.request.Some?
      && (status == SucceededRestore ==> s.maintenance.Some? && s.maintenance.value.phase == Completed)
      && (status == FailedRestore ==>
            if s.maintenance.None? then s.request.value.status == RunningRestore
            else s.maintenance.value.phase == Prepared)
      && (status == FailedRestore || status == SucceededRestore)
    case Lift =>
      && s.maintenance.Some?
      && (s.maintenance.value.phase == Prepared ==>
            s.maintenance.value.safety in s.archives && Shows(s, s.archives[s.maintenance.value.safety]))
      && (s.request.Some? ==>
            var outcome := if s.maintenance.value.phase == Completed then SucceededRestore else FailedRestore;
            s.request.value.status == outcome)
  }

  function After(s: Server, e: Step): Server
    requires Allowed(s, e)
  {
    match e
    case Write(database, dirs) =>
      var t := s.(database := database, dirs := dirs); t.(shown := Snapshot(t))
    case Backup(id, content) => s.(archives := s.archives[id := content])
    case Delete(id) => s.(archives := s.archives - {id})
    case Request(id) => s.(request := Some(RestoreRequest(id, QueuedRestore)))
    case Claim => s.(request := Some(s.request.value.(status := RunningRestore)))
    case Prepare(safety) =>
      s.(maintenance := Some(Maintenance(s.request.value.backup, safety, Prepared)),
         aim := s.archives[s.request.value.backup])
    case Disturb(database, dirs) => s.(database := database, dirs := dirs)
    case Complete => s.(maintenance := Some(s.maintenance.value.(phase := Completed)))
    case SetStatus(status) => s.(request := Some(s.request.value.(status := status)))
    case Lift => s.(maintenance := None, shown := if s.maintenance.value.phase == Completed then s.aim else s.shown)
  }

  function Next(s: Server, e: Step): Server {
    if Allowed(s, e) then After(s, e) else s
  }

  function Replay(s: Server, steps: seq<Step>): Server {
    if steps == [] then s else Next(Replay(s, steps[..|steps|-1]), steps[|steps|-1])
  }

  /** A server whose users see one whole site, with no restore asked for. */
  predicate Quiet(s: Server) {
    && s.maintenance.None? && s.request.None? && |s.dirs| == DIRECTORIES && Shows(s, s.shown)
    && forall id :: id in s.archives ==> WholeSite(s.archives[id])
  }

  predicate Sound(s: Server) {
    && |s.dirs| == DIRECTORIES
    && (forall id :: id in s.archives ==> WholeSite(s.archives[id]))
    && (s.maintenance.None? ==> Shows(s, s.shown))
    && (s.maintenance.Some? ==>
          var m := s.maintenance.value;
          && m.safety in s.archives && s.archives[m.safety] == s.shown && WholeSite(s.aim)
          && (m.phase == Completed ==> Shows(s, s.aim)))
  }

  lemma NextKeepsSound(s: Server, e: Step)
    requires Sound(s)
    ensures Sound(Next(s, e))
  {
    assert |Snapshot(s).trees| == DIRECTORIES;
  }

  /** At every point of every run, across any number of restores, crashes and repeated rollbacks: while
      maintenance mode is off the live database and directories are one whole site, namely the one
      users last saw or wrote, or the target of the last completed restore. */
  lemma {:induction false} SiteIsNeverMixed(s: Server, steps: seq<Step>)
    requires Quiet(s)
    ensures Sound(Replay(s, steps))
  {
    if steps != [] {
      SiteIsNeverMixed(s, steps[..|steps|-1]);
      NextKeepsSound(Replay(s, steps[..|steps|-1]), steps[|steps|-1]);
    }
  }

  // ----- a half-way swap

  /** The live directories after the first `moved` of them were handled and everything was put back: the
      rest are removed, and nothing was aside to take their place. */
  function PutBack(dirs: seq<Dir>, moved: nat): seq<Dir> {
    seq(|dirs|, k requires 0 <= k < |dirs| => if k < moved then dirs[k] else Missing)
  }

  /** Nothing is lost exactly when no directory existed from the one on where the swap stopped. */
  lemma PutBackLosesTheRest(dirs: seq<Dir>, moved: nat)
    ensures PutBack(dirs, moved) == dirs <==> forall k :: 0 <= k < |dirs| && moved <= k ==> dirs[k] == Missing
  {
    if PutBack(dirs, moved) == dirs {
      forall k | 0 <= k < |dirs| && moved <= k ensures dirs[k] == Missing {
        assert PutBack(dirs, moved)[k] == dirs[k];
      }
    }
  }

  /** Four complete directories, and a swap that stops after the first: the other three are gone. */
  lemma HalfwaySwapLosesThree(a: string, b: string, c: string, d: string)
    ensures var dirs := [Dir.Complete(a), Dir.Complete(b), Dir.Complete(c), Dir.Complete(d)];
            PutBack(dirs, 1) == [Dir.Complete(a), Missing, Missing, Missing] != dirs
  {
    var dirs := [Dir.Complete(a), Dir.Complete(b), Dir.Complete(c), Dir.Complete(d)];
    assert PutBack(dirs, 1)[1] != dirs[1];
  }

  // ----- an abandoned claim

  /** Claimed, and no maintenance file was written. */
  predicate Abandoned(s: Server) {
    s.maintenance.None? && s.request.Some? && s.request.value.status == RunningRestore
  }

  /** A worker that stops right after its claim leaves such a server. */
  lemma AbandonedHappens(s: Server, id: string)
    requires Quiet(s) && id in s.archives
    ensures var t := Replay(s, [Request(id), Claim]);
            Abandoned(t) && t.request.value.backup == id && Shows(t, s.shown)
  {
    assert [Request(id), Claim][..1] == [Request(id)] && [Request(id)][..0] == [];
    assert Replay(s, [Request(id)]) == Next(s, Request(id));
  }

  /** What only the process that claimed the restore does. */
  predicate OfTheClaimer(e: Step) {
    e.Prepare? || e.SetStatus?
  }

  /** Without that process the claim stays for ever: no request, claim, backup or write of anybody else
      ends it, and the site goes on being whole. */
  lemma {:induction false} AbandonedForEver(s: Server, steps: seq<Step>)
    requires Sound(s) && Abandoned(s) && forall k :: 0 <= k < |steps| ==> !OfTheClaimer(steps[k])
    ensures var t := Replay(s, steps); Sound(t) && Abandoned(t) && t.request == s.request && Shows(t, t.shown)
  {
    if steps != [] {
      var init, e := steps[..|steps|-1], steps[|steps|-1];
      assert forall k :: 0 <= k < |init| ==> init[k] == steps[k];
      AbandonedForEver(s, init);
      NextKeepsSound(Replay(s, init), e);
    }
  }

  /** One restore: from its claim until users write or ask for another. */
  predicate OnlyRestoring(steps: seq<Step>) {
    forall i :: 0 <= i < |steps| ==> !steps[i].Write? && !steps[i].Request? && !steps[i].Delete? && !steps[i].Claim?
  }

  predicate Restoring(s: Server, t: Server, target: Site) {
    && t.request.Some? && s.request.Some? && t.request.value.backup == s.request.value.backup
    && t.request.value.backup in t.archives && t.archives[t.request.value.backup] == target
    && t.request.value.status != QueuedRestore
    && match t.maintenance
       case Some(m) =>
         && t.shown == s.shown && t.aim == target
         && (t.request.value.status == SucceededRestore ==> m.phase == Completed)
         && (t.request.value.status == FailedRestore ==> m.phase == Prepared)
       case None =>
         if t.request.value.status == SucceededRestore then t.shown == target else t.shown == s.shown
  }

  lemma RestoringStep(s: Server, t: Server, e: Step, target: Site)
    requires Sound(t) && Restoring(s, t, target) && !e.Write? && !e.Request? && !e.Delete? && !e.Claim?
    ensures Restoring(s, Next(t, e), target)
  {}

  /** Between the claim and the next write or request, a server out of maintenance mode shows exactly
      the site from before the restore, or exactly the target; the request says which. */
  lemma {:induction false} RestoreIsAllOrNothing(s: Server, steps: seq<Step>)
    requires Sound(s) && s.maintenance.None? && OnlyRestoring(steps)
    requires s.request.Some? && s.request.value.status == RunningRestore && s.request.value.backup in s.archives
    ensures var t, target := Replay(s, steps), s.archives[s.request.value.backup];
      && Sound(t) && Restoring(s, t, target)
    ensures var t := Replay(s, steps);
      t.maintenance.None? ==>
        t.request.Some?
        && Shows(t, if t.request.value.status == SucceededRestore then s.archives[s.request.value.backup] else s.shown)
  {
    if steps != [] {
      var init, e := steps[..|steps|-1], steps[|steps|-1];
      assert forall i :: 0 <= i < |init| ==> init[i] == steps[i];
      RestoreIsAllOrNothing(s, init);
      NextKeepsSound(Replay(s, init), e);
      RestoringStep(s, Replay(s, init), e, s.archives[s.request.value.backup]);
      hide Restoring, Next;
    }
  }
}
