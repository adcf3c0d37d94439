/** The controller's rollouts and jobs. Every operation runs under one advisory lock inside a
    transaction, so each is one atomic step on the stored rollouts. */
module AgentController {
  import opened Options
  import opened AgentUpdateContract

  type InstallationId = string

  datatype Stamp = Stamp(version: string, sha256: string)

  /** A job's installation and status; `active` says that its unique activeKey column is set
      (the source stores the installation id there, or null). */
  datatype Job = Job(installation: InstallationId, status: JobStatus, active: bool)

  datatype RolloutStatus = RunningRollout | PausedRollout | SucceededRollout | CanceledRollout

  /** Jobs are held in position order. */
  datatype Rollout = Rollout(releaseId: string, createdBy: string, status: RolloutStatus, jobs: seq<Job>)

  /** Rollouts by their unique idempotency key; a job is a rollout and a position in it. */
  type Fleet = map<string, Rollout>
  datatype JobId = JobId(rollout: string, position: nat)

  datatype Refusal = NotFound | Conflict | BadRequest
  datatype Answer<+T> = Done(value: T) | Refused(why: Refusal)

  predicate Exists(f: Fleet, id: JobId) {
    id.rollout in f && id.position < |f[id.rollout].jobs|
  }

  function JobAt(f: Fleet, id: JobId): Job
    requires Exists(f, id)
  {
    f[id.rollout].jobs[id.position]
  }

  function JobIds(f: Fleet): (ids: set<JobId>)
    ensures forall id :: id in ids <==> Exists(f, id)
  {
    set key, i | key in f && 0 <= i < |f[key].jobs| :: JobId(key, i)
  }

  predicate SomeInFlight(f: Fleet) {
    exists id :: id in JobIds(f) && InFlight(JobAt(f, id).status)
  }

  predicate ActiveFor(f: Fleet, id: JobId, installation: InstallationId) {
    Exists(f, id) && JobAt(f, id).active && JobAt(f, id).installation == installation
  }

  function PutStatus(f: Fleet, id: JobId, status: JobStatus): Fleet
    requires Exists(f, id)
  {
    var r := f[id.rollout];
    var job := r.jobs[id.position];
    f[id.rollout := r.(jobs := r.jobs[id.position :=
      job.(status := status, active := job.active && !Terminal(status))])]
  }

  function WithoutQueued(jobs: seq<Job>): (kept: seq<Job>)
    ensures |kept| == |jobs|
    ensures forall i :: 0 <= i < |jobs| ==>
      kept[i] == if jobs[i].status == Queued then jobs[i].(status := Canceled, active := false) else jobs[i]
  {
    seq(|jobs|, i requires 0 <= i < |jobs| =>
      if jobs[i].status == Queued then jobs[i].(status := Canceled, active := false) else jobs[i])
  }

  predicate AllSucceeded(jobs: seq<Job>) {
    forall i :: 0 <= i < |jobs| ==> jobs[i].status == Succeeded
  }

  // ----- the four operations as functions of the stored rollouts

  /** createRollout. `bar` is the answer of the checks of the release, then of the targets' servers,
      architecture and heartbeat, when they refuse. */
  function Create(f: Fleet, key: string, releaseId: string, targets: seq<InstallationId>, actor: string,
                  bar: Option<Refusal>): Answer<Fleet>
  {
    if key in f then
      if f[key].releaseId == releaseId && Targets(f[key]) == targets && f[key].createdBy == actor
      then Done(f) else Refused(Conflict)
    else if bar.Some? then Refused(bar.value)
    else if |targets| == 0 || !Distinct(targets) then Refused(BadRequest)
    else if exists id :: id in JobIds(f) && JobAt(f, id).active && JobAt(f, id).installation in targets
    then Refused(Conflict)
    else Done(f[key := Rollout(releaseId, actor, RunningRollout, FreshJobs(targets))])
  }

  predicate Distinct(targets: seq<InstallationId>) {
    forall i, j :: 0 <= i < j < |targets| ==> targets[i] != targets[j]
  }

  function FreshJobs(targets: seq<InstallationId>): (jobs: seq<Job>)
    ensures |jobs| == |targets|
    ensures forall i :: 0 <= i < |targets| ==> jobs[i] == Job(targets[i], Queued, true)
  {
    seq(|targets|, i requires 0 <= i < |targets| => Job(targets[i], Queued, true))
  }

  function Targets(r: Rollout): seq<InstallationId> {
    seq(|r.jobs|, i requires 0 <= i < |r.jobs| => r.jobs[i].installation)
  }

  function Cancel(f: Fleet, key: string): Answer<Fleet> {
    if key !in f then Refused(NotFound)
    else if f[key].status == SucceededRollout then Refused(Conflict)
    else Done(f[key := f[key].(status := CanceledRollout, jobs := WithoutQueued(f[key].jobs))])
  }

  predicate Startable(f: Fleet, id: JobId)
    requires Exists(f, id)
  {
    && f[id.rollout].status == RunningRollout
    && !SomeInFlight(f)
    && AllSucceeded(f[id.rollout].jobs[..id.position])
  }

  /** What a poll hands out when `id` is the installation's active job. */
  function PollJob(f: Fleet, id: JobId): (Fleet, Option<JobId>)
    requires Exists(f, id)
  {
    if JobAt(f, id).status == Queued then
      if Startable(f, id) then (PutStatus(f, id, Downloading), Some(id)) else (f, None)
    else (f, Some(id))
  }

  function Report(f: Fleet, installation: InstallationId, id: JobId, status: JobStatus, reported: Stamp,
                  release: Stamp): Answer<Fleet>
  {
    if !Exists(f, id) || JobAt(f, id).installation != installation then Refused(NotFound)
    else
      var before := JobAt(f, id).status;
      if before == Queued || !CanReportUpdate(before, status) then Refused(Conflict)
      else if status == Succeeded && reported != release then Refused(Conflict)
      else if Terminal(before) then Done(f)
      else Done(Settle(PutStatus(f, id, status), id, status))
  }

  /** The rollout-level effect of a stored report. */
  function Settle(f: Fleet, id: JobId, status: JobStatus): Fleet
    requires Exists(f, id)
  {
    var r := f[id.rollout];
    if status == Failed || status == RolledBack then
      f[id.rollout := r.(status := PausedRollout, jobs := WithoutQueued(r.jobs))]
    else if status == Succeeded && AllSucceeded(r.jobs) then
      f[id.rollout := r.(status := SucceededRollout)]
    else f
  }

  // ----- the service object

  class AgentUpdates {
    var rollouts: Fleet
    const releases: map<string, Stamp>

    /** Every rollout is of a stored release. */
    predicate Valid()
      reads this
    {
      forall key :: key in rollouts ==> rollouts[key].releaseId in releases
    }

    constructor (releases: map<string, Stamp>)
      ensures Valid() && rollouts == map[] && this.releases == releases
    {
      this.rollouts, this.releases := map[], releases;
    }

    method CreateRollout(key: string, releaseId: string, targets: seq<InstallationId>, actor: string,
                         online: set<InstallationId>) returns (answer: Answer<string>)
      requires Valid()
      modifies this
      ensures Valid()
      ensures var bar := if releaseId !in releases then Some(NotFound)
                         else if exists t :: t in targets && t !in online then Some(BadRequest) else None;
              var next := Create(old(rollouts), key, releaseId, targets, actor, bar);
              match next
              case Done(f) => rollouts == f && answer == Done(key)
              case Refused(why) => rollouts == old(rollouts) && answer == Refused(why)
      ensures answer.Refused? || key in old(rollouts) ==> rollouts == old(rollouts)
      ensures answer.Done? && key !in old(rollouts) ==>
                && rollouts.Keys == old(rollouts).Keys + {key}
                && (forall other :: other in old(rollouts) ==> rollouts[other] == old(rollouts)[other])
                && rollouts[key].releaseId == releaseId && rollouts[key].createdBy == actor
                && rollouts[key].status == RunningRollout && |rollouts[key].jobs| == |targets|
                && forall i :: 0 <= i < |targets| ==> rollouts[key].jobs[i] == Job(targets[i], Queued, true)
      ensures key !in old(rollouts) ==>
                (answer.Done?
                 <==> releaseId in releases && targets != [] && (forall t :: t in targets ==> t in online)
                      && (forall i, j :: 0 <= i < j < |targets| ==> targets[i] != targets[j])
                      && forall id :: Exists(old(rollouts), id) && JobAt(old(rollouts), id).active
                                      ==> JobAt(old(rollouts), id).installation !in targets)
    {
      if key in rollouts {
        var replay := rollouts[key];
        if replay.releaseId != releaseId || Targets(replay) != targets || replay.createdBy != actor {
          return Refused(Conflict);
        }
        return Done(key);
      }
      if releaseId !in releases {
        return Refused(NotFound);
      }
      if (exists t :: t in targets && t !in online) || |targets| == 0 || !Distinct(targets) {
        return Refused(BadRequest);
      }
      if exists id :: id in JobIds(rollouts) && JobAt(rollouts, id).active
                      && JobAt(rollouts, id).installation in targets {
        return Refused(Conflict);
      }
      var jobs: seq<Job> := [];
      for position := 0 to |targets|
        invariant jobs == FreshJobs(targets[..position])
        invariant rollouts == old(rollouts)
      {
        jobs := jobs + [Job(targets[position], Queued, true)];
        assert targets[..position + 1][..position] == targets[..position];
      }
      assert targets[..|targets|] == targets;
      rollouts := rollouts[key := Rollout(releaseId, actor, RunningRollout, jobs)];
      return Done(key);
    }

    method CancelRollout(key: string) returns (answer: Answer<()>)
      requires Valid()
      modifies this
      ensures Valid()
      ensures match Cancel(old(rollouts), key)
              case Done(f) => rollouts == f && answer == Done(())
              case Refused(why) => rollouts == old(rollouts) && answer == Refused(why)
    {
      if key !in rollouts { return Refused(NotFound); }
      if rollouts[key].status == SucceededRollout { return Refused(Conflict); }
      DropQueued(key);
      rollouts := rollouts[key := rollouts[key].(status := CanceledRollout)];
      return Done(());
    }

    /** updateMany over the queued jobs of one rollout. */
    method DropQueued(key: string)
      requires key in rollouts
      modifies this
      ensures rollouts == old(rollouts)[key := old(rollouts)[key].(jobs := WithoutQueued(old(rollouts)[key].jobs))]
    {
      var jobs := rollouts[key].jobs;
      ghost var before := jobs;
      for i := 0 to |jobs|
        invariant |jobs| == |before|
        invariant forall j :: 0 <= j < i ==> jobs[j] == WithoutQueued(before)[j]
        invariant forall j :: i <= j < |jobs| ==> jobs[j] == before[j]
        invariant rollouts == old(rollouts)
      {
        if jobs[i].status == Queued {
          jobs := jobs[i := jobs[i].(status := Canceled, active := false)];
        }
      }
      assert jobs == WithoutQueued(before);
      rollouts := rollouts[key := rollouts[key].(jobs := jobs)];
    }

    method Poll(installation: InstallationId) returns (job: Option<JobId>)
      requires Valid()
      modifies this
      ensures Valid()
      ensures (forall id :: id in JobIds(old(rollouts)) ==> !ActiveFor(old(rollouts), id, installation))
              ==> rollouts == old(rollouts) && job == None
      ensures (exists id :: id in JobIds(old(rollouts)) && ActiveFor(old(rollouts), id, installation))
              ==> exists id :: id in JobIds(old(rollouts)) && ActiveFor(old(rollouts), id, installation)
                               && (rollouts, job) == PollJob(old(rollouts), id)
    {
      if id :| id in JobIds(rollouts) && ActiveFor(rollouts, id, installation) {
        var found := JobAt(rollouts, id);
        if found.status == Queued {
          if rollouts[id.rollout].status != RunningRollout { return None; }
          if SomeInFlight(rollouts) { return None; }
          if !AllSucceeded(rollouts[id.rollout].jobs[..id.position]) { return None; }
          rollouts := PutStatus(rollouts, id, Downloading);
        }
        return Some(id);
      }
      return None;
    }

    method ReportStatus(installation: InstallationId, id: JobId, status: JobStatus, reported: Stamp)
      returns (answer: Answer<()>)
      requires Valid()
      modifies this
      ensures Valid()
      ensures var release := if Exists(old(rollouts), id) then releases[old(rollouts)[id.rollout].releaseId]
                             else reported;
              match Report(old(rollouts), installation, id, status, reported, release)
              case Done(f) => rollouts == f && answer == Done(())
              case Refused(why) => rollouts == old(rollouts) && answer == Refused(why)
    {
      if !Exists(rollouts, id) || JobAt(rollouts, id).installation != installation {
        return Refused(NotFound);
      }
      var before := JobAt(rollouts, id).status;
      if before == Queued || !CanReportUpdate(before, status) { return Refused(Conflict); }
      if status == Succeeded && reported != releases[rollouts[id.rollout].releaseId] { return Refused(Conflict); }
      if Terminal(before) { return Done(()); }
      rollouts := PutStatus(rollouts, id, status);
      if status == Failed || status == RolledBack {
        rollouts := rollouts[id.rollout := rollouts[id.rollout].(status := PausedRollout)];
        DropQueued(id.rollout);
      } else if status == Succeeded && AllSucceeded(rollouts[id.rollout].jobs) {
        rollouts := rollouts[id.rollout := rollouts[id.rollout].(status := SucceededRollout)];
      }
      return Done(());
    }
  }

  // ----- what each operation does, in the stored values

  /** Exactly these requests are accepted: a repetition of the one stored under the key, and a new one whose
      checks pass, with targets that are distinct and have no unfinished job. */
  lemma CreateAccepts(f: Fleet, key: string, releaseId: string, targets: seq<InstallationId>, actor: string,
                      bar: Option<Refusal>)
    ensures key in f ==>
      (Create(f, key, releaseId, targets, actor, bar).Done?
       <==> f[key].releaseId == releaseId && f[key].createdBy == actor && |f[key].jobs| == |targets|
            && forall i :: 0 <= i < |targets| ==> f[key].jobs[i].installation == targets[i])
    ensures key !in f ==>
      (Create(f, key, releaseId, targets, actor, bar).Done?
       <==> bar == None && targets != []
            && (forall i, j :: 0 <= i < j < |targets| ==> targets[i] != targets[j])
            && forall id :: Exists(f, id) && JobAt(f, id).active ==> JobAt(f, id).installation !in targets)
  {
    if key in f {
      assert Targets(f[key]) == targets <==>
        |f[key].jobs| == |targets| && forall i :: 0 <= i < |targets| ==> f[key].jobs[i].installation == targets[i];
    }
  }

  /** An accepted new request stores one queued, active job for every target, in their order, and changes no
      other rollout; a repetition changes nothing, and any refusal says why. */
  lemma CreateStores(f: Fleet, key: string, releaseId: string, targets: seq<InstallationId>, actor: string,
                     bar: Option<Refusal>)
    requires Create(f, key, releaseId, targets, actor, bar).Done?
    ensures var g := Create(f, key, releaseId, targets, actor, bar).value;
      if key in f then g == f
      else
        && g.Keys == f.Keys + {key} && (forall other :: other in f ==> g[other] == f[other])
        && g[key].releaseId == releaseId && g[key].createdBy == actor && g[key].status == RunningRollout
        && |g[key].jobs| == |targets|
        && forall i :: 0 <= i < |targets| ==> g[key].jobs[i] == Job(targets[i], Queued, true)
  {}

  /** The request that created a rollout is answered again and changes nothing, whatever became of its jobs
      and of the targets since; any other request under its key is a conflict. */
  lemma CreateRepeats(f: Fleet, key: string, releaseId: string, targets: seq<InstallationId>, actor: string,
                      bar: Option<Refusal>)
    requires key in f
    ensures Create(f, key, releaseId, targets, actor, bar) == Done(f)
            || Create(f, key, releaseId, targets, actor, bar) == Refused(Conflict)
    ensures Create(f, key, f[key].releaseId, Targets(f[key]), f[key].createdBy, bar) == Done(f)
  {}

  /** A cancellation takes the jobs that have not started out of the queue, and touches nothing else. */
  lemma CancelStores(f: Fleet, key: string)
    ensures Cancel(f, key).Done? <==> key in f && f[key].status != SucceededRollout
    ensures Cancel(f, key).Done? ==>
      var g := Cancel(f, key).value;
      && g.Keys == f.Keys && (forall other :: other in f && other != key ==> g[other] == f[other])
      && g[key].status == CanceledRollout
      && g[key].releaseId == f[key].releaseId && g[key].createdBy == f[key].createdBy
      && |g[key].jobs| == |f[key].jobs|
      && forall i :: 0 <= i < |f[key].jobs| ==>
           g[key].jobs[i] == if f[key].jobs[i].status == Queued then Job(f[key].jobs[i].installation, Canceled, false)
                             else f[key].jobs[i]
  {}

  /** A poll starts its queued job exactly when the rollout runs, nothing of the fleet is in flight and every
      earlier job succeeded; it hands out what is started or was, and changes nothing but that status. */
  lemma PollStores(f: Fleet, id: JobId)
    requires Exists(f, id)
    ensures var (g, handed) := PollJob(f, id);
      var starts := JobAt(f, id).status == Queued && f[id.rollout].status == RunningRollout
                    && (forall x :: Exists(f, x) ==> !InFlight(JobAt(f, x).status))
                    && forall i :: 0 <= i < id.position ==> f[id.rollout].jobs[i].status == Succeeded;
      && (handed == Some(id) <==> JobAt(f, id).status != Queued || starts)
      && (handed != Some(id) ==> handed == None)
      && g.Keys == f.Keys
      && forall key :: key in f ==>
           && g[key].(jobs := []) == f[key].(jobs := []) && |g[key].jobs| == |f[key].jobs|
           && forall i :: 0 <= i < |f[key].jobs| ==>
                g[key].jobs[i] == if id == JobId(key, i) && starts then f[key].jobs[i].(status := Downloading)
                                  else f[key].jobs[i]
  {
    assert forall i :: 0 <= i < id.position ==> f[id.rollout].jobs[..id.position][i] == f[id.rollout].jobs[i];
  }

  /** What a report is accepted for. */
  lemma ReportAccepts(f: Fleet, installation: InstallationId, id: JobId, status: JobStatus, reported: Stamp,
                      release: Stamp)
    ensures Report(f, installation, id, status, reported, release).Done?
      <==> Exists(f, id) && JobAt(f, id).installation == installation && JobAt(f, id).status != Queued
           && CanReportUpdate(JobAt(f, id).status, status) && (status == Succeeded ==> reported == release)
  {}

  /** What an accepted report stores: the status, the freed installation at the end, PAUSED and an emptied
      queue after a failure or a rollback, SUCCEEDED after the last success; nothing once the job is over. */
  lemma ReportStores(f: Fleet, installation: InstallationId, id: JobId, status: JobStatus, reported: Stamp,
                     release: Stamp)
    requires Report(f, installation, id, status, reported, release).Done?
    ensures var g := Report(f, installation, id, status, reported, release).value;
      if Terminal(JobAt(f, id).status) then g == f
      else
        var failed, jobs, now := status == Failed || status == RolledBack, f[id.rollout].jobs, g[id.rollout].jobs;
        && g.Keys == f.Keys && (forall other :: other in f && other != id.rollout ==> g[other] == f[other])
        && g[id.rollout].releaseId == f[id.rollout].releaseId && g[id.rollout].createdBy == f[id.rollout].createdBy
        && |now| == |jobs|
        && now[id.position] == Job(installation, status, jobs[id.position].active && !Terminal(status))
        && (forall i :: 0 <= i < |jobs| && i != id.position ==>
              now[i] == if failed && jobs[i].status == Queued then Job(jobs[i].installation, Canceled, false)
                        else jobs[i])
        && g[id.rollout].status ==
             (if failed then PausedRollout
              else if status == Succeeded && forall i :: 0 <= i < |now| ==> now[i].status == Succeeded
              then SucceededRollout
              else f[id.rollout].status)
  {}

  // ----- what every run keeps

  /** Position k splits a rollout: succeeded before it, and one uniform queue after it. */
  predicate SplitsAt(jobs: seq<Job>, k: nat) {
    && k <= |jobs|
    && (forall i :: 0 <= i < k ==> jobs[i].status == Succeeded)
    && (k < |jobs| ==>
        && jobs[k].status != Succeeded
        && ((forall i :: k < i < |jobs| ==> jobs[i].status == Queued)
            || (forall i :: k < i < |jobs| ==> jobs[i].status == Canceled))
        && (jobs[k].status == Queued ==> forall i :: k < i < |jobs| ==> jobs[i].status == Queued)
        && (Terminal(jobs[k].status) ==> forall i :: k < i < |jobs| ==> jobs[i].status == Canceled))
  }

  ghost predicate InOrder(jobs: seq<Job>) {
    exists k :: SplitsAt(jobs, k)
  }

  ghost predicate RolloutOk(r: Rollout) {
    && 0 < |r.jobs|
    && InOrder(r.jobs)
    && (r.status == SucceededRollout <==> AllSucceeded(r.jobs))
    && (r.status != RunningRollout ==> forall i :: 0 <= i < |r.jobs| ==> r.jobs[i].status != Queued)
    && (r.status == RunningRollout ==> forall i :: 0 <= i < |r.jobs| ==>
          Terminal(r.jobs[i].status) ==> r.jobs[i].status == Succeeded)
    && (forall i :: 0 <= i < |r.jobs| ==> (r.jobs[i].active <==> !Terminal(r.jobs[i].status)))
  }

  ghost predicate OneInFlight(f: Fleet) {
    forall a, b | Exists(f, a) && Exists(f, b) && InFlight(JobAt(f, a).status) && InFlight(JobAt(f, b).status) ::
      a == b
  }

  ghost predicate OneActivePerInstallation(f: Fleet) {
    forall a, b | Exists(f, a) && Exists(f, b) && JobAt(f, a).active && JobAt(f, b).active
                  && JobAt(f, a).installation == JobAt(f, b).installation ::
      a == b
  }

  ghost predicate FleetOk(f: Fleet) {
    && (forall key :: key in f ==> RolloutOk(f[key]))
    && OneInFlight(f)
    && OneActivePerInstallation(f)
  }

  lemma SplitIsUnique(jobs: seq<Job>, k: nat, i: nat)
    requires SplitsAt(jobs, k) && i < |jobs| && InFlight(jobs[i].status)
    ensures i == k
  {}

  /** Every job of `h` is one of `f`, no more active and no more in flight than it was there. */
  ghost predicate Calmer(f: Fleet, h: Fleet) {
    forall x | Exists(h, x) ::
      && Exists(f, x) && JobAt(h, x).installation == JobAt(f, x).installation
      && (JobAt(h, x).active ==> JobAt(f, x).active)
      && (InFlight(JobAt(h, x).status) ==> InFlight(JobAt(f, x).status))
  }

  lemma CalmerKeeps(f: Fleet, h: Fleet)
    requires OneInFlight(f) && OneActivePerInstallation(f) && Calmer(f, h)
    ensures OneInFlight(h) && OneActivePerInstallation(h)
  {}

  lemma AddedKeeps(f: Fleet, key: string, r: Rollout)
    requires OneInFlight(f) && OneActivePerInstallation(f) && key !in f
    requires forall i :: 0 <= i < |r.jobs| ==> !InFlight(r.jobs[i].status)
    requires forall i, j :: 0 <= i < j < |r.jobs| ==> r.jobs[i].installation != r.jobs[j].installation
    requires forall i, id :: 0 <= i < |r.jobs| && Exists(f, id) && JobAt(f, id).active
               ==> JobAt(f, id).installation != r.jobs[i].installation
    ensures OneInFlight(f[key := r]) && OneActivePerInstallation(f[key := r])
  {
    var g := f[key := r];
    assert forall x :: Exists(g, x) && x.rollout != key ==> Exists(f, x) && JobAt(g, x) == JobAt(f, x);
    assert forall x :: Exists(g, x) && x.rollout == key ==> JobAt(g, x) == r.jobs[x.position];
  }

  lemma CreateKeeps(f: Fleet, key: string, releaseId: string, targets: seq<InstallationId>, actor: string,
                    bar: Option<Refusal>)
    requires FleetOk(f)
    ensures var a := Create(f, key, releaseId, targets, actor, bar); a.Done? ==> FleetOk(a.value)
  {
    if Create(f, key, releaseId, targets, actor, bar).Done? && key !in f {
      var r := Rollout(releaseId, actor, RunningRollout, FreshJobs(targets));
      AddedKeeps(f, key, r) by {
        forall i, id | 0 <= i < |r.jobs| && Exists(f, id) && JobAt(f, id).active
          ensures JobAt(f, id).installation != r.jobs[i].installation
        {
          assert id in JobIds(f) && r.jobs[i].installation in targets;
        }
      }
      assert RolloutOk(r) by {
        assert SplitsAt(r.jobs, 0);
        assert r.jobs[0].status == Queued;
      }
    }
  }

  /** Dropping the queue of a rollout, with a new rollout status, keeps everything. */
  lemma DropKeeps(f: Fleet, key: string, status: RolloutStatus)
    requires FleetOk(f) && key in f
    requires status != RunningRollout && status != SucceededRollout && !AllSucceeded(f[key].jobs)
    ensures FleetOk(f[key := f[key].(status := status, jobs := WithoutQueued(f[key].jobs))])
  {
    var g := f[key := f[key].(status := status, jobs := WithoutQueued(f[key].jobs))];
    DroppedRolloutOk(f[key], status);
    CalmerKeeps(f, g);
    hide RolloutOk, OneInFlight, OneActivePerInstallation;
  }

  lemma DroppedRolloutOk(r: Rollout, status: RolloutStatus)
    requires RolloutOk(r) && status != RunningRollout && status != SucceededRollout && !AllSucceeded(r.jobs)
    ensures RolloutOk(r.(status := status, jobs := WithoutQueued(r.jobs)))
  {
    var k: nat :| SplitsAt(r.jobs, k);
    assert SplitsAt(WithoutQueued(r.jobs), k) && !AllSucceeded(WithoutQueued(r.jobs));
  }

  lemma CancelKeeps(f: Fleet, key: string)
    requires FleetOk(f)
    ensures Cancel(f, key).Done? ==> FleetOk(Cancel(f, key).value)
  {
    if Cancel(f, key).Done? { DropKeeps(f, key, CanceledRollout); }
  }

  lemma StartKeepsRollout(f: Fleet, id: JobId)
    requires Exists(f, id) && RolloutOk(f[id.rollout])
    requires JobAt(f, id).status == Queued && Startable(f, id)
    ensures RolloutOk(PutStatus(f, id, Downloading)[id.rollout])
  {
    var before, after := f[id.rollout].jobs, PutStatus(f, id, Downloading)[id.rollout].jobs;
    var k: nat :| SplitsAt(before, k);
    assert forall j :: 0 <= j < id.position ==> before[..id.position][j] == before[j];
    assert k == id.position && SplitsAt(after, k);
    assert before[k].status == Queued && after[k].status == Downloading;
  }

  lemma StartKeepsFleet(f: Fleet, id: JobId)
    requires OneActivePerInstallation(f) && Exists(f, id) && JobAt(f, id).status == Queued && !SomeInFlight(f)
    ensures OneInFlight(PutStatus(f, id, Downloading)) && OneActivePerInstallation(PutStatus(f, id, Downloading))
  {
    var g := PutStatus(f, id, Downloading);
    assert forall x :: Exists(g, x) ==> Exists(f, x) && JobAt(g, x).installation == JobAt(f, x).installation
                                        && (JobAt(g, x).active ==> JobAt(f, x).active);
    assert forall x :: Exists(g, x) && x != id ==> x in JobIds(f) && JobAt(g, x) == JobAt(f, x);
  }

  lemma PollKeeps(f: Fleet, id: JobId)
    requires FleetOk(f) && Exists(f, id)
    ensures FleetOk(PollJob(f, id).0)
  {
    if JobAt(f, id).status == Queued && Startable(f, id) {
      StartKeepsRollout(f, id);
      StartKeepsFleet(f, id);
    }
  }

  /** A report about the job at the split keeps its rollout in order. */
  lemma ReportKeepsOrder(jobs: seq<Job>, k: nat, job: Job)
    requires SplitsAt(jobs, k) && k < |jobs| && InFlight(jobs[k].status)
    requires job.status != Queued && job.status != Canceled
    ensures job.status == Succeeded ==> SplitsAt(jobs[k := job], k + 1)
    ensures InFlight(job.status) ==> SplitsAt(jobs[k := job], k)
    ensures job.status == Failed || job.status == RolledBack ==> SplitsAt(WithoutQueued(jobs[k := job]), k)
  {}

  lemma FailureKeepsRollout(r: Rollout, k: nat, job: Job)
    requires RolloutOk(r) && SplitsAt(r.jobs, k) && k < |r.jobs| && InFlight(r.jobs[k].status)
    requires (job.status == Failed || job.status == RolledBack) && !job.active
    ensures RolloutOk(r.(status := PausedRollout, jobs := WithoutQueued(r.jobs[k := job])))
  {
    ReportKeepsOrder(r.jobs, k, job);
    assert WithoutQueued(r.jobs[k := job])[k].status == job.status;
  }

  lemma ProgressKeepsRollout(r: Rollout, k: nat, job: Job)
    requires RolloutOk(r) && SplitsAt(r.jobs, k) && k < |r.jobs| && InFlight(r.jobs[k].status)
    requires (job.status == Succeeded && !job.active) || (InFlight(job.status) && job.active)
    ensures var jobs := r.jobs[k := job];
            var over := job.status == Succeeded && AllSucceeded(jobs);
            RolloutOk(r.(jobs := jobs, status := if over then SucceededRollout else r.status))
  {
    ReportKeepsOrder(r.jobs, k, job);
    assert r.jobs[k].status != Succeeded && r.jobs[k := job][k].status == job.status;
  }

  lemma ReportKeepsRollout(f: Fleet, id: JobId, status: JobStatus)
    requires Exists(f, id) && RolloutOk(f[id.rollout])
    requires InFlight(JobAt(f, id).status) && CanReportUpdate(JobAt(f, id).status, status)
    ensures RolloutOk(Settle(PutStatus(f, id, status), id, status)[id.rollout])
  {
    var r := f[id.rollout];
    var k: nat :| SplitsAt(r.jobs, k);
    SplitIsUnique(r.jobs, k, id.position);
    var job := PutStatus(f, id, status)[id.rollout].jobs[k];
    assert r.jobs[k].active;
    if status == Failed || status == RolledBack {
      FailureKeepsRollout(r, k, job);
    } else {
      ProgressKeepsRollout(r, k, job);
    }
    hide RolloutOk, AllSucceeded;
  }

  lemma ReportCalms(f: Fleet, id: JobId, status: JobStatus)
    requires Exists(f, id) && InFlight(JobAt(f, id).status)
    ensures Calmer(f, Settle(PutStatus(f, id, status), id, status))
  {}

  lemma ReportKeeps(f: Fleet, installation: InstallationId, id: JobId, status: JobStatus, reported: Stamp,
                    release: Stamp)
    requires FleetOk(f)
    ensures var a := Report(f, installation, id, status, reported, release); a.Done? ==> FleetOk(a.value)
  {
    if Exists(f, id) && InFlight(JobAt(f, id).status) && CanReportUpdate(JobAt(f, id).status, status) {
      ReportKeepsRollout(f, id, status);
      ReportCalms(f, id, status);
      CalmerKeeps(f, Settle(PutStatus(f, id, status), id, status));
    }
  }

  // ----- runs of the controller alone, against updaters that may report anything

  datatype Operation =
    | CreateOp(key: string, releaseId: string, targets: seq<InstallationId>, actor: string, bar: Option<Refusal>)
    | CancelOp(key: string)
    | PollOp(id: JobId)
    | ReportOp(installation: InstallationId, id: JobId, status: JobStatus, reported: Stamp, release: Stamp)

  function Perform(f: Fleet, e: Operation): Fleet {
    match e
    case CreateOp(key, releaseId, targets, actor, bar) =>
      var a := Create(f, key, releaseId, targets, actor, bar); if a.Done? then a.value else f
    case CancelOp(key) => var a := Cancel(f, key); if a.Done? then a.value else f
    case PollOp(id) => if Exists(f, id) && JobAt(f, id).active then PollJob(f, id).0 else f
    case ReportOp(installation, id, status, reported, release) =>
      var a := Report(f, installation, id, status, reported, release); if a.Done? then a.value else f
  }

  function AfterOperations(operations: seq<Operation>): Fleet {
    if operations == [] then map[]
    else Perform(AfterOperations(operations[..|operations|-1]), operations[|operations|-1])
  }

  lemma PerformKeeps(f: Fleet, e: Operation)
    requires FleetOk(f)
    ensures FleetOk(Perform(f, e))
  {
    match e
    case CreateOp(key, releaseId, targets, actor, bar) => CreateKeeps(f, key, releaseId, targets, actor, bar);
    case CancelOp(key) => CancelKeeps(f, key);
    case PollOp(id) => if Exists(f, id) { PollKeeps(f, id); }
    case ReportOp(installation, id, status, reported, release) =>
      ReportKeeps(f, installation, id, status, reported, release);
  }

  /** Every interleaving of creations, cancellations, polls and reports, honest or not, leaves every
      rollout in order, at most one job of the whole fleet in flight, and at most one active job
      per installation; a rollout counts as succeeded exactly when all its jobs did. */
  lemma {:induction false} RunsKeepTheFleet(operations: seq<Operation>)
    ensures FleetOk(AfterOperations(operations))
  {
    if operations != [] {
      RunsKeepTheFleet(operations[..|operations|-1]);
      PerformKeeps(AfterOperations(operations[..|operations|-1]), operations[|operations|-1]);
    }
  }

  /** The fleet cannot block itself: while nothing is in flight, every running rollout has exactly
      one job that a poll starts, namely the first one that has not succeeded. */
  lemma IdleFleetCanProceed(f: Fleet, key: string) returns (id: JobId)
    requires FleetOk(f) && !SomeInFlight(f) && key in f && f[key].status == RunningRollout
    ensures id.rollout == key && Exists(f, id) && JobAt(f, id).status == Queued && JobAt(f, id).active
    ensures PollJob(f, id).1 == Some(id) && JobAt(PollJob(f, id).0, id).status == Downloading
    ensures forall other :: Exists(f, other) && other.rollout == key && other != id ==>
      !(JobAt(f, other).status == Queued && Startable(f, other))
  {
    var jobs := f[key].jobs;
    var k: nat :| SplitsAt(jobs, k);
    id := JobId(key, k);
    assert id in JobIds(f) && forall i :: 0 <= i < k ==> jobs[..k][i].status == Succeeded;
    forall other | Exists(f, other) && other.rollout == key && other != id && JobAt(f, other).status == Queued
      ensures !Startable(f, other)
    {
      assert jobs[..other.position][k].status == Queued;
    }
  }
}
