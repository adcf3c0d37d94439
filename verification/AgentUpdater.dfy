/** The updater program: tick, execute, advance, rollback and the file operations they use, changing
    the machine's files step by step. Every durable write and every exchange is also entered in a ghost
    log of protocol events; `Valid` says that replaying the log from a fresh job gives exactly the
    present state, so whatever UpdateProtocol proves of runs holds at every point of every call,
    and a crash at any point leaves the state of a prefix of the log. What the surroundings answered, in
    downloads, restarts and health checks, is kept in a second ghost record that only the methods asking
    them extend; against it the contracts say which phase each answer calls for. */
module AgentUpdater {
  import opened Options
  import opened AgentUpdateContract
  import opened AgentController
  import opened UpdateProtocol

  datatype Download = Fetched | Interrupted | Invalid

  /** An answer from outside: what arrived of the artifact, whether the service manager could restart the
      Agent, and whether the running Agent was healthy with the executable of this hash. */
  datatype Probe =
    | Downloaded(content: Option<string>)
    | Restarted(ok: bool)
    | Health(sha256: string, ok: bool)

  /** The answers that install a candidate: one good check when it was linked and already running, or a
      restart and a good check after the link was switched. `Some(false)` is the answer that refutes it. */
  function InstallVerdict(sha256: string, linked: bool, answers: seq<Probe>): Option<bool> {
    if !linked then StartVerdict(sha256, answers)
    else if answers == [Health(sha256, true)] then Some(true)
    else if answers != [] && answers[0] == Health(sha256, false) then StartVerdict(sha256, answers[1..])
    else None
  }

  function StartVerdict(sha256: string, answers: seq<Probe>): Option<bool> {
    if answers == [Restarted(false)] then Some(false)
    else if answers == [Restarted(true), Health(sha256, true)] then Some(true)
    else if answers == [Restarted(true), Health(sha256, false)] then Some(false)
    else None
  }

  lemma FirstVerdict(sha256: string, before: seq<Probe>)
    ensures InstallVerdict(sha256, true, (before + [Health(sha256, true)])[|before|..]) == Some(true)
  {}

  lemma SecondVerdict(sha256: string, before: seq<Probe>, first: seq<Probe>, second: seq<Probe>)
    requires first == [] || first == [Health(sha256, false)]
    ensures InstallVerdict(sha256, first != [], (before + first + second)[|before|..]) == StartVerdict(sha256, second)
  {
    assert (before + first + second)[|before|..] == first + second;
    assert first == [] ==> first + second == second;
    assert first != [] ==> (first + second)[1..] == second;
  }

  /** The answers between `before` and `after` carry a job from phase `p` to success. */
  predicate Passed(p: Phase, sha256: string, before: seq<Probe>, after: seq<Probe>) {
    var up := Health(sha256, true);
    match p
    case AtDownloading | AtVerifying | AtInstalling =>
      |before| + 3 <= |after| && after[|after| - 3] == after[|after| - 2] == after[|after| - 1] == up
    case AtLocalHealthy => after == before + [up, up]
    case AtChecking => after == before + [up]
    case AtSucceeded => after == before
    case _ => false
  }

  /** The new answers end with a restart of the old Agent that was found healthy. */
  predicate EndsRestored(oldSha256: string, before: seq<Probe>, after: seq<Probe>) {
    && |before| + 2 <= |after|
    && after[|after| - 2] == Restarted(true) && after[|after| - 1] == Health(oldSha256, true)
  }

  /** The last of the new answers is a good check of the candidate. */
  predicate Checked(sha256: string, before: seq<Probe>, after: seq<Probe>) {
    |before| < |after| && after[|after| - 1] == Health(sha256, true)
  }

  /** One of the new answers is against the candidate. */
  predicate Refuted(sha256: string, before: seq<Probe>, after: seq<Probe>) {
    exists i :: |before| <= i < |after| && (after[i] == Health(sha256, false) || after[i] == Restarted(false))
  }

  /** The artifact is not the signed one: it was downloaded wrong, or no longer is what was stored. */
  predicate Spoiled(p: Phase, sha256: string, held: bool, before: seq<Probe>, after: seq<Probe>) {
    match p
    case AtDownloading =>
      !held && |after| == |before| + 1 && after[|before|].Downloaded? && after[|before|] != Downloaded(Some(sha256))
    case AtVerifying => !held
    case AtFailed => true
    case _ => false
  }

  /** How the answers of a whole call are made of the answers of its parts. */
  lemma AnswersJoin(p: Phase, sha256: string, oldSha256: string, before: seq<Probe>, mid: seq<Probe>,
                    after: seq<Probe>)
    requires before <= mid <= after
    ensures EndsRestored(oldSha256, mid, after) ==>
              EndsRestored(oldSha256, before, after)
              && (p in {AtDownloading, AtVerifying, AtInstalling} ==> !Passed(p, sha256, before, after))
    ensures !Passed(AtRolledBack, sha256, mid, after) && !Passed(AtFailed, sha256, mid, after)
    ensures Refuted(sha256, mid, after) ==> Refuted(sha256, before, after)
    ensures Refuted(sha256, before, mid) ==> Refuted(sha256, before, after)
    ensures p in {AtDownloading, AtVerifying, AtInstalling} && Checked(sha256, before, mid)
            && Passed(AtLocalHealthy, sha256, mid, after)
            ==> Passed(p, sha256, before, after)
    ensures p in {AtDownloading, AtVerifying, AtInstalling, AtFailed} && |after| < |before| + 3
            ==> !Passed(p, sha256, before, after)
  {}

  class Updater {
    // the machine's durable files
    var journal: Option<Journal>
    var link: Path
    var files: map<Path, string>
    var current: Stamp
    var receipts: set<JobId>

    // the controller's side of this job
    const id: JobId
    const release: Stamp
    const trusted: bool
    var status: JobStatus
    var sent: set<Notice>
    var accepted: set<JobStatus>

    /** When set, no file operation and no exchange with the controller fails. */
    const reliable: bool

    ghost const start: Local
    ghost var log: seq<Event>
    ghost var probes: seq<Probe>

    function View(): Local
      reads this
    {
      Local(id, release, trusted, Disk(journal, link, files, current, receipts), status, sent, accepted)
    }

    ghost predicate Valid()
      reads this
    {
      Fresh(start) && View() == Replay(start, log)
    }

    constructor (job: Local, reliable: bool)
      requires Fresh(job)
      ensures Valid() && View() == job && log == [] && probes == [] && this.reliable == reliable
    {
      id, release, trusted := job.id, job.release, job.trusted;
      journal, link, files := job.disk.journal, job.disk.link, job.disk.files;
      current, receipts := job.disk.current, job.disk.receipts;
      status, sent, accepted := job.status, job.sent, job.accepted;
      this.reliable := reliable;
      start, log, probes := job, [], [];
    }

    /** Recording an event keeps the state in step unless the event is the fault. */
    lemma StaysJournalled(e: Event)
      requires Valid() && !UnjournalledNotice(View(), e)
      ensures Journalled(View()) ==> Journalled(Next(View(), e))
    {
      RunsKeepOk(start, log);
      if Journalled(View()) { NextKeepsJournalled(View(), e); }
    }

    ghost method Record(e: Event)
      requires Fresh(start) && View() == Next(Replay(start, log), e)
      modifies this`log
      ensures Valid() && log == old(log) + [e]
    {
      var longer := Then(start, log, e);
      log := longer;
    }

    /** Meanwhile: reports under way arrive, once or again, and files the link does not name change. */
    method Meanwhile()
      requires Valid()
      modifies this`status, this`accepted, this`files, this`log
      ensures Valid() && old(log) <= log
      ensures old(accepted) <= accepted
      ensures CurrentStamp(View().disk) == old(CurrentStamp(View().disk))
      ensures link in old(files) ==> link in files && files[link] == old(files)[link]
      ensures reliable ==> files == old(files)
      ensures Journalled(old(View())) ==> Journalled(View())
    {
      var more: nat := *;
      while more > 0
        invariant Valid() && old(log) <= log
        invariant old(accepted) <= accepted
        invariant CurrentStamp(View().disk) == old(CurrentStamp(View().disk))
        invariant link in old(files) ==> link in files && files[link] == old(files)[link]
        invariant reliable ==> files == old(files)
        invariant Journalled(old(View())) ==> Journalled(View())
      {
        var delivery: bool := *;
        if delivery {
          var n: Notice := *;
          Arrive(n);
        } else if !reliable {
          var path: Path, content: Option<string> := *, *;
          if path != link {
            StaysJournalled(Decay(path, content));
            files := if content.Some? then files[path := content.value] else files - {path};
            Record(Decay(path, content));
          }
        }
        more := more - 1;
      }
    }

    /** One report reaches the controller. */
    method Arrive(n: Notice)
      requires Valid()
      modifies this`status, this`accepted, this`log
      ensures Valid() && old(log) <= log && old(accepted) <= accepted
      ensures Journalled(old(View())) ==> Journalled(View())
      ensures n in sent && Accepts(old(View()), n) ==> n.status in accepted
      ensures status == old(status) || status == n.status
    {
      StaysJournalled(Deliver(n));
      if n in sent && Accepts(View(), n) {
        accepted := accepted + {n.status};
        status := if Terminal(status) then status else n.status;
      }
      Record(Deliver(n));
    }

    /** atomicJSON on job.json: an error may be reported after the rename has happened. */
    method Save(j: Journal) returns (ok: bool)
      requires Valid() && Held(View()) && j == journal.value.(phase := j.phase) && MaySave(View(), j.phase)
      modifies this`journal, this`log
      ensures Valid() && old(log) <= log
      ensures journal == Some(j) || journal == old(journal)
      ensures ok ==> journal == Some(j)
      ensures reliable ==> ok
      ensures Journalled(old(View())) ==> Journalled(View())
    {
      var written: bool, clean: bool := *, *;
      if reliable || written {
        StaysJournalled(Event.Save(j.phase));
        journal := Some(j);
        Record(Event.Save(j.phase));
        return reliable || clean;
      }
      return false;
    }

    /** The request leaves the machine, unless the running hash cannot be read. */
    method Post(to: JobStatus) returns (n: Option<Notice>)
      requires Valid() && Held(View()) && Sendable(PhaseOf(View()), to)
      modifies this`sent, this`log
      ensures Valid() && old(log) <= log
      ensures !UnjournalledNotice(old(View()), Send(to)) && Journalled(old(View())) ==> Journalled(View())
      ensures if CurrentStamp(View().disk).None? then n.None?
              else n == Some(Notice(to, CurrentStamp(View().disk).value)) && n.value in sent
    {
      var stamp := CurrentStamp(View().disk);
      if stamp.None? { return None; }
      if !UnjournalledNotice(View(), Send(to)) { StaysJournalled(Send(to)); }
      n := Some(Notice(to, stamp.value));
      sent := sent + {n.value};
      Record(Send(to));
    }

    /** The state in which `to` is the report to make and its acceptance is certain. */
    predicate Due(to: JobStatus)
      reads this
    {
      Held(View()) && Journalled(View()) && NextReport(PhaseOf(View())) == Some(to)
    }

    /** The request is lost, refused, accepted with the answer lost, or accepted and answered. */
    method Knock(n: Notice) returns (ok: bool)
      requires Valid() && n in sent
      modifies this`status, this`accepted, this`log
      ensures Valid() && old(log) <= log && old(accepted) <= accepted
      ensures Journalled(old(View())) ==> Journalled(View())
      ensures ok ==> n.status in accepted
      ensures status == old(status) || status == n.status
      ensures reliable && old(Due(n.status)) && CurrentStamp(old(View()).disk) == Some(n.stamp) ==> ok
      ensures reliable && Accepts(old(View()), n) ==> ok
    {
      var arrives: bool, answered: bool := *, *;
      if !reliable && !arrives { return false; }
      if Due(n.status) && CurrentStamp(View().disk) == Some(n.stamp) {
        RunsKeepOk(start, log);
        NextReportAccepted(View(), n);
      }
      ok := (reliable || answered) && Accepts(View(), n);
      Arrive(n);
    }

    method Report(to: JobStatus) returns (ok: bool)
      requires Valid() && Held(View()) && Sendable(PhaseOf(View()), to)
      modifies this`status, this`sent, this`accepted, this`files, this`log
      ensures Valid() && old(log) <= log && old(accepted) <= accepted
      ensures link in old(files) ==> link in files && files[link] == old(files)[link]
      ensures reliable ==> files == old(files)
      ensures ok ==> to in accepted
      ensures CurrentStamp(View().disk) == old(CurrentStamp(View().disk))
      ensures CurrentStamp(View().disk).Some? ==> Notice(to, CurrentStamp(View().disk).value) in sent
      ensures old(Due(to)) ==> Due(to)
      ensures reliable && old(Due(to)) && link in old(files) ==> ok
    {
      var n := Post(to);
      if n.None? { return false; }
      Meanwhile();
      ok := Knock(n.value);
      Meanwhile();
    }

    method Advance(j: Journal, to: Phase) returns (next: Journal, ok: bool)
      requires Valid() && journal == Some(j) && j.job == id
      requires (j.phase, to) in
                 {(AtDownloading, AtVerifying), (AtVerifying, AtInstalling), (AtLocalHealthy, AtChecking)}
      modifies this`journal, this`status, this`sent, this`accepted, this`files, this`log
      ensures Valid() && old(log) <= log && Held(View())
      ensures journal == Some(j) || journal == Some(j.(phase := to))
      ensures ok ==> journal == Some(next) && next == j.(phase := to)
      ensures journal == Some(j.(phase := to)) ==> NextReport(j.phase).value in accepted
      ensures link in old(files) ==> link in files && files[link] == old(files)[link]
      ensures reliable ==> files == old(files)
      ensures Journalled(old(View())) ==> Journalled(View())
      ensures reliable && Journalled(old(View())) && link in old(files) ==> ok
    {
      next := j;
      ok := Report(NextReport(j.phase).value);
      if !ok { return; }
      next := j.(phase := to);
      ok := Save(next);
    }

    /** GET of the artifact: all of it with this content, or nothing usable. */
    method GetArtifact() returns (content: Option<string>)
      modifies this`probes
      ensures probes == old(probes) + [Downloaded(content)]
      ensures reliable ==> content.Some?
    {
      content := *;
      if reliable && !content.Some? {
        var answered: string := *;
        content := Some(answered);
      }
      probes := probes + [Downloaded(content)];
    }

    method FetchArtifact(j: Journal) returns (result: Download)
      requires Valid() && journal == Some(j) && j.job == id && j.phase == AtDownloading
      modifies this`status, this`accepted, this`files, this`log, this`probes
      ensures Valid() && old(log) <= log && old(accepted) <= accepted
      ensures Journalled(old(View())) ==> Journalled(View())
      ensures link in old(files) ==> link in files
      ensures if Holds(old(files), Candidate(View()), release.sha256) then probes == old(probes) && result == Fetched
              else exists content :: probes == old(probes) + [Downloaded(content)]
      ensures result == Fetched ==> Holds(files, Candidate(View()), release.sha256)
      ensures var held := Holds(old(files), Candidate(View()), release.sha256);
              result != Interrupted ==> result == if Spoiled(AtDownloading, release.sha256, held, old(probes), probes)
                                                  then Invalid else Fetched
      ensures result == Invalid ==> probes[|old(probes)|].content.Some?
      ensures reliable ==> result != Interrupted
      ensures reliable ==>
                forall p :: p in old(files) && p != Candidate(View()) ==> p in files && files[p] == old(files)[p]
      ensures reliable && Holds(old(files), Candidate(View()), release.sha256) ==> files == old(files)
    {
      if Holds(files, Candidate(View()), release.sha256) { return Fetched; }
      Meanwhile();
      var content := GetArtifact();
      if content.None? { return Interrupted; }
      if content != Some(release.sha256) { return Invalid; }
      var renamed: bool, clean: bool := *, *;
      if !reliable && !renamed { return Interrupted; }
      StaysJournalled(Fetch);
      files := files[Candidate(View()) := content.value];
      Record(Fetch);
      return if reliable || clean then Fetched else Interrupted;
    }

    method SwitchLink(target: Path) returns (ok: bool)
      requires Valid() && Enabled(View(), Relink(target))
      modifies this`link, this`log
      ensures Valid() && old(log) <= log
      ensures link == target || link == old(link)
      ensures ok ==> link == target
      ensures reliable ==> ok
      ensures Journalled(old(View())) ==> Journalled(View())
    {
      var renamed: bool, clean: bool := *, *;
      if reliable || renamed {
        StaysJournalled(Relink(target));
        link := target;
        Record(Relink(target));
        return reliable || clean;
      }
      return false;
    }

    method WriteCurrentFile(stamp: Stamp) returns (ok: bool)
      requires Valid() && Enabled(View(), WriteCurrent)
      requires stamp == if PhaseOf(View()) == AtInstalling then journal.value.manifest else journal.value.oldStamp
      modifies this`current, this`log
      ensures Valid() && old(log) <= log
      ensures ok ==> current == stamp
      ensures reliable ==> ok
      ensures Journalled(old(View())) ==> Journalled(View())
    {
      var written: bool, clean: bool := *, *;
      if reliable || written {
        StaysJournalled(WriteCurrent);
        current := stamp;
        Record(WriteCurrent);
        return reliable || clean;
      }
      return false;
    }

    /** The service manager and the health probe answer as they will, and the answer is recorded;
        `mustWork` is the assumption that the old Agent can be restarted and becomes healthy. */
    method RestartAgent(mustWork: bool) returns (ok: bool)
      modifies this`probes
      ensures probes == old(probes) + [Restarted(ok)]
      ensures mustWork ==> ok
    {
      ok := *;
      ok := ok || mustWork;
      probes := probes + [Restarted(ok)];
    }

    method Healthy(sha256: string, mustWork: bool) returns (ok: bool)
      modifies this`probes
      ensures probes == old(probes) + [Health(sha256, ok)]
      ensures mustWork ==> ok
    {
      ok := *;
      ok := ok || mustWork;
      probes := probes + [Health(sha256, ok)];
    }

    /** The old executable is in place, and a release file carries the content it is named after. */
    predicate Restorable(j: Journal)
      reads this
    {
      && Holds(files, j.oldPath, j.oldStamp.sha256)
      && (j.oldPath == Candidate(View()) ==> j.oldStamp.sha256 == release.sha256)
    }

    /** What a call needs in order to finish: nothing fails, and the old Agent can be restored. */
    predicate Calm(j: Journal)
      reads this
    {
      reliable && Journalled(View()) && link in files && (TerminalPhase(j.phase) || Restorable(j))
    }

    /** What rollback does when it fails: the journal is written again, then the report is tried. */
    method RollbackFailed(j: Journal)
      requires Valid() && Held(View()) && j == journal.value.(phase := j.phase)
      requires j.phase == AtRollingBack || j.phase == AtRolledBack
      requires MaySave(View(), j.phase)
      requires PhaseOf(View()) != AtSucceeded && PhaseOf(View()) != AtFailed
      modifies this`journal, this`status, this`sent, this`accepted, this`files, this`log
      ensures Valid() && old(log) <= log && Held(View())
      ensures journal == old(journal) || journal == Some(j)
      ensures reliable ==> journal == Some(j)
      ensures CurrentStamp(View().disk).Some? ==> Notice(RollingBack, CurrentStamp(View().disk).value) in sent
    {
      var _ := Save(j);
      var _ := Report(RollingBack);
    }

    /** Between the two journal writes of a rollback: link, restart, health, current.json. */
    method RestoreOld(j: Journal) returns (ok: bool)
      requires Valid() && Held(View()) && journal.value.phase == AtRollingBack
      requires j.oldPath == journal.value.oldPath && j.oldStamp == journal.value.oldStamp
      modifies this`link, this`current, this`log, this`probes
      ensures Valid() && old(log) <= log && old(probes) <= probes
      ensures ok ==> probes == old(probes) + [Restarted(true), Health(j.oldStamp.sha256, true)]
      ensures ok ==> link == j.oldPath && current == j.oldStamp && Holds(files, link, j.oldStamp.sha256)
      ensures reliable && Restorable(j) ==> ok
      ensures Journalled(old(View())) ==> Journalled(View())
    {
      if !Holds(files, j.oldPath, j.oldStamp.sha256) { return false; }
      ok := SwitchLink(j.oldPath);
      if !ok { return; }
      ok := RestartAgent(reliable);
      if !ok { return; }
      ok := Healthy(j.oldStamp.sha256, reliable);
      if !ok { return; }
      ok := WriteCurrentFile(j.oldStamp);
    }

    method Rollback(j: Journal) returns (next: Journal, ok: bool)
      requires Valid() && journal == Some(j) && j.job == id
      requires j.phase in {AtInstalling, AtLocalHealthy, AtChecking, AtRollingBack}
      modifies this`journal, this`link, this`current, this`status, this`sent, this`accepted, this`files, this`log,
               this`probes
      ensures Valid() && old(log) <= log && old(probes) <= probes && Held(View())
      ensures ok ==> next == j.(phase := AtRolledBack) && journal == Some(next)
      ensures ok ==> probes == old(probes) + [Restarted(true), Health(j.oldStamp.sha256, true)]
      ensures ok ==> EndsRestored(j.oldStamp.sha256, old(probes), probes)
      ensures journal.value.phase in {j.phase, AtRollingBack, AtRolledBack}
      ensures reliable ==> journal.value.phase in {AtRollingBack, AtRolledBack}
      ensures !ok && CurrentStamp(View().disk).Some? ==> Notice(RollingBack, CurrentStamp(View().disk).value) in sent
      ensures ok ==> link == j.oldPath && current == j.oldStamp && Holds(files, link, j.oldStamp.sha256)
      ensures reliable && old(Restorable(j)) && Journalled(old(View())) ==> ok && Journalled(View())
      ensures old(Calm(j)) ==> ok && Calm(next)
    {
      next := j.(phase := AtRollingBack);
      ok := Save(next);
      if ok { ok := RestoreOld(next); }
      if ok {
        next := next.(phase := AtRolledBack);
        ok := Save(next);
      }
      if !ok { RollbackFailed(next); }
    }

    method DownloadStage(j: Journal) returns (next: Journal, ok: bool)
      requires Valid() && journal == Some(j) && j.job == id && j.phase == AtDownloading
      modifies this`journal, this`status, this`sent, this`accepted, this`files, this`log, this`probes
      ensures Valid() && old(log) <= log
      ensures journal.Some? && journal.value.phase in {AtDownloading, AtVerifying, AtFailed}
      ensures ok ==> journal == Some(next) && next == j.(phase := next.phase)
      ensures if Holds(old(files), Candidate(View()), release.sha256) then probes == old(probes)
              else exists content :: probes == old(probes) + [Downloaded(content)]
      ensures var held := Holds(old(files), Candidate(View()), release.sha256);
              ok ==> next.phase == if Spoiled(AtDownloading, release.sha256, held, old(probes), probes)
                                   then AtFailed else AtVerifying
      ensures ok && reliable && next.phase == AtVerifying ==> Holds(files, Candidate(View()), release.sha256)
      ensures old(Calm(j)) ==> ok && Calm(next)
    {
      var fetched := FetchArtifact(j);
      if fetched == Interrupted { return j, false; }
      if fetched == Invalid {
        next := j.(phase := AtFailed);
        ok := Save(next);
      } else {
        next, ok := Advance(j, AtVerifying);
      }
    }

    method VerifyStage(j: Journal) returns (next: Journal, ok: bool)
      requires Valid() && journal == Some(j) && j.job == id && j.phase == AtVerifying
      modifies this`journal, this`status, this`sent, this`accepted, this`files, this`log
      ensures Valid() && old(log) <= log
      ensures ok ==> journal == Some(next) && next == j.(phase := next.phase) && next.phase in {AtInstalling, AtFailed}
      ensures journal.Some? && journal.value.phase in {AtVerifying, AtInstalling, AtFailed}
      ensures ok && next.phase == AtInstalling ==> Holds(old(files), Candidate(View()), release.sha256)
      ensures ok && reliable && Holds(old(files), Candidate(View()), release.sha256) ==> next.phase == AtInstalling
      ensures reliable ==> files == old(files)
      ensures old(Calm(j)) ==> ok && Calm(next)
    {
      var readable: bool := *;
      if (!reliable && !readable) || !Holds(files, Candidate(View()), release.sha256) {
        next := j.(phase := AtFailed);
        ok := Save(next);
      } else {
        next, ok := Advance(j, AtInstalling);
      }
    }

    /** The candidate is checked where it runs already, and otherwise linked, restarted and checked. */
    method TryCandidate() returns (up: bool)
      requires Valid() && Held(View()) && PhaseOf(View()) == AtInstalling
      requires Holds(files, Candidate(View()), release.sha256)
      modifies this`link, this`log, this`probes
      ensures Valid() && old(log) <= log && old(probes) <= probes
      ensures link == old(link) || link == Candidate(View())
      ensures up ==> link == Candidate(View())
      ensures var verdict := InstallVerdict(release.sha256, old(link) == Candidate(View()), probes[|old(probes)|..]);
              if up then verdict == Some(true)
              else verdict != Some(true) && (reliable ==> verdict == Some(false))
      ensures up ==> Checked(release.sha256, old(probes), probes)
      ensures !up && reliable ==> Refuted(release.sha256, old(probes), probes)
      ensures Journalled(old(View())) ==> Journalled(View())
    {
      hide Replay, Fresh, InstallVerdict;
      ghost var first: seq<Probe> := [];
      if link == Candidate(View()) {
        up := Healthy(release.sha256, false);
        first := [Health(release.sha256, up)];
        FirstVerdict(release.sha256, old(probes));
        if up { return; }
      }
      ghost var second: seq<Probe> := [];
      up := SwitchLink(Candidate(View()));
      if up {
        up := RestartAgent(false);
        second := [Restarted(up)];
      }
      if up {
        up := Healthy(release.sha256, false);
        second := [Restarted(true), Health(release.sha256, up)];
      }
      SecondVerdict(release.sha256, old(probes), first, second);
      assert probes == old(probes) + first + second;
      assert second != [] ==> probes[|probes| - 1] == second[|second| - 1];
    }

    method InstallStage(j: Journal) returns (next: Journal, ok: bool)
      requires Valid() && journal == Some(j) && j.job == id && j.phase == AtInstalling
      requires j.manifest == release && Holds(files, Candidate(View()), release.sha256)
      modifies this`journal, this`link, this`current, this`status, this`sent, this`accepted, this`files, this`log,
               this`probes
      ensures Valid() && old(log) <= log && old(probes) <= probes
      ensures journal.Some? && journal.value.phase in {AtInstalling, AtRollingBack, AtRolledBack, AtLocalHealthy}
      ensures ok ==> journal == Some(next) && next == j.(phase := next.phase)
                     && next.phase in {AtRolledBack, AtLocalHealthy}
      ensures journal.value.phase == AtLocalHealthy ==>
                InstallVerdict(release.sha256, old(link) == Candidate(View()), probes[|old(probes)|..]) == Some(true)
      ensures ok && next.phase == AtRolledBack ==>
                && EndsRestored(j.oldStamp.sha256, old(probes), probes)
                && var verdict := InstallVerdict(release.sha256, old(link) == Candidate(View()),
                                                 probes[|old(probes)|..|probes| - 2]);
                   verdict != Some(true) && (reliable ==> verdict == Some(false))
      ensures journal.value.phase == AtLocalHealthy ==> Checked(release.sha256, old(probes), probes)
      ensures ok && reliable && next.phase == AtRolledBack ==> Refuted(release.sha256, old(probes), probes)
      ensures old(Calm(j)) ==> ok && Calm(next)
    {
      var up := TryCandidate();
      if !up {
        next, ok := Rollback(j);
        return;
      }
      next := j;
      ok := WriteCurrentFile(j.manifest);
      if !ok { return; }
      next := j.(phase := AtLocalHealthy);
      ok := Save(next);
    }

    /** The job has succeeded, as far as this machine goes. */
    predicate Won()
      reads this
    {
      if journal.Some? then journal.value.phase == AtSucceeded else status == Succeeded
    }

    lemma HeldManifest()
      requires Valid() && Held(View())
      ensures journal.value.manifest == release
    {
      RunsKeepOk(start, log);
    }

    /** The stored artifact is hashed once more; a candidate that cannot be read or is not the signed one is
        not tried. */
    method Install(j: Journal) returns (next: Journal, ok: bool, spoiled: bool)
      requires Valid() && journal == Some(j) && j.job == id && j.phase == AtInstalling
      modifies this`journal, this`link, this`current, this`status, this`sent, this`accepted, this`files, this`log,
               this`probes
      ensures Valid() && old(log) <= log && old(probes) <= probes
      ensures journal.Some? && journal.value.phase in {AtInstalling, AtRollingBack, AtRolledBack, AtLocalHealthy}
      ensures ok ==> journal == Some(next) && next == j.(phase := next.phase)
                     && next.phase in {AtRolledBack, AtLocalHealthy}
      ensures journal.value.phase == AtLocalHealthy ==> !spoiled && Checked(release.sha256, old(probes), probes)
      ensures ok && next.phase == AtRolledBack ==> EndsRestored(j.oldStamp.sha256, old(probes), probes)
      ensures !Won()
      ensures reliable ==> (spoiled <==> !Holds(old(files), Candidate(View()), release.sha256))
      ensures ok && reliable && next.phase == AtRolledBack ==>
                spoiled || Refuted(release.sha256, old(probes), probes)
      ensures old(Calm(j)) ==> ok && Calm(next)
    {
      var readable: bool := *;
      spoiled := (!reliable && !readable) || !Holds(files, Candidate(View()), release.sha256);
      if spoiled {
        next, ok := Rollback(j);
      } else {
        HeldManifest();
        next, ok := InstallStage(j);
      }
    }

    method HealthyStage(j: Journal) returns (next: Journal, ok: bool)
      requires Valid() && journal == Some(j) && j.job == id && j.phase == AtLocalHealthy
      modifies this`journal, this`link, this`current, this`status, this`sent, this`accepted, this`files, this`log,
               this`probes
      ensures Valid() && old(log) <= log && |old(probes)| < |probes|
      ensures exists up :: old(probes) + [Health(release.sha256, up)] <= probes
      ensures journal.Some? && journal.value.phase in
                if probes[|old(probes)|].ok then {AtLocalHealthy, AtChecking}
                else {AtLocalHealthy, AtRollingBack, AtRolledBack}
      ensures ok && probes[|old(probes)|].ok ==>
                journal == Some(next) && next == j.(phase := AtChecking)
                && probes == old(probes) + [Health(release.sha256, true)]
      ensures ok && !probes[|old(probes)|].ok ==>
                journal == Some(next) && next == j.(phase := AtRolledBack)
                && probes == old(probes) + [Health(release.sha256, false), Restarted(true),
                                            Health(j.oldStamp.sha256, true)]
      ensures old(Calm(j)) ==> ok && Calm(next)
    {
      var up := Healthy(release.sha256, false);
      if up { next, ok := Advance(j, AtChecking); } else { next, ok := Rollback(j); }
    }

    method CheckStage(j: Journal) returns (next: Journal, ok: bool)
      requires Valid() && journal == Some(j) && j.job == id && j.phase == AtChecking
      modifies this`journal, this`link, this`current, this`status, this`sent, this`accepted, this`files, this`log,
               this`probes
      ensures Valid() && old(log) <= log && |old(probes)| < |probes|
      ensures exists up :: old(probes) + [Health(release.sha256, up)] <= probes
      ensures journal.Some? && journal.value.phase in
                if probes[|old(probes)|].ok then {AtChecking, AtSucceeded}
                else {AtChecking, AtRollingBack, AtRolledBack}
      ensures probes[|old(probes)|].ok ==> probes == old(probes) + [Health(release.sha256, true)]
      ensures ok && probes[|old(probes)|].ok ==> journal == Some(next) && next == j.(phase := AtSucceeded)
      ensures ok && !probes[|old(probes)|].ok ==>
                journal == Some(next) && next == j.(phase := AtRolledBack)
                && probes == old(probes) + [Health(release.sha256, false), Restarted(true),
                                            Health(j.oldStamp.sha256, true)]
      ensures old(Calm(j)) ==> ok && Calm(next)
    {
      var up := Healthy(release.sha256, false);
      if up {
        next := j.(phase := AtSucceeded);
        ok := Save(next);
      } else {
        next, ok := Rollback(j);
      }
    }

    /** Where a finished update leaves the machine. */
    predicate Settled(oldPath: Path)
      reads this
    {
      && journal == None && id in receipts
      && (status == Succeeded || status == RolledBack || status == Failed)
      && (status == Succeeded ==>
            link == Candidate(View()) && Holds(files, link, release.sha256) && current == release)
      && (status != Succeeded ==> link == oldPath)
    }

    /** The last report, the receipt, and the removal of job.json. */
    method Finish(j: Journal) returns (ok: bool)
      requires Valid() && journal == Some(j) && j.job == id && TerminalPhase(j.phase)
      modifies this`journal, this`receipts, this`status, this`sent, this`accepted, this`files, this`log
      ensures Valid() && old(log) <= log
      ensures ok ==> Settled(j.oldPath) && Some(status) == NextReport(j.phase)
      ensures journal == Some(j) || (journal == None && Some(status) == NextReport(j.phase))
      ensures old(Calm(j)) ==> ok
    {
      ok := Report(NextReport(j.phase).value);
      if !ok { return; }
      ok := ClearJournal(j);
    }

    method ClearJournal(j: Journal) returns (ok: bool)
      requires Valid() && journal == Some(j) && j.job == id && TerminalPhase(j.phase)
      requires NextReport(j.phase).value in accepted
      modifies this`journal, this`receipts, this`log
      ensures Valid() && old(log) <= log
      ensures ok ==> Settled(j.oldPath) && Some(status) == NextReport(j.phase)
      ensures journal == Some(j) || (journal == None && Some(status) == NextReport(j.phase))
      ensures reliable ==> ok
    {
      RunsKeepOk(start, log);
      TerminalAgrees(View());
      var stored: bool, removed: bool, clean: bool := *, *, *;
      if !reliable && !stored { return false; }
      receipts := receipts + {id};
      Record(WriteReceipt);
      if !reliable && !removed { return false; }
      journal := None;
      Record(Clear);
      return reliable || clean;
    }

    /** From the download to the verified artifact. */
    method Prepare(j: Journal) returns (next: Journal, ok: bool)
      requires Valid() && journal == Some(j) && j.job == id
      modifies this`journal, this`status, this`sent, this`accepted, this`files, this`log, this`probes
      ensures Valid() && old(log) <= log
      ensures ok ==> journal == Some(next) && next == j.(phase := next.phase)
                     && PhaseRank(next.phase) <= PhaseRank(j.phase)
                     && next.phase !in {AtDownloading, AtVerifying}
      ensures probes == old(probes)
              || (j.phase == AtDownloading && exists content :: probes == old(probes) + [Downloaded(content)])
      ensures j.phase !in {AtDownloading, AtVerifying} ==>
                ok && next == j && probes == old(probes) && files == old(files)
      ensures j.phase in {AtDownloading, AtVerifying} ==>
                journal.Some? && journal.value.phase in {AtDownloading, AtVerifying, AtInstalling, AtFailed}
      ensures !ok ==> !Won()
      ensures var held := Holds(old(files), Candidate(View()), release.sha256);
              ok && reliable ==> (next.phase == AtFailed
                                  <==> Spoiled(j.phase, release.sha256, held, old(probes), probes))
      ensures ok && reliable && next.phase == AtInstalling && j.phase in {AtDownloading, AtVerifying} ==>
                Holds(files, Candidate(View()), release.sha256)
      ensures old(Calm(j)) ==> ok && Calm(next)
    {
      next, ok := j, true;
      if next.phase == AtDownloading {
        next, ok := DownloadStage(next);
        if !ok { return; }
      }
      if next.phase == AtVerifying {
        next, ok := VerifyStage(next);
      }
    }

    /** From the installed candidate, or the journalled rollback, to a terminal phase. */
    method Conclude(j: Journal) returns (next: Journal, ok: bool)
      requires Valid() && journal == Some(j) && j.job == id && PhaseRank(j.phase) < PhaseRank(AtInstalling)
      modifies this`journal, this`link, this`current, this`status, this`sent, this`accepted, this`files, this`log,
               this`probes
      ensures Valid() && old(log) <= log && old(probes) <= probes && journal.Some?
      ensures ok ==> journal == Some(next) && next == j.(phase := next.phase) && TerminalPhase(next.phase)
      ensures journal.value.phase == AtSucceeded ==> Passed(j.phase, release.sha256, old(probes), probes)
      ensures ok && Passed(j.phase, release.sha256, old(probes), probes) ==> next.phase == AtSucceeded
      ensures ok && next.phase == AtRolledBack && j.phase in {AtLocalHealthy, AtChecking} ==>
                EndsRestored(j.oldStamp.sha256, old(probes), probes) && Refuted(release.sha256, old(probes), probes)
      ensures ok && next.phase == AtRolledBack && j.phase == AtRollingBack ==>
                EndsRestored(j.oldStamp.sha256, old(probes), probes)
      ensures TerminalPhase(j.phase) ==> ok && next == j && probes == old(probes)
      ensures ok && next.phase == AtFailed ==> j.phase == AtFailed
      ensures old(Calm(j)) ==> ok && Calm(next)
    {
      next, ok := j, true;
      if next.phase == AtRollingBack {
        next, ok := Rollback(next);
        if !ok { return; }
      }
      if next.phase == AtLocalHealthy {
        next, ok := HealthyStage(next);
        if !ok { return; }
      }
      if next.phase == AtChecking {
        next, ok := CheckStage(next);
      }
    }

    /** The second half of execute, from the installed candidate or the journalled rollback to the end. */
    method Complete(j: Journal) returns (failed: bool)
      requires Valid() && journal == Some(j) && j.job == id && PhaseRank(j.phase) < PhaseRank(AtInstalling)
      modifies this
      ensures Valid() && old(log) <= log && old(probes) <= probes
      ensures !failed ==> Settled(j.oldPath)
      ensures old(Calm(j)) ==> !failed
      ensures TerminalPhase(j.phase) ==> probes == old(probes)
      ensures Won() ==> Passed(j.phase, release.sha256, old(probes), probes)
      ensures !failed ==> (status == Succeeded <==> Passed(j.phase, release.sha256, old(probes), probes))
      ensures !failed && status == RolledBack && j.phase in {AtLocalHealthy, AtChecking} ==>
                EndsRestored(j.oldStamp.sha256, old(probes), probes) && Refuted(release.sha256, old(probes), probes)
      ensures !failed && status == RolledBack && j.phase == AtRollingBack ==>
                EndsRestored(j.oldStamp.sha256, old(probes), probes)
      ensures !failed ==> status in {Succeeded, RolledBack, Failed} && (status == Failed <==> j.phase == AtFailed)
    {
      hide Replay, Fresh, Journalled, Calm, Settled, View, Passed, EndsRestored, Refuted;
      var next, ok := Conclude(j);
      if !ok { return true; }
      ok := Finish(next);
      return !ok;
    }

    /** One call takes a journalled job as far as it can. An error leaves a state of some run; a call
        without error has settled the job, and a call in which nothing fails has no error. The answers it
        got decide how: the job succeeds exactly when its candidate passed every check that was left, it
        fails when the artifact is not the signed one, and is rolled back otherwise, after an answer
        against the candidate. The call it makes to itself after a rollback starts from a smaller phase. */
    method Execute(j0: Journal) returns (failed: bool)
      requires Valid() && journal == Some(j0) && j0.job == id
      modifies this
      ensures Valid() && old(log) <= log && old(probes) <= probes
      ensures !failed ==> Settled(j0.oldPath)
      ensures old(Calm(j0)) ==> !failed
      ensures TerminalPhase(j0.phase) ==> probes == old(probes)
      ensures Won() ==> Passed(j0.phase, release.sha256, old(probes), probes)
      ensures !failed ==> (status == Succeeded <==> Passed(j0.phase, release.sha256, old(probes), probes))
      ensures !failed && status == RolledBack && j0.phase != AtRolledBack ==>
                EndsRestored(j0.oldStamp.sha256, old(probes), probes)
      ensures var held := Holds(old(files), Candidate(View()), release.sha256);
              old(Calm(j0)) ==>
                && (status == Failed <==> Spoiled(j0.phase, release.sha256, held, old(probes), probes))
                && (status == RolledBack && j0.phase !in {AtRollingBack, AtRolledBack} ==>
                      Refuted(release.sha256, old(probes), probes) || (j0.phase == AtInstalling && !held))
      decreases PhaseRank(j0.phase)
    {
      assert Calm(j0) ==> reliable;
      hide Replay, Fresh, Journalled, Calm, Settled, Won, Holds, View, Valid, Held, PhaseOf, Candidate, Passed,
           EndsRestored, Refuted, Checked, InstallVerdict;
      var j, ok := Prepare(j0);
      if !ok { return true; }
      ghost var mid := probes;
      if j.phase == AtInstalling {
        var spoiled;
        j, ok, spoiled := Install(j);
        AnswersJoin(j0.phase, release.sha256, j0.oldStamp.sha256, old(probes), mid, probes);
        if !ok { return true; }
        if spoiled {
          failed := Execute(j);
          return;
        }
        mid := probes;
      }
      failed := Complete(j);
      AnswersJoin(j0.phase, release.sha256, j0.oldStamp.sha256, old(probes), mid, probes);
    }

    /** The poll hands the job out: it is in flight already, or queued and may start. */
    predicate HandedOut(startable: bool)
      reads this
    {
      InFlight(status) || (status == Queued && startable)
    }

    /** Nothing fails, and the Agent that is linked can be put back after an update. */
    predicate Restartable()
      reads this
    {
      reliable && link in files && (link == Candidate(View()) ==> files[link] == release.sha256)
    }

    /** tick: resume the journalled job, or poll and start the one the controller hands out. A job that has
        succeeded passed the checks in this call or had succeeded before; a job that was handed out is
        settled in the same call when nothing fails, and one with an untrusted manifest is failed. `startable`
        is what the controller's own tests of a queued job say when the poll arrives. */
    method Tick(startable: bool) returns (failed: bool)
      requires Valid() && (journal.Some? ==> journal.value.job == id)
      modifies this
      ensures Valid() && old(log) <= log && old(probes) <= probes
      ensures old(journal.Some?) && !failed ==> Settled(old(journal).value.oldPath)
      ensures old(journal.None?) && !failed ==>
        (journal == None && link == old(link)) || Settled(old(link))
      ensures old(journal.Some?) && old(Calm(journal.value)) ==> !failed
      ensures Won() && old(journal.Some?) ==>
                Passed(old(journal.value.phase), release.sha256, old(probes), probes)
      ensures Won() && old(journal.None?) ==>
                old(status) == Succeeded || Passed(AtDownloading, release.sha256, old(probes), probes)
      ensures old(journal.None? && HandedOut(startable)) && old(Restartable()) ==> !failed
      ensures old(journal.None? && HandedOut(startable)) && trusted && !failed ==> Settled(old(link))
      ensures old(journal.None? && HandedOut(startable)) && !trusted && !failed ==> status == Failed && journal == None
      ensures old(journal.None? && !HandedOut(startable)) ==> View() == old(View())
    {
      hide Replay;
      if journal.Some? {
        failed := Execute(journal.value);
        return;
      }
      var stamp := CurrentStamp(View().disk);
      if stamp.None? { return true; }
      var arrives: bool, answered: bool := *, *;
      if !reliable && !arrives { return true; }
      if status == Queued && startable {
        status := Downloading;
        Record(Start);
      }
      if !reliable && !answered { return true; }
      if !InFlight(status) { return false; }
      if !trusted {
        failed := RefuseJob(stamp.value);
        return;
      }
      var written: bool, clean: bool := *, *;
      if !reliable && !written { return true; }
      journal := Some(Journal(id, release, link, stamp.value, AtDownloading));
      Record(Receive);
      if !reliable && !clean { return true; }
      failed := Execute(journal.value);
    }

    /** The manifest does not verify: FAILED is reported and nothing is written. */
    method RefuseJob(stamp: Stamp) returns (failed: bool)
      requires Valid() && journal == None && !trusted && InFlight(status) && CurrentStamp(View().disk) == Some(stamp)
      modifies this`status, this`sent, this`accepted, this`log
      ensures Valid() && old(log) <= log && journal == None
      ensures Notice(Failed, stamp) in sent
      ensures status == Failed || status == old(status)
      ensures !failed ==> status == Failed
      ensures reliable ==> !failed
    {
      sent := sent + {Notice(Failed, stamp)};
      Record(Refuse);
      failed := Knock(Notice(Failed, stamp));
      failed := !failed;
      RunsKeepOk(start, log);
    }
  }
}
