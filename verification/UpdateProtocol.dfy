/** One update job, seen from both ends: the durable files of the machine that runs the updater,
    the status the controller stores, and the requests in between. A request may be lost, answered
    without the answer arriving, delayed, repeated or overtaken. A run is a sequence of events; an
    event that is not enabled changes nothing. A crash loses only the updater's memory, which holds
    nothing the events depend on, so every prefix of a run is also a state found after a crash. */
module UpdateProtocol {
  import opened Options
  import opened AgentUpdateContract
  import opened AgentController

  /** A file the Agent link may name: a release stored under its hash, or an installer's file. */
  datatype Path = ReleaseFile(sha256: string) | OtherFile(name: string)

  datatype Phase =
    | AtDownloading | AtVerifying | AtInstalling | AtLocalHealthy | AtChecking
    | AtRollingBack | AtRolledBack | AtSucceeded | AtFailed

  /** job.json */
  datatype Journal = Journal(job: JobId, manifest: Stamp, oldPath: Path, oldStamp: Stamp, phase: Phase)

  /** job.json, the Agent link, the executables by content hash, current.json, receipts/. */
  datatype Disk = Disk(journal: Option<Journal>, link: Path, files: map<Path, string>, current: Stamp,
                       receipts: set<JobId>)

  datatype Notice = Notice(status: JobStatus, stamp: Stamp)

  /** `trusted` says whether the signed manifest of the job verifies on this machine; `sent` holds
      every report ever sent for the job, `accepted` every status the controller ever answered 2xx. */
  datatype Local = Local(id: JobId, release: Stamp, trusted: bool, disk: Disk, status: JobStatus,
                         sent: set<Notice>, accepted: set<JobStatus>)

  /** current(): the hash the link leads to, with the recorded version when it belongs to that hash. */
  function CurrentStamp(d: Disk): Option<Stamp> {
    if d.link !in d.files then None
    else Some(Stamp(if d.current.sha256 == d.files[d.link] then d.current.version else "legacy", d.files[d.link]))
  }

  /** What a machine says it runs: the hash of the file the link leads to, whatever current.json says; and the
      recorded version, or "legacy" when the record is of another file. */
  lemma StampIs(d: Disk)
    ensures CurrentStamp(d).None? <==> d.link !in d.files
    ensures CurrentStamp(d).Some? ==>
              var stamp := CurrentStamp(d).value;
              && stamp.sha256 == d.files[d.link]
              && (stamp.sha256 == d.current.sha256 ==> stamp == d.current)
              && (stamp.sha256 != d.current.sha256 ==> stamp.version == "legacy")
  {}

  predicate Holds(files: map<Path, string>, path: Path, sha256: string) {
    path in files && files[path] == sha256
  }

  predicate Held(l: Local) {
    l.disk.journal.Some? && l.disk.journal.value.job == l.id
  }

  function PhaseOf(l: Local): Phase
    requires Held(l)
  {
    l.disk.journal.value.phase
  }

  function Candidate(l: Local): Path {
    ReleaseFile(l.release.sha256)
  }

  predicate TerminalPhase(p: Phase) {
    p.AtRolledBack? || p.AtSucceeded? || p.AtFailed?
  }

  /** The report an updater in this phase must get through before it goes on. */
  function NextReport(p: Phase): Option<JobStatus> {
    match p
    case AtDownloading => Some(Verifying)
    case AtVerifying => Some(Installing)
    case AtLocalHealthy => Some(Checking)
    case AtSucceeded => Some(Succeeded)
    case AtRolledBack => Some(RolledBack)
    case AtFailed => Some(Failed)
    case _ => None
  }

  /** The reports execute and rollback can send while the journal on disk says `p`. */
  predicate Sendable(p: Phase, s: JobStatus) {
    || NextReport(p) == Some(s)
    || (s == RollingBack
        && (p.AtInstalling? || p.AtLocalHealthy? || p.AtChecking? || p.AtRollingBack? || p.AtRolledBack?))
  }

  /** The controller's answer to a report. */
  predicate Accepts(l: Local, n: Notice) {
    && l.status != Queued
    && CanReportUpdate(l.status, n.status)
    && (n.status == Succeeded ==> n.stamp == l.release)
  }

  datatype Event =
    | Start                                    // a poll moves the queued job to DOWNLOADING
    | Drop                                     // the queued job is cancelled
    | Receive                                  // a poll's answer arrives, job.json is written
    | Refuse                                   // ... and the manifest does not verify
    | Fetch                                    // the verified artifact is renamed into releases/
    | Decay(path: Path, content: Option<string>) // a file the link does not name changes or vanishes
    | Send(to: JobStatus)
    | Deliver(notice: Notice)
    | Save(phase: Phase)
    | Relink(target: Path)
    | WriteCurrent
    | WriteReceipt
    | Clear
    | Elsewhere(disk: Disk)                    // the machine works on another job

  /** Which phase execute and rollback may write over which. */
  predicate MaySave(l: Local, to: Phase)
    requires Held(l)
  {
    var d, j := l.disk, l.disk.journal.value;
    match j.phase
    case AtDownloading => to.AtFailed? || (to.AtVerifying? && Verifying in l.accepted)
    case AtVerifying => to.AtFailed? || (to.AtInstalling? && Installing in l.accepted)
    case AtInstalling => to.AtRollingBack? ||
                         (to.AtLocalHealthy? && d.link == Candidate(l) && Holds(d.files, d.link, l.release.sha256)
                          && d.current == j.manifest)
    case AtLocalHealthy => to.AtRollingBack? || (to.AtChecking? && Checking in l.accepted)
    case AtChecking => to.AtRollingBack? || to.AtSucceeded?
    case AtRollingBack => to.AtRollingBack? || (to.AtRolledBack? && d.link == j.oldPath && d.current == j.oldStamp
                                                && Holds(d.files, j.oldPath, j.oldStamp.sha256))
    case _ => to == j.phase
  }

  predicate Enabled(l: Local, e: Event) {
    match e
    case Start | Drop => l.status == Queued
    case Receive => l.disk.journal.None? && l.trusted && InFlight(l.status) && CurrentStamp(l.disk).Some?
    case Refuse => l.disk.journal.None? && !l.trusted && InFlight(l.status) && CurrentStamp(l.disk).Some?
    case Fetch => Held(l) && PhaseOf(l) == AtDownloading
    case Decay(path, _) => path != l.disk.link
    case Send(to) => Held(l) && Sendable(PhaseOf(l), to) && CurrentStamp(l.disk).Some?
    case Deliver(n) => n in l.sent
    case Save(to) => Held(l) && MaySave(l, to)
    case Relink(target) => Held(l) && (
        || (PhaseOf(l) == AtInstalling && target == Candidate(l) && Holds(l.disk.files, target, l.release.sha256))
        || (PhaseOf(l) == AtRollingBack && target == l.disk.journal.value.oldPath
            && Holds(l.disk.files, target, l.disk.journal.value.oldStamp.sha256)))
    case WriteCurrent => Held(l) && (
        || (PhaseOf(l) == AtInstalling && l.disk.link == Candidate(l))
        || (PhaseOf(l) == AtRollingBack && l.disk.link == l.disk.journal.value.oldPath
            && Holds(l.disk.files, l.disk.link, l.disk.journal.value.oldStamp.sha256)))
    case WriteReceipt => Held(l) && TerminalPhase(PhaseOf(l)) && NextReport(PhaseOf(l)).value in l.accepted
    case Clear => Held(l) && TerminalPhase(PhaseOf(l)) && l.id in l.disk.receipts
    case Elsewhere(disk) => !Held(l) && !Held(l.(disk := disk)) && (l.id in disk.receipts ==> l.id in l.disk.receipts)
  }

  function Effect(l: Local, e: Event): Local
    requires Enabled(l, e)
  {
    var d := l.disk;
    match e
    case Start => l.(status := Downloading)
    case Drop => l.(status := Canceled)
    case Receive =>
      l.(disk := d.(journal := Some(Journal(l.id, l.release, d.link, CurrentStamp(d).value, AtDownloading))))
    case Refuse => l.(sent := l.sent + {Notice(Failed, CurrentStamp(d).value)})
    case Fetch => l.(disk := d.(files := d.files[Candidate(l) := l.release.sha256]))
    case Decay(path, content) =>
      l.(disk := d.(files := if content.Some? then d.files[path := content.value] else d.files - {path}))
    case Send(to) => l.(sent := l.sent + {Notice(to, CurrentStamp(d).value)})
    case Deliver(n) =>
      if !Accepts(l, n) then l
      else l.(status := if Terminal(l.status) then l.status else n.status, accepted := l.accepted + {n.status})
    case Save(to) => l.(disk := d.(journal := Some(d.journal.value.(phase := to))))
    case Relink(target) => l.(disk := d.(link := target))
    case WriteCurrent =>
      var stamp := if PhaseOf(l) == AtInstalling then d.journal.value.manifest else d.journal.value.oldStamp;
      l.(disk := d.(current := stamp))
    case WriteReceipt => l.(disk := d.(receipts := d.receipts + {l.id}))
    case Clear => l.(disk := d.(journal := None))
    case Elsewhere(disk) => l.(disk := disk)
  }

  function Next(l: Local, e: Event): Local {
    if Enabled(l, e) then Effect(l, e) else l
  }

  function Replay(l: Local, events: seq<Event>): Local {
    if events == [] then l else Next(Replay(l, events[..|events|-1]), events[|events|-1])
  }

  // ----- the relation between the two machines

  /** Which statuses the controller can show while the journal says `p`. */
  predicate InStep(p: Phase, s: JobStatus) {
    match p
    case AtDownloading => s == Downloading || s == Verifying
    case AtVerifying => s == Verifying || s == Installing
    case AtInstalling => s == Installing
    case AtLocalHealthy => s == Installing || s == Checking
    case AtChecking => s == Checking
    case AtRollingBack => s == Installing || s == Checking || s == RollingBack
    case AtRolledBack => s == Installing || s == Checking || s == RollingBack || s == RolledBack
    case AtSucceeded => s == Checking || s == Succeeded
    case AtFailed => s == Downloading || s == Verifying || s == Installing || s == Failed
  }

  /** The phases in which a rollback has not been journalled. */
  predicate Forward(p: Phase) {
    p.AtInstalling? || p.AtLocalHealthy? || p.AtChecking? || p.AtSucceeded?
  }

  /** The controller has been told of a rollback that the journal does not know of. */
  predicate Torn(p: Phase, s: JobStatus) {
    s == RollingBack && Forward(p)
  }

  /** Every report that can be under way while the journal says `p`. */
  predicate MayBeUnderWay(p: Phase, s: JobStatus) {
    match s
    case Verifying => true
    case Installing => !p.AtDownloading?
    case Checking => p.AtLocalHealthy? || p.AtChecking? || p.AtSucceeded? || p.AtRollingBack? || p.AtRolledBack?
    case RollingBack => Forward(p) || p.AtRollingBack? || p.AtRolledBack?
    case Succeeded => p.AtSucceeded?
    case RolledBack => p.AtRolledBack?
    case Failed => p.AtFailed?
    case _ => false
  }

  /** The link, the files and current.json agree with the journal. */
  predicate LinkAgrees(l: Local)
    requires Held(l)
  {
    var d, j := l.disk, l.disk.journal.value;
    match j.phase
    case AtDownloading | AtVerifying | AtFailed | AtRolledBack => d.link == j.oldPath
    case AtInstalling | AtRollingBack => d.link == j.oldPath || d.link == Candidate(l)
    case AtLocalHealthy | AtChecking | AtSucceeded =>
      d.link == Candidate(l) && Holds(d.files, d.link, l.release.sha256) && d.current == l.release
  }

  predicate HistoryOk(l: Local) {
    && (forall s :: s in l.accepted ==> Rank(s) <= Rank(l.status) && (Terminal(s) ==> l.status == s))
    && (l.id in l.disk.receipts ==> Terminal(l.status))
  }

  predicate HeldOk(l: Local)
    requires Held(l)
  {
    var p := PhaseOf(l);
    && l.trusted && l.disk.journal.value.manifest == l.release
    && (InStep(p, l.status) || Torn(p, l.status))
    && (forall n :: n in l.sent ==> MayBeUnderWay(p, n.status) && (n.status == Succeeded ==> n.stamp == l.release))
    && LinkAgrees(l)
  }

  predicate UnheldOk(l: Local) {
    || ((l.status == Queued || l.status == Canceled) && l.sent == {})
    || (l.status == Downloading && (l.trusted ==> l.sent == {}) && forall n :: n in l.sent ==> n.status == Failed)
    || l.status == Succeeded || l.status == RolledBack || l.status == Failed
  }

  predicate Ok(l: Local) {
    HistoryOk(l) && (if Held(l) then HeldOk(l) else UnheldOk(l))
  }

  /** No unjournalled rollback has been reported or is known to the controller. */
  predicate Journalled(l: Local) {
    Held(l) && Forward(PhaseOf(l)) ==> l.status != RollingBack && forall n :: n in l.sent ==> n.status != RollingBack
  }

  /** The fault: rollback() could not write its intent, yet its best-effort report is sent. */
  predicate UnjournalledNotice(l: Local, e: Event) {
    Enabled(l, e) && e == Send(RollingBack) && Forward(PhaseOf(l))
  }

  predicate RunJournalled(l: Local, events: seq<Event>) {
    events == [] ||
    (RunJournalled(l, events[..|events|-1])
     && !UnjournalledNotice(Replay(l, events[..|events|-1]), events[|events|-1]))
  }

  /** Deliveries, however late or repeated, keep the relation. */
  lemma DeliverKeeps(l: Local, n: Notice)
    requires Ok(l) && n in l.sent
    ensures Ok(Next(l, Deliver(n)))
  {
    var m := Next(l, Deliver(n));
    if Accepts(l, n) {
      assert HistoryOk(m);
      if Held(l) { assert MayBeUnderWay(PhaseOf(l), n.status); }
    }
  }

  lemma SaveKeeps(l: Local, to: Phase)
    requires Ok(l) && Enabled(l, Save(to))
    ensures Ok(Next(l, Save(to)))
  {}

  lemma NextKeeps(l: Local, e: Event)
    requires Ok(l)
    ensures Ok(Next(l, e))
  {
    if Enabled(l, e) {
      match e
      case Deliver(n) => DeliverKeeps(l, n);
      case Save(to) => SaveKeeps(l, to);
      case _ =>
    }
  }

  lemma NextKeepsJournalled(l: Local, e: Event)
    requires Ok(l) && Journalled(l) && !UnjournalledNotice(l, e)
    ensures Journalled(Next(l, e))
  {}

  lemma {:induction false} RunsKeepOk(l: Local, events: seq<Event>)
    requires Ok(l)
    ensures Ok(Replay(l, events))
  {
    if events != [] {
      RunsKeepOk(l, events[..|events|-1]);
      NextKeeps(Replay(l, events[..|events|-1]), events[|events|-1]);
    }
  }

  lemma {:induction false} RunsKeepJournalled(l: Local, events: seq<Event>)
    requires Ok(l) && Journalled(l) && RunJournalled(l, events)
    ensures Journalled(Replay(l, events))
  {
    if events != [] {
      RunsKeepJournalled(l, events[..|events|-1]);
      RunsKeepOk(l, events[..|events|-1]);
      NextKeepsJournalled(Replay(l, events[..|events|-1]), events[|events|-1]);
    }
  }

  /** A job that has just been created. */
  predicate Fresh(l: Local) {
    l.status == Queued && l.sent == {} && l.accepted == {} && !Held(l) && l.id !in l.disk.receipts
  }

  /** In every reachable state, across a crash at any point, the controller refuses the report the
      updater has to make exactly when a rollback was announced that the journal does not know of. */
  lemma ReportRefusedIffTorn(l: Local, events: seq<Event>)
    requires Fresh(l)
    ensures var m := Replay(l, events);
            Held(m) && NextReport(PhaseOf(m)).Some? && CurrentStamp(m.disk).Some? ==>
              (Accepts(m, Notice(NextReport(PhaseOf(m)).value, CurrentStamp(m.disk).value))
               <==> !Torn(PhaseOf(m), m.status))
  {
    RunsKeepOk(l, events);
  }

  /** While every announced rollback is journalled first, the two machines stay in step: the status
      is one of those InStep allows, and no report the updater has to make is ever refused. */
  lemma JournalledRunsStayInStep(l: Local, events: seq<Event>)
    requires Fresh(l) && RunJournalled(l, events)
    ensures var m := Replay(l, events); Held(m) ==> InStep(PhaseOf(m), m.status)
    ensures var m := Replay(l, events);
            Held(m) && NextReport(PhaseOf(m)).Some? && CurrentStamp(m.disk).Some? ==>
              Accepts(m, Notice(NextReport(PhaseOf(m)).value, CurrentStamp(m.disk).value))
  {
    RunsKeepOk(l, events);
    RunsKeepJournalled(l, events);
  }

  /** The report the updater has to make is accepted in every state that is not torn. */
  lemma NextReportAccepted(l: Local, n: Notice)
    requires Ok(l) && Held(l) && !Torn(PhaseOf(l), l.status) && CurrentStamp(l.disk) == Some(n.stamp)
    requires NextReport(PhaseOf(l)) == Some(n.status)
    ensures Accepts(l, n)
  {}

  /** Once the terminal report is accepted the controller shows it, and the link is where it belongs. */
  lemma TerminalAgrees(l: Local)
    requires Ok(l) && Held(l) && TerminalPhase(PhaseOf(l)) && NextReport(PhaseOf(l)).value in l.accepted
    ensures Some(l.status) == NextReport(PhaseOf(l))
    ensures PhaseOf(l) == AtSucceeded ==>
      l.disk.link == Candidate(l) && Holds(l.disk.files, l.disk.link, l.release.sha256) && l.disk.current == l.release
    ensures PhaseOf(l) != AtSucceeded ==> l.disk.link == l.disk.journal.value.oldPath
  {}

  /** In every reachable state the Agent link agrees with the journal. */
  lemma LinkAgreesWithJournal(l: Local, events: seq<Event>)
    requires Fresh(l)
    ensures var m := Replay(l, events); Held(m) ==> LinkAgrees(m)
  {
    RunsKeepOk(l, events);
  }

  /** A torn job whose journal says SUCCEEDED never leaves that state, whatever follows. */
  lemma {:induction false} TornSuccessIsForever(l: Local, events: seq<Event>)
    requires Ok(l) && Held(l) && PhaseOf(l) == AtSucceeded && l.status == RollingBack
    ensures var m := Replay(l, events); Held(m) && PhaseOf(m) == AtSucceeded && m.status == RollingBack
  {
    if events != [] {
      var init := events[..|events|-1];
      TornSuccessIsForever(l, init);
      RunsKeepOk(l, init);
      var m := Replay(l, init);
      assert Succeeded !in m.accepted;
    }
  }

  /** Once a rollback is announced without being journalled and the report arrives, the job is torn. */
  lemma UnjournalledNoticeTears(l: Local)
    requires Ok(l) && Held(l) && Journalled(l) && CurrentStamp(l.disk).Some?
    requires UnjournalledNotice(l, Send(RollingBack))
    ensures var m := Replay(l, [Send(RollingBack), Deliver(Notice(RollingBack, CurrentStamp(l.disk).value))]);
            Held(m) && Torn(PhaseOf(m), m.status)
  {
    var n := Notice(RollingBack, CurrentStamp(l.disk).value);
    var _ := Then(l, [Send(RollingBack)], Deliver(n));
    var _ := Then(l, [], Send(RollingBack));
  }

  // ----- runs that happen

  /** The events of a machine that concern the files and the job it holds. */
  predicate MachineEvent(e: Event) {
    e.Fetch? || e.Decay? || e.Send? || e.Save? || e.Relink? || e.WriteCurrent? || e.WriteReceipt? || e.Clear?
  }

  /** A run in which the machine works on the job it holds, and its reports arrive. */
  predicate OwnRun(l: Local, run: seq<Event>) {
    run == [] ||
    (OwnRun(l, run[..|run|-1]) && Held(Replay(l, run[..|run|-1]))
     && (MachineEvent(run[|run|-1]) || run[|run|-1].Deliver?))
  }

  /** No rollback is announced, and no file comes or goes by itself. */
  predicate Plain(run: seq<Event>) {
    forall k :: 0 <= k < |run| ==> run[k] != Send(RollingBack) && !run[k].Decay?
  }

  lemma Then(l: Local, events: seq<Event>, e: Event) returns (longer: seq<Event>)
    ensures longer == events + [e] && Replay(l, longer) == Next(Replay(l, events), e)
    ensures OwnRun(l, events) && Held(Replay(l, events)) && (MachineEvent(e) || e.Deliver?) ==> OwnRun(l, longer)
    ensures Plain(events) && e != Send(RollingBack) && !e.Decay? ==> Plain(longer)
  {
    longer := events + [e];
    assert longer[..|longer|-1] == events;
  }

  lemma {:induction false} ReplayJoins(l: Local, a: seq<Event>, b: seq<Event>)
    ensures Replay(l, a + b) == Replay(Replay(l, a), b)
    ensures RunJournalled(l, a) && RunJournalled(Replay(l, a), b) ==> RunJournalled(l, a + b)
    ensures OwnRun(l, a) && OwnRun(Replay(l, a), b) ==> OwnRun(l, a + b)
  {
    if b == [] {
      assert a + b == a;
    } else {
      ReplayJoins(l, a, b[..|b|-1]);
      assert (a + b)[..|a + b|-1] == a + b[..|b|-1];
    }
  }

  /** One exchange without loss: the report is sent, accepted, and the next phase is journalled. */
  lemma Exchange(l: Local, events: seq<Event>, s: JobStatus, to: Phase) returns (longer: seq<Event>)
    requires OwnRun(l, events) && Plain(events)
    requires var m := Replay(l, events);
      && Held(m) && CurrentStamp(m.disk).Some? && NextReport(PhaseOf(m)) == Some(s)
      && !Terminal(m.status) && Accepts(m, Notice(s, CurrentStamp(m.disk).value))
      && (PhaseOf(m), to) in {(AtDownloading, AtVerifying), (AtVerifying, AtInstalling), (AtLocalHealthy, AtChecking)}
    ensures OwnRun(l, longer) && Plain(longer)
    ensures var m, n := Replay(l, events), Replay(l, longer);
      && n.disk == m.disk.(journal := Some(m.disk.journal.value.(phase := to))) && n.status == s
      && n.id == m.id && n.release == m.release && n.trusted == m.trusted
  {
    var m := Replay(l, events);
    longer := Then(l, events, Send(s));
    longer := Then(l, longer, Deliver(Notice(s, CurrentStamp(m.disk).value)));
    longer := Then(l, longer, Save(to));
  }

  /** The job as a machine takes it up. */
  predicate TakenUp(l: Local) {
    Held(l) && PhaseOf(l) == AtDownloading && l.status == Downloading
    && l.disk.journal.value.manifest == l.release && CurrentStamp(l.disk).Some?
  }

  lemma TakeUpHappens(l: Local) returns (run: seq<Event>)
    requires Fresh(l) && l.trusted && l.disk.journal.None? && CurrentStamp(l.disk).Some?
    ensures run == [Start, Receive] && TakenUp(Replay(l, run))
  {
    run := Then(l, [], Start);
    run := Then(l, run, Receive);
  }

  lemma FetchHappens(l: Local) returns (run: seq<Event>)
    requires TakenUp(l)
    ensures OwnRun(l, run) && Plain(run)
    ensures var m := Replay(l, run);
      && Held(m) && PhaseOf(m) == AtInstalling && m.status == Installing && m.release == l.release
      && Holds(m.disk.files, Candidate(m), m.release.sha256) && m.disk.journal.value.manifest == m.release
      && CurrentStamp(m.disk).Some?
  {
    run := Then(l, [], Fetch);
    run := Exchange(l, run, Verifying, AtVerifying);
    run := Exchange(l, run, Installing, AtInstalling);
  }

  /** A run without any fault up to the final health check. */
  lemma InstallHappens(l: Local) returns (run: seq<Event>)
    requires TakenUp(l)
    ensures OwnRun(l, run) && Plain(run)
    ensures var m := Replay(l, run);
      Held(m) && PhaseOf(m) == AtChecking && m.status == Checking && CurrentStamp(m.disk).Some?
  {
    run := FetchHappens(l);
    run := Then(l, run, Relink(Candidate(l)));
    run := Then(l, run, WriteCurrent);
    run := Then(l, run, Save(AtLocalHealthy));
    run := Exchange(l, run, Checking, AtChecking);
  }

  lemma TearHappens(l: Local) returns (run: seq<Event>)
    requires TakenUp(l)
    ensures OwnRun(l, run)
    ensures var m := Replay(l, run); Held(m) && PhaseOf(m) == AtSucceeded && m.status == RollingBack
  {
    run := InstallHappens(l);
    run := TearStep(l, run);
    run := Then(l, run, Save(AtSucceeded));
  }

  /** The controller is told of a rollback that the journal does not know of. */
  lemma TearStep(l: Local, events: seq<Event>) returns (longer: seq<Event>)
    requires OwnRun(l, events)
    requires var m := Replay(l, events);
      && Held(m) && (PhaseOf(m) == AtInstalling || PhaseOf(m) == AtChecking) && CurrentStamp(m.disk).Some?
      && (m.status == Installing || m.status == Checking)
    ensures OwnRun(l, longer)
    ensures var m, n := Replay(l, events), Replay(l, longer);
      && n.disk == m.disk && n.status == RollingBack && n.id == m.id && n.release == m.release
      && n.accepted == m.accepted + {RollingBack}
  {
    var m := Replay(l, events);
    longer := Then(l, events, Send(RollingBack));
    longer := Then(l, longer, Deliver(Notice(RollingBack, CurrentStamp(m.disk).value)));
  }

  /** The fault is enough: from every new job on an idle machine, one run in which both writes of the
      rollback intent fail ends with a local success that the controller refuses for ever. */
  lemma TornSuccessHappens(l: Local) returns (run: seq<Event>)
    requires Fresh(l) && l.trusted && l.disk.journal.None? && CurrentStamp(l.disk).Some?
    ensures var m := Replay(l, run); Held(m) && PhaseOf(m) == AtSucceeded && m.status == RollingBack
  {
    var first := TakeUpHappens(l);
    var rest := TearHappens(Replay(l, first));
    ReplayJoins(l, first, rest);
    run := first + rest;
  }

  // ----- progress on the machine

  function PhaseRank(p: Phase): nat {
    match p
    case AtDownloading => 6
    case AtVerifying => 5
    case AtInstalling => 4
    case AtLocalHealthy => 3
    case AtChecking => 2
    case AtRollingBack => 1
    case _ => 0
  }

  predicate Over(l: Local) {
    !Held(l) && (l.status == Succeeded || l.status == RolledBack || l.status == Failed)
  }

  lemma StepNeverGoesBack(l: Local, e: Event)
    requires Ok(l) && Enabled(l, e)
    ensures Over(l) ==> Over(Next(l, e))
    ensures Held(l) ==> var m := Next(l, e);
      if Held(m) then PhaseOf(m) == PhaseOf(l) || PhaseRank(PhaseOf(m)) < PhaseRank(PhaseOf(l)) else Over(m)
  {
    if e.Save? { SaveKeeps(l, e.phase); }
    if e.Deliver? { DeliverKeeps(l, e.notice); }
  }

  /** The journal of a job only moves towards a terminal phase, and once it is cleared the job is
      over: the machine never takes it up again. */
  lemma {:induction false} JournalNeverGoesBack(l: Local, events: seq<Event>)
    requires Ok(l) && Held(l)
    ensures var m := Replay(l, events);
            if Held(m) then PhaseOf(m) == PhaseOf(l) || PhaseRank(PhaseOf(m)) < PhaseRank(PhaseOf(l)) else Over(m)
  {
    if events != [] {
      var init, e := events[..|events|-1], events[|events|-1];
      JournalNeverGoesBack(l, init);
      RunsKeepOk(l, init);
      if Enabled(Replay(l, init), e) { StepNeverGoesBack(Replay(l, init), e); }
    }
  }
}
