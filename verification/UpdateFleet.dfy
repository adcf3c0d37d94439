/** The whole system: the controller's rollouts, every machine's disk, and all reports under way. Each
    job of it, looked at alone, goes through a run of UpdateProtocol, so what holds of those runs holds
    of every job of every fleet; the controller's own invariants hold beside it. */
module UpdateFleet {
  import opened Options
  import opened AgentUpdateContract
  import opened AgentController
  import opened UpdateProtocol

  datatype Mail = Mail(from: InstallationId, job: JobId, notice: Notice)

  datatype System = System(
    fleet: Fleet,
    releases: map<string, Stamp>,
    trusts: set<(InstallationId, string)>,       // which machine verifies which release's manifest
    disks: map<InstallationId, Disk>,
    mail: set<Mail>,
    accepted: set<(JobId, JobStatus)>)

  datatype Happening =
    | Created(key: string, releaseId: string, targets: seq<InstallationId>, actor: string, eligible: bool)
    | Cancelled(key: string)
    | Polled(id: JobId, answered: bool)          // by the installation whose active job `id` is
    | OnMachine(machine: InstallationId, event: Event)
    | Arrived(mail: Mail)

  function SentFor(mail: set<Mail>, id: JobId): set<Notice> {
    set m | m in mail && m.job == id :: m.notice
  }

  function AcceptedFor(accepted: set<(JobId, JobStatus)>, id: JobId): set<JobStatus> {
    set a | a in accepted && a.0 == id :: a.1
  }

  /** One job, as UpdateProtocol sees it. */
  function View(s: System, id: JobId): Local
    requires Known(s, id)
  {
    var job, rollout := JobAt(s.fleet, id), s.fleet[id.rollout];
    Local(id, s.releases[rollout.releaseId], (job.installation, rollout.releaseId) in s.trusts,
          s.disks[job.installation], job.status, SentFor(s.mail, id), AcceptedFor(s.accepted, id))
  }

  predicate Known(s: System, id: JobId) {
    && Exists(s.fleet, id)
    && s.fleet[id.rollout].releaseId in s.releases
    && JobAt(s.fleet, id).installation in s.disks
  }

  /** Puts what happened on the job's machine back into the system. */
  function PutBack(s: System, id: JobId, l: Local): System
    requires Known(s, id)
  {
    var machine := JobAt(s.fleet, id).installation;
    s.(disks := s.disks[machine := l.disk],
       mail := s.mail + set n | n in l.sent :: Mail(machine, id, n))
  }

  /** `eligible` stands for the checks of heartbeat, architecture and server. */
  function CreationBar(s: System, releaseId: string, targets: seq<InstallationId>, eligible: bool): Option<Refusal> {
    if releaseId !in s.releases then Some(NotFound)
    else if !eligible || exists t :: t in targets && t !in s.disks then Some(BadRequest)
    else None
  }

  function Happen(s: System, h: Happening): System {
    match h
    case Created(key, releaseId, targets, actor, eligible) =>
      var a := Create(s.fleet, key, releaseId, targets, actor, CreationBar(s, releaseId, targets, eligible));
      if a.Done? then s.(fleet := a.value) else s
    case Cancelled(key) =>
      var a := Cancel(s.fleet, key);
      if a.Done? then s.(fleet := a.value) else s
    case Polled(id, answered) =>
      if !Known(s, id) || !JobAt(s.fleet, id).active || s.disks[JobAt(s.fleet, id).installation].journal.Some? then s
      else
        var (f, handed) := PollJob(s.fleet, id);
        var t := s.(fleet := f);
        if answered && handed.Some? && Known(t, id)
        then PutBack(t, id, Next(View(t, id), if View(t, id).trusted then Receive else Refuse)) else t
    case OnMachine(machine, e) =>
      if machine !in s.disks || !MachineEvent(e) then s
      else if s.disks[machine].journal.Some? then
        var id := s.disks[machine].journal.value.job;
        if Known(s, id) && JobAt(s.fleet, id).installation == machine
        then PutBack(s, id, Next(View(s, id), e)) else s
      else if e.Decay? && e.path != s.disks[machine].link then
        s.(disks := s.disks[machine := s.disks[machine].(files :=
          if e.content.Some? then s.disks[machine].files[e.path := e.content.value]
          else s.disks[machine].files - {e.path})])
      else s
    case Arrived(m) =>
      if m !in s.mail || !Known(s, m.job) then s
      else
        var a := Report(s.fleet, m.from, m.job, m.notice.status, m.notice.stamp,
                        s.releases[s.fleet[m.job.rollout].releaseId]);
        if a.Done? then s.(fleet := a.value, accepted := s.accepted + {(m.job, m.notice.status)}) else s
  }

  function History(s: System, hs: seq<Happening>): System {
    if hs == [] then s else Happen(History(s, hs[..|hs|-1]), hs[|hs|-1])
  }

  /** References between the parts of the system lead somewhere. */
  ghost predicate WellLinked(s: System) {
    && (forall id :: Exists(s.fleet, id) ==> Known(s, id))
    && (forall m :: m in s.mail ==> Exists(s.fleet, m.job) && JobAt(s.fleet, m.job).installation == m.from)
    && (forall a :: a in s.accepted ==> Exists(s.fleet, a.0))
    && (forall machine :: machine in s.disks && s.disks[machine].journal.Some? ==>
          var id := s.disks[machine].journal.value.job;
          Exists(s.fleet, id) && JobAt(s.fleet, id).installation == machine)
    && (forall machine, id :: machine in s.disks && id in s.disks[machine].receipts ==> Exists(s.fleet, id))
  }

  /** A controller without rollouts, and machines that are idle. */
  predicate Initial(s: System) {
    && s.fleet == map[] && s.mail == {} && s.accepted == {}
    && forall machine :: machine in s.disks ==> s.disks[machine].journal == None && s.disks[machine].receipts == {}
  }

  // ----- what each happening is for one job

  /** The protocol events that happening `h` is for job `id`. */
  function Share(s: System, h: Happening, id: JobId): seq<Event>
    requires Known(s, id)
  {
    var l := View(s, id);
    match h
    case Created(_, _, _, _, _) => []
    case Cancelled(key) => if key == id.rollout && l.status == Queued && Cancel(s.fleet, key).Done? then [Drop] else []
    case Polled(polled, answered) =>
      if Happen(s, h) == s then []
      else if polled == id then
        (if l.status == Queued then [Start] else [])
        + (if answered && PollJob(s.fleet, id).1.Some? then [if l.trusted then Receive else Refuse] else [])
      else if JobAt(s.fleet, polled).installation == JobAt(s.fleet, id).installation
      then [Elsewhere(Happen(s, h).disks[JobAt(s.fleet, id).installation])] else []
    case OnMachine(machine, e) =>
      if machine != JobAt(s.fleet, id).installation || Happen(s, h) == s then []
      else if Held(l) then [e]
      else [Elsewhere(Happen(s, h).disks[machine])]
    case Arrived(m) =>
      if Happen(s, h) == s then []
      else if m.job == id then [Deliver(m.notice)]
      else if m.job.rollout == id.rollout && l.status == Queued
              && (m.notice.status == Failed || m.notice.status == RolledBack)
              && !Terminal(JobAt(s.fleet, m.job).status) then [Drop]
      else []
  }

  lemma OneStep(l: Local, e: Event)
    ensures Replay(l, [e]) == Next(l, e)
  {
    assert [e][..0] == [];
  }

  lemma TwoSteps(l: Local, d: Event, e: Event)
    ensures Replay(l, [d, e]) == Next(Next(l, d), e)
  {
    assert [d, e][..1] == [d];
    OneStep(l, d);
  }

  lemma SentAfter(mail: set<Mail>, machine: InstallationId, id: JobId, sent: set<Notice>, other: JobId)
    requires SentFor(mail, id) <= sent
    ensures SentFor(mail + set n | n in sent :: Mail(machine, id, n), other)
            == if other == id then sent else SentFor(mail, other)
  {
    var more := mail + set n | n in sent :: Mail(machine, id, n);
    forall n | n in (if other == id then sent else SentFor(mail, other)) ensures n in SentFor(more, other) {
      if other == id { assert Mail(machine, id, n) in more; }
      else { var m :| m in mail && m.job == other && m.notice == n; assert m in more; }
    }
    forall n | n in SentFor(more, other) ensures n in (if other == id then sent else SentFor(mail, other)) {
      var m :| m in more && m.job == other && m.notice == n;
    }
  }

  lemma SentGrows(l: Local, e: Event)
    ensures l.sent <= Next(l, e).sent && Next(l, e).id == l.id
    ensures MachineEvent(e) || e.Receive? || e.Refuse? ==>
      Next(l, e).status == l.status && Next(l, e).accepted == l.accepted
  {}

  /** What a machine's event is for the job it holds and for the other jobs. */
  lemma PutBackView(s: System, id: JobId, e: Event, other: JobId)
    requires Known(s, id) && Known(s, other) && (MachineEvent(e) || e.Receive? || e.Refuse?)
    ensures var t := PutBack(s, id, Next(View(s, id), e));
      && Known(t, other)
      && View(t, other) ==
           if other == id then Next(View(s, id), e)
           else if JobAt(s.fleet, other).installation == JobAt(s.fleet, id).installation
           then View(s, other).(disk := Next(View(s, id), e).disk)
           else View(s, other)
  {
    var l := Next(View(s, id), e);
    SentGrows(View(s, id), e);
    SentAfter(s.mail, JobAt(s.fleet, id).installation, id, l.sent, other);
  }

  lemma ShareOfCancelled(s: System, key: string, id: JobId)
    requires Known(s, id)
    ensures var t := Happen(s, Cancelled(key));
      Known(t, id) && View(t, id) == Replay(View(s, id), Share(s, Cancelled(key), id))
  {
    OneStep(View(s, id), Drop);
  }

  lemma ShareOfMachine(s: System, machine: InstallationId, e: Event, id: JobId)
    requires WellLinked(s) && Exists(s.fleet, id)
    ensures var t := Happen(s, OnMachine(machine, e));
      Known(t, id) && View(t, id) == Replay(View(s, id), Share(s, OnMachine(machine, e), id))
  {
    var t, l := Happen(s, OnMachine(machine, e)), View(s, id);
    if t == s || machine != JobAt(s.fleet, id).installation {
      if t != s && s.disks[machine].journal.Some? { PutBackView(s, s.disks[machine].journal.value.job, e, id); }
    } else if s.disks[machine].journal.Some? {
      var held := s.disks[machine].journal.value.job;
      PutBackView(s, held, e, id);
      if held == id {
        OneStep(l, e);
      } else {
        OneStep(l, Elsewhere(t.disks[machine]));
        MachineEventFrame(View(s, held), e);
      }
    } else {
      OneStep(l, Elsewhere(t.disks[machine]));
    }
  }

  lemma MachineEventFrame(l: Local, e: Event)
    requires MachineEvent(e) || e.Receive? || e.Refuse?
    ensures var d := Next(l, e).disk;
      && (d.journal.Some? ==> d.journal.value.job == l.id || d.journal == l.disk.journal)
      && d.receipts <= l.disk.receipts + {l.id}
  {}

  /** The controller's half of a poll. */
  lemma PollView(s: System, polled: JobId, id: JobId)
    requires Known(s, polled) && Known(s, id)
    ensures var t := s.(fleet := PollJob(s.fleet, polled).0);
      && Known(t, id) && JobAt(t.fleet, id).installation == JobAt(s.fleet, id).installation
      && View(t, id) == if id == polled && PollJob(s.fleet, polled).1.Some?
           then Replay(View(s, id), if View(s, id).status == Queued then [Start] else [])
                        else View(s, id)
  {
    OneStep(View(s, id), Start);
  }

  /** The same jobs of the same releases on the same installations. */
  ghost predicate SameJobs(f: Fleet, g: Fleet) {
    && (forall id :: Exists(f, id) <==> Exists(g, id))
    && forall id | Exists(f, id) ::
         f[id.rollout].releaseId == g[id.rollout].releaseId && JobAt(f, id).installation == JobAt(g, id).installation
  }

  lemma ReportKeepsJobs(f: Fleet, m: Mail, release: Stamp)
    ensures var a := Report(f, m.from, m.job, m.notice.status, m.notice.stamp, release);
      a.Done? ==> SameJobs(a.value, f)
  {}

  lemma CancelKeepsJobs(f: Fleet, key: string)
    ensures Cancel(f, key).Done? ==> SameJobs(Cancel(f, key).value, f)
  {}

  /** Replacing the controller's records by ones with the same jobs. */
  lemma SameJobsKeepLinks(s: System, f: Fleet, accepted: set<(JobId, JobStatus)>)
    requires WellLinked(s) && SameJobs(f, s.fleet)
    requires forall a :: a in accepted ==> Exists(f, a.0)
    ensures WellLinked(s.(fleet := f, accepted := accepted))
  {}

  lemma PollKeepsLinks(s: System, id: JobId)
    requires WellLinked(s) && Exists(s.fleet, id)
    ensures WellLinked(s.(fleet := PollJob(s.fleet, id).0))
  {
    SameJobsKeepLinks(s, PollJob(s.fleet, id).0, s.accepted);
  }

  /** The machine's half of a poll, after the controller's half made `mid` of the system. */
  lemma AnswerView(mid: System, polled: JobId, id: JobId)
    requires WellLinked(mid) && Known(mid, polled) && Known(mid, id) && polled != id
    requires mid.disks[JobAt(mid.fleet, polled).installation].journal.None?
    ensures var e := if View(mid, polled).trusted then Receive else Refuse;
      var t := PutBack(mid, polled, Next(View(mid, polled), e));
      && Known(t, id)
      && View(t, id) == if JobAt(mid.fleet, polled).installation == JobAt(mid.fleet, id).installation
                        then Next(View(mid, id), Elsewhere(t.disks[JobAt(mid.fleet, id).installation]))
                        else View(mid, id)
  {
    var e := if View(mid, polled).trusted then Receive else Refuse;
    PutBackView(mid, polled, e, id);
    MachineEventFrame(View(mid, polled), e);
  }

  lemma ShareOfOwnPoll(s: System, id: JobId, answered: bool)
    requires Known(s, id) && Happen(s, Polled(id, answered)) != s
    ensures var t := Happen(s, Polled(id, answered));
      Known(t, id) && View(t, id) == Replay(View(s, id), Share(s, Polled(id, answered), id))
  {
    var mid := s.(fleet := PollJob(s.fleet, id).0);
    PollView(s, id, id);
    if answered && PollJob(s.fleet, id).1.Some? {
      var e := if View(mid, id).trusted then Receive else Refuse;
      PutBackView(mid, id, e, id);
      AnsweredPoll(View(s, id), e);
    }
  }

  lemma ShareOfPolled(s: System, polled: JobId, answered: bool, id: JobId)
    requires WellLinked(s) && Exists(s.fleet, id)
    ensures var h := Polled(polled, answered); var t := Happen(s, h);
      Known(t, id) && View(t, id) == Replay(View(s, id), Share(s, h, id))
  {
    var t := Happen(s, Polled(polled, answered));
    if t != s && polled == id {
      ShareOfOwnPoll(s, id, answered);
    } else if t != s {
      hide Replay;
      PollView(s, polled, id);
      PollView(s, polled, polled);
      PollKeepsLinks(s, polled);
      AnswerView(s.(fleet := PollJob(s.fleet, polled).0), polled, id);
      OneStep(View(s, id), Elsewhere(t.disks[JobAt(s.fleet, id).installation]));
    }
  }

  lemma AnsweredPoll(l: Local, e: Event)
    ensures Replay(l, [] + [e]) == Next(l, e)
    ensures Replay(l, [Start] + [e]) == Next(Replay(l, [Start]), e)
  {
    assert [] + [e] == [e] && [Start] + [e] == [Start, e];
    OneStep(l, e);
    OneStep(l, Start);
    TwoSteps(l, Start, e);
  }

  lemma AcceptedAfter(accepted: set<(JobId, JobStatus)>, id: JobId, status: JobStatus, other: JobId)
    ensures AcceptedFor(accepted + {(id, status)}, other)
            == AcceptedFor(accepted, other) + if other == id then {status} else {}
  {
    var more := accepted + {(id, status)};
    forall x | x in AcceptedFor(accepted, other) ensures x in AcceptedFor(more, other) {
      assert (other, x) in more;
    }
    if other == id { assert (id, status) in more; }
  }

  lemma ShareOfOwnReport(s: System, m: Mail)
    requires WellLinked(s) && Exists(s.fleet, m.job) && Happen(s, Arrived(m)) != s
    ensures var t := Happen(s, Arrived(m));
      Known(t, m.job) && View(t, m.job) == Next(View(s, m.job), Deliver(m.notice))
  {
    AcceptedAfter(s.accepted, m.job, m.notice.status, m.job);
    assert m.notice in View(s, m.job).sent;
  }

  /** A stored report cancels the other jobs that are queued behind a failure, and changes nothing else of
      theirs. */
  lemma ReportOnOthers(f: Fleet, m: Mail, release: Stamp, id: JobId)
    requires Exists(f, id) && id != m.job && Exists(f, m.job)
    requires Report(f, m.from, m.job, m.notice.status, m.notice.stamp, release).Done?
    ensures var g := Report(f, m.from, m.job, m.notice.status, m.notice.stamp, release).value;
      && Exists(g, id) && g[id.rollout].releaseId == f[id.rollout].releaseId
      && JobAt(g, id).installation == JobAt(f, id).installation
      && JobAt(g, id).status == if m.job.rollout == id.rollout && JobAt(f, id).status == Queued
                                   && (m.notice.status == Failed || m.notice.status == RolledBack)
                                   && !Terminal(JobAt(f, m.job).status) then Canceled else JobAt(f, id).status
  {}

  lemma ShareOfOtherReport(s: System, m: Mail, id: JobId)
    requires WellLinked(s) && Exists(s.fleet, id) && id != m.job && Happen(s, Arrived(m)) != s
    ensures var t, l := Happen(s, Arrived(m)), View(s, id);
      Known(t, id) && View(t, id) == if Share(s, Arrived(m), id) == [Drop] then Next(l, Drop) else l
  {
    AcceptedAfter(s.accepted, m.job, m.notice.status, id);
    ReportOnOthers(s.fleet, m, s.releases[s.fleet[m.job.rollout].releaseId], id);
    hide Report, AcceptedFor, SentFor;
  }

  lemma ShareOfArrived(s: System, m: Mail, id: JobId)
    requires WellLinked(s) && Exists(s.fleet, id)
    ensures var t := Happen(s, Arrived(m));
      Known(t, id) && View(t, id) == Replay(View(s, id), Share(s, Arrived(m), id))
  {
    if Happen(s, Arrived(m)) != s && m.job == id {
      ShareOfOwnReport(s, m);
      OneStep(View(s, id), Deliver(m.notice));
    } else if Happen(s, Arrived(m)) != s {
      ShareOfOtherReport(s, m, id);
      OneStep(View(s, id), Drop);
    }
  }

  /** Every happening is, for each job that exists, a few steps of that job's protocol. */
  lemma SharesAreSteps(s: System, h: Happening, id: JobId)
    requires WellLinked(s) && Exists(s.fleet, id)
    ensures Known(Happen(s, h), id) && View(Happen(s, h), id) == Replay(View(s, id), Share(s, h, id))
  {
    match h
    case Created(_, _, _, _, _) =>
    case Cancelled(key) => ShareOfCancelled(s, key, id);
    case Polled(polled, answered) => ShareOfPolled(s, polled, answered, id);
    case OnMachine(machine, e) => ShareOfMachine(s, machine, e, id);
    case Arrived(m) => ShareOfArrived(s, m, id);
  }

  // ----- whole histories

  lemma MachineKeepsLinks(s: System, id: JobId, e: Event)
    requires WellLinked(s) && Known(s, id) && (MachineEvent(e) || e.Receive? || e.Refuse?)
    ensures WellLinked(PutBack(s, id, Next(View(s, id), e)))
  {
    MachineEventFrame(View(s, id), e);
    assert SentFor(s.mail, id) <= View(s, id).sent;
    forall n | n in Next(View(s, id), e).sent
      ensures Exists(s.fleet, id) && JobAt(s.fleet, id).installation == JobAt(s.fleet, id).installation {}
  }

  lemma CreatedKeepsLinks(s: System, h: Happening)
    requires WellLinked(s) && h.Created?
    ensures WellLinked(Happen(s, h))
  {
    var t := Happen(s, h);
    if t != s {
      assert t.fleet == s.fleet[h.key := Rollout(h.releaseId, h.actor, RunningRollout, FreshJobs(h.targets))];
      assert h.key !in s.fleet && h.releaseId in s.releases;
      assert forall id :: Exists(s.fleet, id) ==> Exists(t.fleet, id) && JobAt(t.fleet, id) == JobAt(s.fleet, id);
      forall id | Exists(t.fleet, id) ensures Known(t, id) {
        if id.rollout == h.key { assert JobAt(t.fleet, id).installation in h.targets; }
        else { assert Exists(s.fleet, id); }
      }
    }
  }

  lemma PolledKeepsLinks(s: System, id: JobId, answered: bool)
    requires WellLinked(s)
    ensures WellLinked(Happen(s, Polled(id, answered)))
  {
    if Known(s, id) {
      var t := s.(fleet := PollJob(s.fleet, id).0);
      PollKeepsLinks(s, id);
      PollView(s, id, id);
      MachineKeepsLinks(t, id, if View(t, id).trusted then Receive else Refuse);
    }
  }

  lemma ArrivedKeepsLinks(s: System, m: Mail)
    requires WellLinked(s)
    ensures WellLinked(Happen(s, Arrived(m)))
  {
    var t := Happen(s, Arrived(m));
    if t != s {
      ReportKeepsJobs(s.fleet, m, s.releases[s.fleet[m.job.rollout].releaseId]);
      hide Report;
      SameJobsKeepLinks(s, t.fleet, t.accepted);
    }
  }

  lemma CancelledKeepsLinks(s: System, key: string)
    requires WellLinked(s)
    ensures WellLinked(Happen(s, Cancelled(key)))
  {
    var t := Happen(s, Cancelled(key));
    if t != s {
      CancelKeepsJobs(s.fleet, key);
      hide Cancel;
      SameJobsKeepLinks(s, t.fleet, t.accepted);
    }
  }

  lemma OnMachineKeepsLinks(s: System, machine: InstallationId, e: Event)
    requires WellLinked(s)
    ensures WellLinked(Happen(s, OnMachine(machine, e)))
  {
    if machine in s.disks && MachineEvent(e) && s.disks[machine].journal.Some? {
      MachineKeepsLinks(s, s.disks[machine].journal.value.job, e);
    }
  }

  lemma HappenKeepsLinks(s: System, h: Happening)
    requires WellLinked(s)
    ensures WellLinked(Happen(s, h))
  {
    match h
    case Created(_, _, _, _, _) => CreatedKeepsLinks(s, h);
    case Polled(id, answered) => PolledKeepsLinks(s, id, answered);
    case OnMachine(machine, e) => OnMachineKeepsLinks(s, machine, e);
    case Cancelled(key) => CancelledKeepsLinks(s, key);
    case Arrived(m) => ArrivedKeepsLinks(s, m);
  }

  lemma ArrivedKeepsFleet(s: System, m: Mail)
    requires FleetOk(s.fleet)
    ensures FleetOk(Happen(s, Arrived(m)).fleet)
  {
    var t := Happen(s, Arrived(m));
    if m in s.mail && Known(s, m.job) {
      var release := s.releases[s.fleet[m.job.rollout].releaseId];
      ReportKeeps(s.fleet, m.from, m.job, m.notice.status, m.notice.stamp, release);
      var a := Report(s.fleet, m.from, m.job, m.notice.status, m.notice.stamp, release);
      assert t.fleet == if a.Done? then a.value else s.fleet;
    } else {
      assert t == s;
    }
  }

  lemma HappenKeepsFleet(s: System, h: Happening)
    requires FleetOk(s.fleet)
    ensures FleetOk(Happen(s, h).fleet)
  {
    hide FleetOk;
    match h
    case Created(key, releaseId, targets, actor, eligible) =>
      CreateKeeps(s.fleet, key, releaseId, targets, actor, CreationBar(s, releaseId, targets, eligible));
    case Cancelled(key) => CancelKeeps(s.fleet, key);
    case Polled(id, _) => if Exists(s.fleet, id) { PollKeeps(s.fleet, id); }
    case OnMachine(_, _) =>
    case Arrived(m) => ArrivedKeepsFleet(s, m);
  }

  lemma {:induction false} HistoryKeeps(s: System, hs: seq<Happening>)
    requires WellLinked(s) && FleetOk(s.fleet)
    ensures WellLinked(History(s, hs)) && FleetOk(History(s, hs).fleet)
  {
    if hs != [] {
      HistoryKeeps(s, hs[..|hs|-1]);
      HappenKeepsLinks(History(s, hs[..|hs|-1]), hs[|hs|-1]);
      HappenKeepsFleet(History(s, hs[..|hs|-1]), hs[|hs|-1]);
    }
  }

  lemma NothingSent(mail: set<Mail>, accepted: set<(JobId, JobStatus)>, id: JobId)
    requires (forall m :: m in mail ==> m.job != id) && (forall a :: a in accepted ==> a.0 != id)
    ensures SentFor(mail, id) == {} && AcceptedFor(accepted, id) == {}
  {}

  lemma OnlyCreationAddsJobs(s: System, h: Happening, id: JobId)
    requires !Exists(s.fleet, id) && Exists(Happen(s, h).fleet, id)
    ensures Happen(s, h) == s.(fleet := Happen(s, h).fleet) && JobAt(Happen(s, h).fleet, id).status == Queued
  {}

  /** A job that a happening creates is fresh. */
  lemma CreatedIsFresh(s: System, h: Happening, id: JobId)
    requires WellLinked(s) && !Exists(s.fleet, id) && Exists(Happen(s, h).fleet, id) && Known(Happen(s, h), id)
    ensures Fresh(View(Happen(s, h), id))
  {
    OnlyCreationAddsJobs(s, h, id);
    NothingSent(s.mail, s.accepted, id);
  }

  /** The fault of UpdateProtocol, somewhere in the fleet. */
  predicate FaultAt(s: System, h: Happening) {
    h.OnMachine? && h.machine in s.disks && s.disks[h.machine].journal.Some?
    && Known(s, s.disks[h.machine].journal.value.job)
    && UnjournalledNotice(View(s, s.disks[h.machine].journal.value.job), h.event)
  }

  predicate Faultless(s: System, hs: seq<Happening>) {
    hs == [] || (Faultless(s, hs[..|hs|-1]) && !FaultAt(History(s, hs[..|hs|-1]), hs[|hs|-1]))
  }

  lemma ShareIsJournalled(s: System, h: Happening, id: JobId)
    requires WellLinked(s) && Exists(s.fleet, id) && !FaultAt(s, h)
    ensures RunJournalled(View(s, id), Share(s, h, id))
  {
    var l, share := View(s, id), Share(s, h, id);
    if |share| == 1 {
      assert share == [share[0]];
      OneIsJournalled(l, share[0]);
    } else if |share| == 2 {
      assert share == [share[0]] + [share[1]];
      OneIsJournalled(l, share[0]);
      OneIsJournalled(Replay(l, [share[0]]), share[1]);
      ReplayJoins(l, [share[0]], [share[1]]);
    }
  }

  lemma OneIsJournalled(l: Local, e: Event)
    requires !UnjournalledNotice(l, e)
    ensures RunJournalled(l, [e])
  {
    assert [e][..0] == [];
  }

  /** Looked at alone, every job of every history goes through a run of the protocol from a fresh job;
      and in a history without the fault, through a run without it. */
  lemma {:induction false} JobsRunTheProtocol(s: System, hs: seq<Happening>, id: JobId)
    returns (birth: Local, run: seq<Event>)
    requires Initial(s) && Exists(History(s, hs).fleet, id)
    ensures Known(History(s, hs), id) && Fresh(birth) && View(History(s, hs), id) == Replay(birth, run)
    ensures Faultless(s, hs) ==> RunJournalled(birth, run)
  {
    HistoryKeeps(s, hs);
    var init := hs[..|hs|-1];
    var before, h := History(s, init), hs[|hs|-1];
    HistoryKeeps(s, init);
    if Exists(before.fleet, id) {
      birth, run := JobsRunTheProtocol(s, init, id);
      SharesAreSteps(before, h, id);
      ReplayJoins(birth, run, Share(before, h, id));
      if Faultless(s, hs) { ShareIsJournalled(before, h, id); }
      run := run + Share(before, h, id);
    } else {
      CreatedIsFresh(before, h, id);
      birth, run := View(History(s, hs), id), [];
    }
  }

  /** In every history of every fleet, whatever is lost, late, repeated or interrupted: each machine's link
      agrees with its journal, at most one job of the fleet is in flight, every rollout is in order,
      and a report a machine has to make is refused only if its job is torn. */
  lemma EveryHistoryIsSound(s: System, hs: seq<Happening>)
    requires Initial(s)
    ensures FleetOk(History(s, hs).fleet)
    ensures forall id :: Exists(History(s, hs).fleet, id) ==>
      Known(History(s, hs), id) && Ok(View(History(s, hs), id))
  {
    HistoryKeeps(s, hs);
    forall id | Exists(History(s, hs).fleet, id)
      ensures Known(History(s, hs), id) && Ok(View(History(s, hs), id))
    {
      var birth, run := JobsRunTheProtocol(s, hs, id);
      RunsKeepOk(birth, run);
    }
  }

  /** In every history without the fault no job is torn: each machine stays in step with the controller,
      and the report it has to make next is accepted. */
  lemma FaultlessHistoriesStayInStep(s: System, hs: seq<Happening>, id: JobId)
    requires Initial(s) && Faultless(s, hs) && Exists(History(s, hs).fleet, id)
    ensures Known(History(s, hs), id)
    ensures var l := View(History(s, hs), id);
      Held(l) ==> InStep(PhaseOf(l), l.status)
    ensures var l := View(History(s, hs), id);
      Held(l) && NextReport(PhaseOf(l)).Some? && CurrentStamp(l.disk).Some? ==>
        Accepts(l, Notice(NextReport(PhaseOf(l)).value, CurrentStamp(l.disk).value))
  {
    var birth, run := JobsRunTheProtocol(s, hs, id);
    JournalledRunsStayInStep(birth, run);
  }

  predicate TornSuccess(s: System, id: JobId) {
    Known(s, id) && Held(View(s, id)) && PhaseOf(View(s, id)) == AtSucceeded && View(s, id).status == RollingBack
  }

  lemma TornSuccessStays(s: System, h: Happening, id: JobId)
    requires WellLinked(s) && TornSuccess(s, id) && Ok(View(s, id))
    ensures TornSuccess(Happen(s, h), id)
  {
    SharesAreSteps(s, h, id);
    TornSuccessIsForever(View(s, id), Share(s, h, id));
  }

  lemma InitialIsOk(s: System)
    requires Initial(s)
    ensures WellLinked(s) && FleetOk(s.fleet)
  {}

  lemma {:induction false} TornSuccessStaysForever(s: System, before: seq<Happening>, after: seq<Happening>, id: JobId)
    requires Initial(s) && TornSuccess(History(s, before), id)
    ensures TornSuccess(History(s, before + after), id)
  {
    hide FleetOk, WellLinked, Happen, Ok;
    if after == [] {
      assert before + after == before;
    } else {
      var init := after[..|after|-1];
      TornSuccessStaysForever(s, before, init, id);
      assert (before + after)[..|before + after|-1] == before + init;
      EveryHistoryIsSound(s, before + init);
      InitialIsOk(s);
      HistoryKeeps(s, before + init);
      TornSuccessStays(History(s, before + init), after[|after|-1], id);
    }
  }

  /** The fault stops the fleet: after it a torn success keeps its job in ROLLING_BACK in every
      continuation, and no other job is ever in flight again. */
  lemma TornSuccessStopsTheFleet(s: System, before: seq<Happening>, after: seq<Happening>, id: JobId)
    requires Initial(s) && TornSuccess(History(s, before), id)
    ensures TornSuccess(History(s, before + after), id)
    ensures forall other :: Exists(History(s, before + after).fleet, other) && other != id ==>
      !InFlight(JobAt(History(s, before + after).fleet, other).status)
  {
    TornSuccessStaysForever(s, before, after, id);
    InitialIsOk(s);
    HistoryKeeps(s, before + after);
    hide History;
    AloneInFlight(History(s, before + after).fleet, id);
  }

  lemma AloneInFlight(f: Fleet, id: JobId)
    requires FleetOk(f) && Exists(f, id) && InFlight(JobAt(f, id).status)
    ensures forall other :: Exists(f, other) && other != id ==> !InFlight(JobAt(f, other).status)
  {}
}
