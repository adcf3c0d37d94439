/** What can happen in the whole system: a run of one job's protocol, step by step, is a history of the
    fleet. So the fault of the protocol can stop a real fleet, and a fleet is stuck exactly when the job in
    flight is held without a way out. */
module UpdateProgress {
  import opened Options
  import opened AgentUpdateContract
  import opened AgentController
  import opened UpdateEndings
  import opened UpdateProtocol
  import opened UpdateFleet

  lemma {:induction false} HistoryJoins(s: System, a: seq<Happening>, b: seq<Happening>)
    ensures History(s, a + b) == History(History(s, a), b)
  {
    hide Happen;
    if b == [] {
      assert a + b == a;
    } else {
      HistoryJoins(s, a, b[..|b|-1]);
      assert (a + b)[..|a + b|-1] == a + b[..|b|-1];
    }
  }

  /** No rollback is announced, and no file comes or goes by itself. */
  predicate Quiet(hs: seq<Happening>) {
    NoFileReturns(hs) && forall k :: 0 <= k < |hs| ==> !(hs[k].OnMachine? && hs[k].event == Send(RollingBack))
  }

  predicate NoFileReturns(hs: seq<Happening>) {
    forall k :: 0 <= k < |hs| ==> !(hs[k].OnMachine? && hs[k].event.Decay?)
  }

  lemma {:induction false} QuietGoesOnFaultless(s: System, a: seq<Happening>, b: seq<Happening>)
    requires Faultless(s, a) && Quiet(b)
    ensures Faultless(s, a + b)
  {
    if b == [] {
      assert a + b == a;
    } else {
      QuietGoesOnFaultless(s, a, b[..|b|-1]);
      assert (a + b)[..|a + b|-1] == a + b[..|b|-1];
    }
  }

  /** A report under way is, when it arrives, the job's Deliver. */
  lemma ArrivalHappens(s: System, m: Mail)
    requires Known(s, m.job) && m in s.mail && JobAt(s.fleet, m.job).installation == m.from
    ensures var t := Happen(s, Arrived(m)); Known(t, m.job) && View(t, m.job) == Next(View(s, m.job), Deliver(m.notice))
  {
    AcceptedAfter(s.accepted, m.job, m.notice.status, m.job);
    assert m.notice in View(s, m.job).sent;
  }

  /** Every event of the job a machine holds is a happening. */
  lemma EventHappens(s: System, id: JobId, e: Event) returns (h: Happening)
    requires WellLinked(s) && Exists(s.fleet, id) && Held(View(s, id)) && (MachineEvent(e) || e.Deliver?)
    ensures h.OnMachine? || h.Arrived?
    ensures e != Send(RollingBack) && !e.Decay? ==> Quiet([h])
    ensures h.Arrived? ==> h.mail.job == id
    ensures Exists(Happen(s, h).fleet, id) && View(Happen(s, h), id) == Next(View(s, id), e)
  {
    var machine := JobAt(s.fleet, id).installation;
    if MachineEvent(e) {
      h := OnMachine(machine, e);
      PutBackView(s, id, e, id);
    } else if e.notice in View(s, id).sent {
      var m :| m in s.mail && m.job == id && m.notice == e.notice;
      h := Arrived(m);
      ArrivalHappens(s, m);
    } else {
      h := OnMachine(machine, Start);
    }
  }

  /** Such a happening puts no other job in flight, and takes none out. */
  lemma OwnHappeningFrame(s: System, h: Happening, x: JobId)
    requires h.OnMachine? || (h.Arrived? && h.mail.job != x)
    requires Exists(s.fleet, x)
    ensures Exists(Happen(s, h).fleet, x) && JobAt(Happen(s, h).fleet, x).installation == JobAt(s.fleet, x).installation
    ensures JobAt(Happen(s, h).fleet, x).status == JobAt(s.fleet, x).status
            || (JobAt(s.fleet, x).status == Queued && JobAt(Happen(s, h).fleet, x).status == Canceled)
  {
    if h.Arrived? && h.mail in s.mail && Known(s, h.mail.job) {
      var release := s.releases[s.fleet[h.mail.job.rollout].releaseId];
      if Report(s.fleet, h.mail.from, h.mail.job, h.mail.notice.status, h.mail.notice.stamp, release).Done? {
        ReportOnOthers(s.fleet, h.mail, release, x);
      }
    }
  }

  /** The same jobs on the same machines, and none but `id` taken into flight or out of it. */
  ghost predicate OnlyOwn(f: Fleet, g: Fleet, id: JobId) {
    && (forall x :: Exists(g, x) <==> Exists(f, x))
    && (forall x | Exists(f, x) :: JobAt(g, x).installation == JobAt(f, x).installation)
    && (forall x | Exists(f, x) && x != id :: InFlight(JobAt(g, x).status) == InFlight(JobAt(f, x).status))
  }

  lemma OwnHappeningIsOwn(s: System, h: Happening, id: JobId)
    requires WellLinked(s) && (h.OnMachine? || (h.Arrived? && h.mail.job == id))
    ensures OnlyOwn(s.fleet, Happen(s, h).fleet, id)
  {
    forall x | Exists(s.fleet, x) && x != id
      ensures Exists(Happen(s, h).fleet, x)
      ensures InFlight(JobAt(Happen(s, h).fleet, x).status) == InFlight(JobAt(s.fleet, x).status)
    {
      OwnHappeningFrame(s, h, x);
    }
    if h.Arrived? && Happen(s, h) != s {
      ReportKeepsJobs(s.fleet, h.mail, s.releases[s.fleet[h.mail.job.rollout].releaseId]);
    }
  }

  lemma OneMore(s: System, hs: seq<Happening>, h: Happening)
    ensures History(s, hs + [h]) == Happen(History(s, hs), h)
  {
    assert (hs + [h])[..|hs + [h]|-1] == hs;
  }

  /** The history leads to a system in which the job looks like this, the others undisturbed. */
  ghost predicate LeadsTo(s: System, hs: seq<Happening>, id: JobId, l: Local) {
    var t := History(s, hs);
    Known(t, id) && View(t, id) == l && OnlyOwn(s.fleet, t.fleet, id)
  }

  lemma StepHappens(s: System, hs: seq<Happening>, id: JobId, l: Local, e: Event) returns (h: Happening)
    requires WellLinked(s) && FleetOk(s.fleet) && LeadsTo(s, hs, id, l) && Held(l) && (MachineEvent(e) || e.Deliver?)
    ensures LeadsTo(s, hs + [h], id, Next(l, e))
    ensures e != Send(RollingBack) && !e.Decay? ==> Quiet([h])
  {
    HistoryKeeps(s, hs);
    h := EventHappens(History(s, hs), id, e);
    OwnHappeningIsOwn(History(s, hs), h, id);
    OneMore(s, hs, h);
    HistoryKeeps(s, hs + [h]);
    OnlyOwnJoins(s.fleet, History(s, hs).fleet, History(s, hs + [h]).fleet, id);
    hide Happen, History, OnlyOwn, Next;
  }

  lemma NothingHappens(s: System, id: JobId)
    requires WellLinked(s) && Exists(s.fleet, id)
    ensures Known(s, id) && LeadsTo(s, [], id, View(s, id)) && Quiet([])
  {
    OnlyOwnJoins(s.fleet, s.fleet, s.fleet, id);
  }

  /** A run of one job, taken up by its machine, is a history of the fleet. */
  lemma {:induction false} RunHappens(s: System, id: JobId, run: seq<Event>) returns (hs: seq<Happening>)
    requires WellLinked(s) && FleetOk(s.fleet) && Exists(s.fleet, id) && OwnRun(View(s, id), run)
    ensures LeadsTo(s, hs, id, Replay(View(s, id), run))
    ensures Plain(run) ==> Quiet(hs)
  {
    NothingHappens(s, id);
    hide Known, Exists, WellLinked, FleetOk, LeadsTo, View, Next, Quiet, Held, MachineEvent;
    if run == [] {
      hs := [];
    } else {
      var init, e := run[..|run|-1], run[|run|-1];
      hs := RunHappens(s, id, init);
      var h := StepHappens(s, hs, id, Replay(View(s, id), init), e);
      if Plain(run) {
        assert e != Send(RollingBack) && !e.Decay? && Plain(init);
        QuietJoins(hs, h);
      }
      hs := hs + [h];
    }
  }

  lemma OnlyOwnJoins(f: Fleet, g: Fleet, h: Fleet, id: JobId)
    ensures OnlyOwn(f, f, id)
    ensures OnlyOwn(f, g, id) && OnlyOwn(g, h, id) ==> OnlyOwn(f, h, id)
  {}

  lemma QuietJoins(hs: seq<Happening>, h: Happening)
    requires Quiet(hs) && Quiet([h])
    ensures Quiet(hs + [h])
  {
    assert [h][0] == h;
  }

  // ----- the fault can happen to a fleet

  /** A rollout of one job, taken up by its machine. */
  lemma TakeUpHappensToFleets(s: System, machine: InstallationId, releaseId: string, key: string, actor: string)
    returns (hs: seq<Happening>)
    requires Initial(s) && machine in s.disks && releaseId in s.releases && (machine, releaseId) in s.trusts
    requires CurrentStamp(s.disks[machine]).Some?
    ensures var t, id := History(s, hs), JobId(key, 0); Known(t, id) && TakenUp(View(t, id)) && Ok(View(t, id))
  {
    var created, polled := Created(key, releaseId, [machine], actor, true), Polled(JobId(key, 0), true);
    StartHappens(s, machine, releaseId, key, actor);
    hs := [created, polled];
    assert [created][..0] == [] && hs[..1] == [created];
    assert History(s, [created]) == Happen(s, created);
    EveryHistoryIsSound(s, hs);
  }

  /** Any fleet with a machine that trusts a release can run into the fault: the rollback is announced
      without having been journalled, and then the job succeeds locally. */
  lemma TornSuccessHappensToFleets(s: System, machine: InstallationId, releaseId: string, key: string, actor: string)
    returns (hs: seq<Happening>)
    requires Initial(s) && machine in s.disks && releaseId in s.releases && (machine, releaseId) in s.trusts
    requires CurrentStamp(s.disks[machine]).Some?
    ensures TornSuccess(History(s, hs), JobId(key, 0))
  {
    var first := TakeUpHappensToFleets(s, machine, releaseId, key, actor);
    var run := TearHappens(View(History(s, first), JobId(key, 0)));
    hs := GoesOn(s, first, JobId(key, 0), run);
  }

  /** And it can run into the earlier tear. */
  lemma EarlyTearHappensToFleets(s: System, machine: InstallationId, releaseId: string, key: string, actor: string)
    returns (hs: seq<Happening>)
    requires Initial(s) && machine in s.disks && releaseId in s.releases && (machine, releaseId) in s.trusts
    requires CurrentStamp(s.disks[machine]).Some?
    ensures var t, id := History(s, hs), JobId(key, 0);
      && Known(t, id) && Held(View(t, id)) && PhaseOf(View(t, id)) == AtLocalHealthy
      && View(t, id).status == RollingBack && Checking !in View(t, id).accepted
  {
    var first := TakeUpHappensToFleets(s, machine, releaseId, key, actor);
    var run := EarlyTearHappens(View(History(s, first), JobId(key, 0)));
    hs := GoesOn(s, first, JobId(key, 0), run);
  }

  lemma GoesOn(s: System, first: seq<Happening>, id: JobId, run: seq<Event>) returns (hs: seq<Happening>)
    requires Initial(s) && Known(History(s, first), id) && OwnRun(View(History(s, first), id), run)
    ensures Known(History(s, hs), id) && View(History(s, hs), id) == Replay(View(History(s, first), id), run)
  {
    InitialIsOk(s);
    HistoryKeeps(s, first);
    var rest := RunHappens(History(s, first), id, run);
    HistoryJoins(s, first, rest);
    hs := first + rest;
  }

  lemma StartHappens(s: System, machine: InstallationId, releaseId: string, key: string, actor: string)
    requires Initial(s) && machine in s.disks && releaseId in s.releases && (machine, releaseId) in s.trusts
    requires CurrentStamp(s.disks[machine]).Some?
    ensures var t := Happen(Happen(s, Created(key, releaseId, [machine], actor, true)), Polled(JobId(key, 0), true));
            Known(t, JobId(key, 0)) && TakenUp(View(t, JobId(key, 0)))
  {
    var id := JobId(key, 0);
    var created, polled := Created(key, releaseId, [machine], actor, true), Polled(id, true);
    InitialIsOk(s);
    HappenKeepsLinks(s, created);
    var mid := Happen(s, created);
    assert mid.fleet == map[key := Rollout(releaseId, actor, RunningRollout, FreshJobs([machine]))];
    CreatedIsFresh(s, created, id);
    var l := View(mid, id);
    assert Startable(mid.fleet, id) && l.trusted && l.disk == s.disks[machine];
    assert Share(mid, polled, id) == [Start] + [Receive];
    SharesAreSteps(mid, polled, id);
    var run := TakeUpHappens(l);
    assert [Start] + [Receive] == run;
  }

  // ----- machines can read the binary they run

  predicate Readable(s: System) {
    forall machine :: machine in s.disks ==> CurrentStamp(s.disks[machine]).Some?
  }

  lemma EventKeepsReadable(l: Local, e: Event)
    requires CurrentStamp(l.disk).Some? && !e.Elsewhere?
    ensures CurrentStamp(Next(l, e).disk).Some?
  {}

  lemma HappenKeepsReadable(s: System, h: Happening)
    requires Readable(s)
    ensures Readable(Happen(s, h))
  {
    match h
    case OnMachine(machine, e) =>
      if machine in s.disks && MachineEvent(e) && s.disks[machine].journal.Some?
         && Known(s, s.disks[machine].journal.value.job) {
        EventKeepsReadable(View(s, s.disks[machine].journal.value.job), e);
      }
    case Polled(id, _) =>
      if Known(s, id) {
        var t := s.(fleet := PollJob(s.fleet, id).0);
        if Known(t, id) {
          EventKeepsReadable(View(t, id), if View(t, id).trusted then Receive else Refuse);
        }
      }
    case _ =>
  }

  lemma {:induction false} HistoryKeepsReadable(s: System, hs: seq<Happening>)
    requires Readable(s)
    ensures Readable(History(s, hs))
  {
    if hs != [] {
      HistoryKeepsReadable(s, hs[..|hs|-1]);
      HappenKeepsReadable(History(s, hs[..|hs|-1]), hs[|hs|-1]);
    }
  }

  // ----- a way out is taken

  /** A job its machine holds, with a way out, can come to its end. */
  lemma HeldJobEnds(s: System, hs: seq<Happening>, id: JobId) returns (more: seq<Happening>)
    requires Initial(s)
    requires var now := History(s, hs);
      && Known(now, id) && Held(View(now, id)) && CurrentStamp(View(now, id).disk).Some? && MayEnd(View(now, id))
    ensures Quiet(more)
    ensures var now, t := History(s, hs), History(s, hs + more);
      && OnlyOwn(now.fleet, t.fleet, id) && Known(t, id) && Terminal(JobAt(t.fleet, id).status)
      && View(t, id).disk.journal.None? && CurrentStamp(View(t, id).disk).Some?
  {
    var now := History(s, hs);
    EveryHistoryIsSound(s, hs);
    var run := EndHappens(View(now, id));
    InitialIsOk(s);
    HistoryKeeps(s, hs);
    more := RunHappens(now, id, run);
    HistoryJoins(s, hs, more);
  }

  lemma PollAnswers(s: System, id: JobId)
    requires FleetOk(s.fleet) && Known(s, id) && InFlight(JobAt(s.fleet, id).status) && View(s, id).disk.journal.None?
    ensures JobAt(s.fleet, id).active && PollJob(s.fleet, id) == (s.fleet, Some(id))
  {
    assert RolloutOk(s.fleet[id.rollout]);
  }

  /** The controller hands a job in flight out again. */
  lemma PollsAgain(s: System, id: JobId)
    requires FleetOk(s.fleet) && Known(s, id) && InFlight(JobAt(s.fleet, id).status) && View(s, id).disk.journal.None?
    ensures var t := Happen(s, Polled(id, true));
      && t.fleet == s.fleet && Known(t, id)
      && View(t, id) == Next(View(s, id), if View(s, id).trusted then Receive else Refuse)
  {
    PollAnswers(s, id);
    hide FleetOk, Next, PollJob;
    PutBackView(s, id, if View(s, id).trusted then Receive else Refuse, id);
  }

  lemma TakenUpOrRefused(l: Local)
    requires l.disk.journal.None? && InFlight(l.status) && CurrentStamp(l.disk).Some?
    ensures l.trusted ==> var m := Next(l, Receive); Held(m) && CurrentStamp(m.disk).Some? && MayEnd(m)
    ensures !l.trusted ==> Notice(Failed, CurrentStamp(l.disk).value) in Next(l, Refuse).sent
  {}

  lemma RefusalIsAccepted(l: Local, n: Notice)
    requires n in l.sent && n.status == Failed && InFlight(l.status)
    ensures Next(l, Deliver(n)).status == Failed
  {}

  /** The refusal of a job whose manifest does not verify arrives. */
  lemma RefusalArrives(s: System, id: JobId, n: Notice) returns (m: Mail)
    requires WellLinked(s) && Known(s, id) && n in View(s, id).sent && n.status == Failed
    requires InFlight(JobAt(s.fleet, id).status)
    ensures var t := Happen(s, Arrived(m));
      Known(t, id) && JobAt(t.fleet, id).status == Failed && OnlyOwn(s.fleet, t.fleet, id)
  {
    hide Happen, OnlyOwn, Next;
    m :| m in s.mail && m.job == id && m.notice == n;
    RefusalIsAccepted(View(s, id), n);
    ArrivalHappens(s, m);
    OwnHappeningIsOwn(s, Arrived(m), id);
  }

  lemma PolledAgain(s: System, hs: seq<Happening>, id: JobId)
    requires Initial(s)
    requires var now := History(s, hs);
      && Known(now, id) && InFlight(JobAt(now.fleet, id).status)
      && View(now, id).disk.journal.None? && CurrentStamp(View(now, id).disk).Some?
    ensures var now, t := History(s, hs), History(s, hs + [Polled(id, true)]);
      && t.fleet == now.fleet && WellLinked(t) && Known(t, id)
      && if View(now, id).trusted
         then Held(View(t, id)) && CurrentStamp(View(t, id).disk).Some? && MayEnd(View(t, id))
         else Notice(Failed, CurrentStamp(View(now, id).disk).value) in View(t, id).sent
  {
    var now, polled := History(s, hs), Polled(id, true);
    InitialIsOk(s);
    HistoryKeeps(s, hs);
    PollsAgain(now, id);
    OneMore(s, hs, polled);
    HistoryKeeps(s, hs + [polled]);
    TakenUpOrRefused(View(now, id));
    hide FleetOk, WellLinked, Happen, History, Next, MayEnd;
  }

  lemma RefusedJobEnds(s: System, hs: seq<Happening>, id: JobId, n: Notice) returns (m: Mail)
    requires Initial(s) && n.status == Failed
    requires var now := History(s, hs);
      WellLinked(now) && Known(now, id) && InFlight(JobAt(now.fleet, id).status) && n in View(now, id).sent
    ensures var now, t := History(s, hs), History(s, hs + [Arrived(m)]);
      OnlyOwn(now.fleet, t.fleet, id) && Exists(t.fleet, id) && Terminal(JobAt(t.fleet, id).status)
  {
    m := RefusalArrives(History(s, hs), id, n);
    OneMore(s, hs, Arrived(m));
    hide WellLinked, Happen, History, OnlyOwn;
  }

  /** A job in flight that its idle machine does not hold can come to its end. */
  lemma UnheldJobEnds(s: System, hs: seq<Happening>, id: JobId) returns (more: seq<Happening>)
    requires Initial(s)
    requires var now := History(s, hs);
      && Known(now, id) && InFlight(JobAt(now.fleet, id).status)
      && View(now, id).disk.journal.None? && CurrentStamp(View(now, id).disk).Some?
    ensures Quiet(more)
    ensures var now, t := History(s, hs), History(s, hs + more);
      OnlyOwn(now.fleet, t.fleet, id) && Exists(t.fleet, id) && Terminal(JobAt(t.fleet, id).status)
  {
    hide Initial, WellLinked, History, OnlyOwn, MayEnd;
    var polled := Polled(id, true);
    PolledAgain(s, hs, id);
    if View(History(s, hs), id).trusted {
      more := HeldJobEnds(s, hs + [polled], id);
      assert hs + [polled] + more == hs + ([polled] + more);
      more := [polled] + more;
    } else {
      var m := RefusedJobEnds(s, hs + [polled], id, Notice(Failed, CurrentStamp(View(History(s, hs), id).disk).value));
      assert hs + [polled] + [Arrived(m)] == hs + [polled, Arrived(m)];
      more := [polled, Arrived(m)];
    }
  }

  /** What the job in flight finds on its machine: itself, nothing, or a job that is over. */
  lemma FleetIsSound(s: System, hs: seq<Happening>, id: JobId)
    requires Initial(s) && Exists(History(s, hs).fleet, id) && InFlight(JobAt(History(s, hs).fleet, id).status)
    ensures var now := History(s, hs);
      && OneInFlight(now.fleet) && Known(now, id)
      && var machine := JobAt(now.fleet, id).installation;
         now.disks[machine].journal.Some? ==>
           var held := now.disks[machine].journal.value.job;
           && Known(now, held) && JobAt(now.fleet, held).installation == machine && Held(View(now, held))
           && (held != id ==> MayEnd(View(now, held)))
  {
    EveryHistoryIsSound(s, hs);
    InitialIsOk(s);
    HistoryKeeps(s, hs);
    var now := History(s, hs);
    var machine := JobAt(now.fleet, id).installation;
    if now.disks[machine].journal.Some? && now.disks[machine].journal.value.job != id {
      var held := now.disks[machine].journal.value.job;
      OtherIsOver(now, held, id);
      OverMayEnd(View(now, held));
    }
  }

  lemma OtherIsOver(s: System, held: JobId, id: JobId)
    requires FleetOk(s.fleet) && Exists(s.fleet, held) && Exists(s.fleet, id) && held != id
    requires JobAt(s.fleet, held).installation == JobAt(s.fleet, id).installation && InFlight(JobAt(s.fleet, id).status)
    ensures Terminal(JobAt(s.fleet, held).status)
  {
    assert RolloutOk(s.fleet[id.rollout]) && RolloutOk(s.fleet[held.rollout]);
    assert JobAt(s.fleet, id).active;
  }

  lemma OverMayEnd(l: Local)
    requires Ok(l) && Held(l) && Terminal(l.status)
    ensures MayEnd(l)
  {}

  /** After another job of the machine ended, the machine is idle and the job in flight still is. */
  lemma MachineIsFree(now: System, mid: System, held: JobId, id: JobId)
    requires Known(now, id) && Known(now, held) && Known(mid, held) && id != held
    requires InFlight(JobAt(now.fleet, id).status) && OnlyOwn(now.fleet, mid.fleet, held)
    requires JobAt(now.fleet, held).installation == JobAt(now.fleet, id).installation
    ensures Exists(mid.fleet, id) && InFlight(JobAt(mid.fleet, id).status)
    ensures Known(mid, id) ==> View(mid, id).disk == View(mid, held).disk
  {}

  lemma NothingInFlight(f: Fleet, g: Fleet, id: JobId)
    requires OneInFlight(f) && Exists(f, id) && InFlight(JobAt(f, id).status)
    requires OnlyOwn(f, g, id) && Exists(g, id) && Terminal(JobAt(g, id).status)
    ensures !SomeInFlight(g)
  {
    forall x | x in JobIds(g) ensures !InFlight(JobAt(g, x).status) {
      assert Exists(f, x);
    }
  }

  /** A job in flight whose machine still holds another one can come to its end. */
  lemma WaitingJobEnds(s: System, hs: seq<Happening>, held: JobId, id: JobId) returns (more: seq<Happening>)
    requires Initial(s) && held != id
    requires var now := History(s, hs);
      && Known(now, id) && InFlight(JobAt(now.fleet, id).status)
      && Known(now, held) && JobAt(now.fleet, held).installation == JobAt(now.fleet, id).installation
      && Held(View(now, held)) && CurrentStamp(View(now, held).disk).Some? && MayEnd(View(now, held))
    ensures Quiet(more)
    ensures var t := History(s, hs + more);
      Exists(t.fleet, id) && Terminal(JobAt(t.fleet, id).status) && !SomeInFlight(t.fleet)
  {
    hide Initial, History, OnlyOwn, MayEnd, OneInFlight, SomeInFlight;
    more := HeldJobEnds(s, hs, held);
    var mid := History(s, hs + more);
    MachineIsFree(History(s, hs), mid, held, id);
    FleetIsSound(s, hs + more, id);
    var rest := UnheldJobEnds(s, hs + more, id);
    assert hs + more + rest == hs + (more + rest);
    more := more + rest;
    NothingInFlight(mid.fleet, History(s, hs + more).fleet, id);
  }

  /** Whatever was lost, interrupted or torn so far: unless its machine holds it without a way out, the job
      in flight has a continuation that ends it, after which nothing is in flight and the next job can
      start. */
  lemma TheJobInFlightCanEnd(s: System, hs: seq<Happening>, id: JobId) returns (more: seq<Happening>)
    requires Initial(s) && Readable(s) && Exists(History(s, hs).fleet, id)
    requires InFlight(JobAt(History(s, hs).fleet, id).status)
    requires var now := History(s, hs); Known(now, id) && Held(View(now, id)) ==> MayEnd(View(now, id))
    ensures Quiet(more)
    ensures var t := History(s, hs + more);
      Exists(t.fleet, id) && Terminal(JobAt(t.fleet, id).status) && !SomeInFlight(t.fleet)
  {
    HistoryKeepsReadable(s, hs);
    hide Initial, History, OnlyOwn, MayEnd, OneInFlight, SomeInFlight;
    var now := History(s, hs);
    FleetIsSound(s, hs, id);
    var machine := JobAt(now.fleet, id).installation;
    if now.disks[machine].journal.None? {
      more := UnheldJobEnds(s, hs, id);
      NothingInFlight(now.fleet, History(s, hs + more).fleet, id);
    } else if now.disks[machine].journal.value.job == id {
      more := HeldJobEnds(s, hs, id);
      NothingInFlight(now.fleet, History(s, hs + more).fleet, id);
    } else {
      more := WaitingJobEnds(s, hs, now.disks[machine].journal.value.job, id);
    }
  }

  /** Without the fault the only jobs without a way out are those whose old binary is gone while they have
      to go back to it; and the continuation is again without the fault. */
  lemma FaultlessFleetsGoOn(s: System, hs: seq<Happening>, id: JobId) returns (more: seq<Happening>)
    requires Initial(s) && Readable(s) && Faultless(s, hs) && Exists(History(s, hs).fleet, id)
    requires InFlight(JobAt(History(s, hs).fleet, id).status)
    requires var now := History(s, hs);
      Known(now, id) && Held(View(now, id)) ==>
        OldIsThere(View(now, id))
        || !(PhaseOf(View(now, id)) == AtRollingBack
             || (PhaseOf(View(now, id)) == AtInstalling
                 && !Holds(View(now, id).disk.files, Candidate(View(now, id)), View(now, id).release.sha256)))
    ensures Faultless(s, hs + more)
    ensures var t := History(s, hs + more);
      Exists(t.fleet, id) && Terminal(JobAt(t.fleet, id).status) && !SomeInFlight(t.fleet)
  {
    var birth, run := JobsRunTheProtocol(s, hs, id);
    RunsKeepOk(birth, run);
    RunsKeepJournalled(birth, run);
    hide Ok, Initial;
    more := TheJobInFlightCanEnd(s, hs, id);
    QuietGoesOnFaultless(s, hs, more);
  }

  // ----- no way out, no end

  lemma ShareIsUnaided(s: System, h: Happening, id: JobId)
    requires Known(s, id) && !(h.OnMachine? && h.event.Decay?)
    ensures forall k :: 0 <= k < |Share(s, h, id)| ==> !Share(s, h, id)[k].Decay?
  {}

  /** A job held without a way out keeps the only slot in every continuation in which no file comes back. */
  lemma {:induction false} StuckJobsStay(s: System, hs: seq<Happening>, more: seq<Happening>, id: JobId)
    requires Initial(s) && NoFileReturns(more)
    requires var now := History(s, hs); Known(now, id) && Held(View(now, id)) && !MayEnd(View(now, id))
    ensures var t := History(s, hs + more);
      Known(t, id) && Held(View(t, id)) && !MayEnd(View(t, id)) && InFlight(JobAt(t.fleet, id).status)
  {
    hide Initial, Happen, MayEnd, Ok, WellLinked, FleetOk, Share;
    EveryHistoryIsSound(s, hs);
    if more == [] {
      assert hs + more == hs;
      StuckForEver(View(History(s, hs), id), []);
    } else {
      var init, h := more[..|more|-1], more[|more|-1];
      StuckJobsStay(s, hs, init, id);
      assert (hs + more)[..|hs + more|-1] == hs + init;
      var t := History(s, hs + init);
      EveryHistoryIsSound(s, hs + init);
      InitialIsOk(s);
      HistoryKeeps(s, hs + init);
      SharesAreSteps(t, h, id);
      ShareIsUnaided(t, h, id);
      StuckForEver(View(t, id), Share(t, h, id));
    }
  }

  predicate IsOver(s: System, id: JobId) {
    Exists(s.fleet, id) && Terminal(JobAt(s.fleet, id).status)
  }

  ghost predicate CanBeOver(s: System, hs: seq<Happening>, id: JobId) {
    exists more :: NoFileReturns(more) && IsOver(History(s, hs + more), id)
  }

  /** Exactly when a fleet is stuck: after every history, faulty or not, the job in flight can be over if and
      only if its machine does not hold it without a way out. */
  lemma StuckIffNoWayOut(s: System, hs: seq<Happening>, id: JobId)
    requires Initial(s) && Readable(s) && Exists(History(s, hs).fleet, id)
    requires InFlight(JobAt(History(s, hs).fleet, id).status)
    ensures Known(History(s, hs), id)
    ensures CanBeOver(s, hs, id) <==> (Held(View(History(s, hs), id)) ==> MayEnd(View(History(s, hs), id)))
  {
    hide Initial, Readable, MayEnd, History, Known;
    FleetIsSound(s, hs, id);
    if Held(View(History(s, hs), id)) ==> MayEnd(View(History(s, hs), id)) {
      var more := TheJobInFlightCanEnd(s, hs, id);
      assert NoFileReturns(more) && IsOver(History(s, hs + more), id);
    } else {
      forall more | NoFileReturns(more) ensures !IsOver(History(s, hs + more), id) {
        StuckJobsStay(s, hs, more, id);
      }
    }
  }
}
