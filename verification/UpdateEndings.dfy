/** Which jobs can still come to their end, and by which runs. */
module UpdateEndings {
  import opened Options
  import opened AgentUpdateContract
  import opened AgentController
  import opened UpdateProtocol

  /** The old binary is where the job found it. */
  predicate OldIsThere(l: Local)
    requires Held(l)
  {
    var d, j := l.disk, l.disk.journal.value;
    Holds(d.files, j.oldPath, j.oldStamp.sha256)
  }

  /** A way out is left: a torn job has to go back, and so has one whose candidate is gone; and a local
      success that the controller takes for a rollback has nowhere to go. */
  predicate MayEnd(l: Local)
    requires Held(l)
  {
    match PhaseOf(l)
    case AtDownloading | AtVerifying | AtFailed | AtRolledBack => true
    case AtInstalling =>
      OldIsThere(l) || (l.status != RollingBack && Holds(l.disk.files, Candidate(l), l.release.sha256))
    case AtLocalHealthy | AtChecking => l.status != RollingBack || OldIsThere(l)
    case AtRollingBack => OldIsThere(l)
    case AtSucceeded => l.status != RollingBack
  }

  /** Over on both machines. */
  predicate Ended(l: Local) {
    !Held(l) && Terminal(l.status)
  }

  // ----- no way out

  lemma StuckStep(l: Local, e: Event)
    requires Ok(l) && Held(l) && !MayEnd(l) && !e.Decay?
    ensures var m := Next(l, e); Held(m) && !MayEnd(m) && InFlight(m.status)
  {
    if e.Deliver? && Enabled(l, e) {
      assert MayBeUnderWay(PhaseOf(l), e.notice.status);
    }
  }

  /** A job without a way out stays held and in flight over every run in which no file comes back. */
  lemma {:induction false} StuckForEver(l: Local, run: seq<Event>)
    requires Ok(l) && Held(l) && !MayEnd(l) && forall k :: 0 <= k < |run| ==> !run[k].Decay?
    ensures var m := Replay(l, run); Held(m) && !MayEnd(m) && InFlight(m.status)
  {
    if run == [] {
      assert InStep(PhaseOf(l), l.status) || Torn(PhaseOf(l), l.status);
    } else {
      var init := run[..|run|-1];
      assert forall k :: 0 <= k < |init| ==> init[k] == run[k];
      StuckForEver(l, init);
      RunsKeepOk(l, init);
      StuckStep(Replay(l, init), run[|run|-1]);
    }
  }

  // ----- the way out

  /** A job with a way out, on a machine that can read the binary it runs. */
  predicate Able(l: Local) {
    Ok(l) && Held(l) && CurrentStamp(l.disk).Some? && MayEnd(l)
  }

  /** What the controller has not been told yet does not stand in the way. */
  lemma AbleFacts(l: Local)
    requires Able(l)
    ensures l.disk.journal.value.manifest == l.release
    ensures PhaseOf(l) in {AtDownloading, AtVerifying} ==> l.status != RollingBack
    ensures PhaseOf(l) in {AtDownloading, AtVerifying, AtLocalHealthy} && l.status != RollingBack ==>
      !Terminal(l.status) && Accepts(l, Notice(NextReport(PhaseOf(l)).value, CurrentStamp(l.disk).value))
    ensures TerminalPhase(PhaseOf(l)) ==>
      Accepts(l, Notice(NextReport(PhaseOf(l)).value, CurrentStamp(l.disk).value))
  {
    if NextReport(PhaseOf(l)).Some? && !Torn(PhaseOf(l), l.status) {
      NextReportAccepted(l, Notice(NextReport(PhaseOf(l)).value, CurrentStamp(l.disk).value));
    }
  }

  /** What a stage leaves: a smaller phase with a way out, or the end. */
  predicate Advanced(l: Local, m: Local)
    requires Held(l)
  {
    CurrentStamp(m.disk).Some?
    && if Held(m) then MayEnd(m) && PhaseRank(PhaseOf(m)) < PhaseRank(PhaseOf(l))
       else m.disk.journal.None? && Terminal(m.status)
  }

  lemma StageHappens(l: Local) returns (run: seq<Event>)
    requires Able(l)
    ensures OwnRun(l, run) && Plain(run) && Advanced(l, Replay(l, run))
  {
    hide Replay, OwnRun, Plain, Ok, Advanced, CurrentStamp;
    match PhaseOf(l)
    case AtDownloading => run := DownloadHappens(l);
    case AtVerifying => run := VerifyHappens(l);
    case AtInstalling =>
      if l.status != RollingBack && Holds(l.disk.files, Candidate(l), l.release.sha256) {
        run := CandidateGoesIn(l);
      } else {
        run := TurnsBack(l);
      }
    case AtLocalHealthy =>
      if l.status != RollingBack {
        run := CheckHappens(l);
      } else {
        run := TurnsBack(l);
      }
    case AtChecking =>
      if l.status != RollingBack {
        run := SucceedHappens(l);
      } else {
        run := TurnsBack(l);
      }
    case AtRollingBack => run := RollBackHappens(l);
    case _ => run := FinishHappens(l);
  }

  lemma DownloadHappens(l: Local) returns (run: seq<Event>)
    requires Able(l) && PhaseOf(l) == AtDownloading
    ensures OwnRun(l, run) && Plain(run) && Advanced(l, Replay(l, run))
  {
    AbleFacts(l);
    hide Ok;
    run := Then(l, [], Fetch);
    run := Exchange(l, run, Verifying, AtVerifying);
  }

  lemma VerifyHappens(l: Local) returns (run: seq<Event>)
    requires Able(l) && PhaseOf(l) == AtVerifying
    ensures OwnRun(l, run) && Plain(run) && Advanced(l, Replay(l, run))
  {
    AbleFacts(l);
    hide Ok, Accepts;
    if Holds(l.disk.files, Candidate(l), l.release.sha256) {
      run := Exchange(l, [], Installing, AtInstalling);
    } else {
      run := SaveHappens(l, AtFailed);
    }
  }

  lemma CheckHappens(l: Local) returns (run: seq<Event>)
    requires Able(l) && PhaseOf(l) == AtLocalHealthy && l.status != RollingBack
    ensures OwnRun(l, run) && Plain(run) && Advanced(l, Replay(l, run))
  {
    AbleFacts(l);
    hide Ok, Accepts;
    run := Exchange(l, [], Checking, AtChecking);
  }

  lemma SucceedHappens(l: Local) returns (run: seq<Event>)
    requires Able(l) && PhaseOf(l) == AtChecking && l.status != RollingBack
    ensures OwnRun(l, run) && Plain(run) && Advanced(l, Replay(l, run))
  {
    hide Ok;
    run := SaveHappens(l, AtSucceeded);
  }

  function Saved(l: Local, to: Phase): Local
    requires Held(l)
  {
    l.(disk := l.disk.(journal := Some(l.disk.journal.value.(phase := to))))
  }

  lemma SaveHappens(l: Local, to: Phase) returns (run: seq<Event>)
    requires Held(l) && MaySave(l, to)
    ensures OwnRun(l, run) && Plain(run) && Replay(l, run) == Saved(l, to)
  {
    SaveLeaves(l, to);
    hide Next, MaySave, Saved;
    run := Then(l, [], Save(to));
  }

  lemma SaveLeaves(l: Local, to: Phase)
    requires Held(l) && MaySave(l, to)
    ensures Next(l, Save(to)) == Saved(l, to)
  {}

  /** The intent to roll back is journalled after all. */
  lemma TurnsBack(l: Local) returns (run: seq<Event>)
    requires Able(l) && PhaseOf(l) in {AtInstalling, AtLocalHealthy, AtChecking} && OldIsThere(l)
    ensures OwnRun(l, run) && Plain(run) && Advanced(l, Replay(l, run))
  {
    hide Ok, OwnRun, Plain;
    run := SaveHappens(l, AtRollingBack);
    hide Replay;
  }

  /** The machine after the link names `path` and current.json says `stamp`. */
  function Switched(l: Local, path: Path, stamp: Stamp, to: Phase): Local
    requires Held(l)
  {
    l.(disk := l.disk.(link := path, current := stamp, journal := Some(l.disk.journal.value.(phase := to))))
  }

  function Relinked(l: Local, path: Path): Local {
    l.(disk := l.disk.(link := path))
  }

  function Recorded(l: Local, stamp: Stamp): Local {
    l.(disk := l.disk.(current := stamp))
  }

  predicate Switchable(l: Local, path: Path, stamp: Stamp, to: Phase)
    requires Held(l)
  {
    && Enabled(l, Relink(path))
    && if PhaseOf(l) == AtInstalling then stamp == l.disk.journal.value.manifest && to == AtLocalHealthy
       else stamp == l.disk.journal.value.oldStamp && to == AtRolledBack
  }

  lemma RelinkLeaves(l: Local, path: Path, stamp: Stamp, to: Phase)
    requires Held(l) && Switchable(l, path, stamp, to)
    ensures Next(l, Relink(path)) == Relinked(l, path)
  {}

  lemma WriteLeaves(l: Local, path: Path, stamp: Stamp, to: Phase)
    requires Held(l) && Switchable(l, path, stamp, to)
    ensures Next(Relinked(l, path), WriteCurrent) == Recorded(Relinked(l, path), stamp)
  {}

  lemma MaySwitch(l: Local, path: Path, stamp: Stamp, to: Phase)
    requires Held(l) && Switchable(l, path, stamp, to)
    ensures MaySave(Recorded(Relinked(l, path), stamp), to)
    ensures Saved(Recorded(Relinked(l, path), stamp), to) == Switched(l, path, stamp, to)
  {}

  /** Link, current.json, phase. */
  lemma SwitchHappens(l: Local, path: Path, stamp: Stamp, to: Phase) returns (run: seq<Event>)
    requires Held(l) && Switchable(l, path, stamp, to)
    ensures OwnRun(l, run) && Plain(run) && Replay(l, run) == Switched(l, path, stamp, to)
  {
    RelinkLeaves(l, path, stamp, to);
    WriteLeaves(l, path, stamp, to);
    MaySwitch(l, path, stamp, to);
    SaveLeaves(Recorded(Relinked(l, path), stamp), to);
    hide Next, MaySave, Switchable, Saved, Switched;
    run := Then(l, [], Relink(path));
    run := Then(l, run, WriteCurrent);
    run := Then(l, run, Save(to));
  }

  lemma CandidateGoesIn(l: Local) returns (run: seq<Event>)
    requires Able(l) && PhaseOf(l) == AtInstalling && l.status != RollingBack
    requires Holds(l.disk.files, Candidate(l), l.release.sha256)
    ensures OwnRun(l, run) && Plain(run) && Advanced(l, Replay(l, run))
  {
    hide Ok, OwnRun, Plain, Replay, Next;
    run := SwitchHappens(l, Candidate(l), l.disk.journal.value.manifest, AtLocalHealthy);
  }

  lemma RollBackHappens(l: Local) returns (run: seq<Event>)
    requires Able(l) && PhaseOf(l) == AtRollingBack
    ensures OwnRun(l, run) && Plain(run) && Advanced(l, Replay(l, run))
  {
    hide Ok, OwnRun, Plain, Replay, Next;
    run := SwitchHappens(l, l.disk.journal.value.oldPath, l.disk.journal.value.oldStamp, AtRolledBack);
  }

  function Posted(l: Local, n: Notice): Local {
    l.(sent := l.sent + {n})
  }

  function Answered(l: Local, n: Notice): Local {
    l.(status := n.status, accepted := l.accepted + {n.status})
  }

  lemma LastReportLeaves(l: Local, n: Notice)
    requires Held(l) && TerminalPhase(PhaseOf(l)) && NextReport(PhaseOf(l)) == Some(n.status)
    requires CurrentStamp(l.disk) == Some(n.stamp) && Accepts(l, n)
    ensures Next(l, Send(n.status)) == Posted(l, n) && Held(Posted(l, n))
    ensures Next(Posted(l, n), Deliver(n)) == Answered(Posted(l, n), n)
  {
    assert Accepts(Posted(l, n), n) && n in Posted(l, n).sent;
  }

  lemma LastReportHappens(l: Local) returns (run: seq<Event>)
    requires Able(l) && TerminalPhase(PhaseOf(l))
    ensures OwnRun(l, run) && Plain(run)
    ensures var m, s := Replay(l, run), NextReport(PhaseOf(l)).value;
      m.disk == l.disk && m.id == l.id && m.status == s && s in m.accepted
  {
    var n := Notice(NextReport(PhaseOf(l)).value, CurrentStamp(l.disk).value);
    AbleFacts(l);
    LastReportLeaves(l, n);
    assert Answered(Posted(l, n), n).disk == l.disk && Answered(Posted(l, n), n).id == l.id;
    assert Answered(Posted(l, n), n).status == n.status && n.status in Answered(Posted(l, n), n).accepted;
    hide Ok, MayEnd, Accepts, Next, Posted, Answered;
    run := Then(l, [], Send(n.status));
    run := Then(l, run, Deliver(n));
  }

  lemma FinishHappens(l: Local) returns (run: seq<Event>)
    requires Able(l) && TerminalPhase(PhaseOf(l))
    ensures OwnRun(l, run) && Plain(run) && Advanced(l, Replay(l, run))
  {
    run := LastReportHappens(l);
    ClearLeaves(Replay(l, run));
    hide Ok, MayEnd, Next;
    run := Then(l, run, WriteReceipt);
    run := Then(l, run, Clear);
    hide OwnRun, Plain, Replay;
  }

  lemma ClearLeaves(l: Local)
    requires Held(l) && TerminalPhase(PhaseOf(l)) && NextReport(PhaseOf(l)).value in l.accepted
    ensures var m := Next(l, WriteReceipt);
      && Held(m) && Next(m, Clear) == l.(disk := l.disk.(receipts := l.disk.receipts + {l.id}, journal := None))
  {}

  /** From every state with a way out there is a run to the end: the job is over on both machines and the
      journal is gone. */
  lemma {:induction false} EndHappens(l: Local) returns (run: seq<Event>)
    requires Able(l)
    ensures OwnRun(l, run) && Plain(run)
    ensures var m := Replay(l, run); m.disk.journal.None? && CurrentStamp(m.disk).Some? && Terminal(m.status)
    decreases PhaseRank(PhaseOf(l))
  {
    run := StageHappens(l);
    var m := Replay(l, run);
    if Held(m) {
      RunsKeepOk(l, run);
      var rest := EndHappens(m);
      ReplayJoins(l, run, rest);
      run := run + rest;
    }
  }

  // ----- exactly when

  /** Some run of the machine's own, in which no file comes back by itself, ends the job. */
  ghost predicate CanEnd(l: Local) {
    exists run :: OwnRun(l, run) && Unaided(run) && Ended(Replay(l, run))
  }

  predicate Unaided(run: seq<Event>) {
    forall k :: 0 <= k < |run| ==> !run[k].Decay?
  }

  /** On a machine that can read the binary it runs, a job it holds can end exactly when a way out is left,
      whatever was announced, lost or refused before. */
  lemma EndsIffAWayOutIsLeft(l: Local)
    requires Ok(l) && Held(l) && CurrentStamp(l.disk).Some?
    ensures CanEnd(l) <==> MayEnd(l)
  {
    if MayEnd(l) {
      var run := EndHappens(l);
      assert OwnRun(l, run) && Unaided(run) && Ended(Replay(l, run));
    }
    forall run | OwnRun(l, run) && Unaided(run) && Ended(Replay(l, run)) ensures MayEnd(l) {
      if !MayEnd(l) {
        StuckForEver(l, run);
      }
    }
  }

  /** With both binaries in place only a torn success is without a way out; and even files that come back
      do not give it one. */
  lemma OnlyTornSuccessIsStuck(l: Local)
    requires Ok(l) && Held(l) && CurrentStamp(l.disk).Some? && OldIsThere(l)
    ensures (exists run :: OwnRun(l, run) && Ended(Replay(l, run)))
            <==> !(PhaseOf(l) == AtSucceeded && l.status == RollingBack)
  {
    if PhaseOf(l) == AtSucceeded && l.status == RollingBack {
      forall run | OwnRun(l, run) ensures !Ended(Replay(l, run)) {
        TornSuccessIsForever(l, run);
      }
    } else {
      var run := EndHappens(l);
      assert OwnRun(l, run) && Ended(Replay(l, run));
    }
  }

  /** A tear before that: the check after the switch fails, the rollback cannot be journalled, its report
      arrives, and the candidate turns healthy after all. */
  lemma EarlyTearHappens(l: Local) returns (run: seq<Event>)
    requires TakenUp(l) && Ok(l)
    ensures OwnRun(l, run)
    ensures var m := Replay(l, run);
      Held(m) && PhaseOf(m) == AtLocalHealthy && m.status == RollingBack && Checking !in m.accepted
  {
    run := FetchHappens(l);
    RunsKeepOk(l, run);
    assert Checking !in Replay(l, run).accepted;
    hide Ok, Next;
    run := TearStep(l, run);
    var m := Replay(l, run);
    var rest := SwitchHappens(m, Candidate(m), m.disk.journal.value.manifest, AtLocalHealthy);
    ReplayJoins(l, run, rest);
    hide OwnRun, Plain, Replay;
    run := run + rest;
  }

  /** An early tear never becomes a success: CHECKING, not accepted before, is refused from then on, so the
      journal stays where it is or is rolled back. */
  lemma {:induction false} EarlyTearNeverSucceeds(l: Local, run: seq<Event>)
    requires Ok(l) && Held(l) && l.status in {RollingBack, RolledBack} && Checking !in l.accepted
    requires PhaseOf(l) in {AtInstalling, AtLocalHealthy, AtRollingBack, AtRolledBack}
    ensures var m := Replay(l, run);
      && m.status in {RollingBack, RolledBack} && Checking !in m.accepted
      && (Held(m) ==> PhaseOf(m) in {AtInstalling, AtLocalHealthy, AtRollingBack, AtRolledBack})
      && (!Held(m) ==> m.status == RolledBack)
  {
    if run != [] {
      var init := run[..|run|-1];
      EarlyTearNeverSucceeds(l, init);
      RunsKeepOk(l, init);
      EarlyTearStep(Replay(l, init), run[|run|-1]);
    }
  }

  lemma EarlyTearStep(l: Local, e: Event)
    requires Ok(l) && l.status in {RollingBack, RolledBack} && Checking !in l.accepted
    requires if Held(l) then PhaseOf(l) in {AtInstalling, AtLocalHealthy, AtRollingBack, AtRolledBack}
             else l.status == RolledBack
    ensures var m := Next(l, e);
      && m.status in {RollingBack, RolledBack} && Checking !in m.accepted
      && if Held(m) then PhaseOf(m) in {AtInstalling, AtLocalHealthy, AtRollingBack, AtRolledBack}
         else m.status == RolledBack
  {
    if e.Deliver? && Enabled(l, e) && Held(l) {
      assert MayBeUnderWay(PhaseOf(l), e.notice.status);
    }
  }
}
