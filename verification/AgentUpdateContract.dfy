/** The status table of one update job, as the controller checks it. */
module AgentUpdateContract {
  import opened Options

  datatype JobStatus =
    | Queued | Downloading | Verifying | Installing | Checking | RollingBack
    | Succeeded | RolledBack | Failed | Canceled

  predicate Terminal(s: JobStatus) {
    s.Succeeded? || s.RolledBack? || s.Failed? || s.Canceled?
  }

  predicate InFlight(s: JobStatus) {
    s.Downloading? || s.Verifying? || s.Installing? || s.Checking? || s.RollingBack?
  }

  /** The forward step a status allows, when it allows one. */
  function Successor(s: JobStatus): Option<JobStatus> {
    match s
    case Downloading => Some(Verifying)
    case Verifying => Some(Installing)
    case Installing => Some(Checking)
    case Checking => Some(Succeeded)
    case _ => None
  }

  predicate CanReportUpdate(from: JobStatus, to: JobStatus) {
    if from == to then true
    else if Terminal(from) then false
    else if to == RollingBack then from == Installing || from == Checking
    else if to == Failed || to == RolledBack then true
    else Successor(from) == Some(to)
  }

  /** Position of a status on the way from the queue to a terminal state. */
  function Rank(s: JobStatus): nat {
    match s
    case Queued => 0
    case Downloading => 1
    case Verifying => 2
    case Installing => 3
    case Checking => 4
    case RollingBack => 5
    case _ => 6
  }

  /** Which reports a job takes: the same status again; a step forward, of exactly one rank, to a status in
      flight; success only from CHECKING; a rollback once the candidate may have been installed; and failure
      or the end of a rollback at any time before the end. */
  lemma ReportTable(from: JobStatus, to: JobStatus)
    ensures CanReportUpdate(from, from)
    ensures Terminal(from) && to != from ==> !CanReportUpdate(from, to)
    ensures !Terminal(from) && to in {Failed, RolledBack} ==> CanReportUpdate(from, to)
    ensures from != to && to == RollingBack ==> (CanReportUpdate(from, to) <==> Rank(from) in {3, 4})
    ensures from != to && to == Succeeded ==> (CanReportUpdate(from, to) <==> from == Checking)
    ensures from != to && to in {Queued, Canceled} ==> !CanReportUpdate(from, to)
    ensures from != to && to in {Downloading, Verifying, Installing, Checking} ==>
              (CanReportUpdate(from, to) <==> 1 <= Rank(from) && Rank(to) == Rank(from) + 1)
    ensures Terminal(from) <==> from in {Succeeded, RolledBack, Failed, Canceled}
    ensures InFlight(from) <==> from in {Downloading, Verifying, Installing, Checking, RollingBack}
    ensures Rank(Downloading) == 1 && Rank(Verifying) == 2 && Rank(Installing) == 3 && Rank(Checking) == 4
  {}

  /** What one report leaves behind: a refused report, or one on a terminal job, changes nothing. */
  function Reported(from: JobStatus, to: JobStatus): JobStatus {
    if from == Queued || !CanReportUpdate(from, to) then from else to
  }

  function AfterReports(from: JobStatus, reports: seq<JobStatus>): JobStatus {
    if reports == [] then from
    else Reported(AfterReports(from, reports[..|reports|-1]), reports[|reports|-1])
  }

  /** Whatever an updater reports, in any order and any number of times, a job only moves
      towards a terminal state: it never returns to a status it has left. */
  lemma {:induction false} ReportsNeverGoBack(from: JobStatus, reports: seq<JobStatus>, k: nat)
    requires k <= |reports|
    ensures var mid, end := AfterReports(from, reports[..k]), AfterReports(from, reports);
            (end == mid || Rank(mid) < Rank(end)) && (Terminal(mid) ==> end == mid)
  {
    if k == |reports| {
      assert reports[..k] == reports;
    } else {
      var init := reports[..|reports|-1];
      ReportsNeverGoBack(from, init, k);
      assert init[..k] == reports[..k];
    }
  }
}
