/** Campaign mail: jobs confirmed, paused and canceled by administrators, and their deliveries claimed and
    handed to the mail server by any number of workers, each of which may stop at any point. */
module CampaignMail {
  datatype JobState = Draft | Queued | Paused | Canceled | Completed

  datatype DeliveryState = Pending | Sending | Sent | Failed | Unknown | Skipped

  datatype Delivery = Delivery(job: string, state: DeliveryState)

  /** What a worker is in the middle of: the delivery it claimed, and whether it was handed over. */
  datatype Hold = Hold(delivery: string, handed: bool)

  /** The last field is history: how often each delivery was handed to the mail server. */
  datatype Mail = Mail(
    jobs: map<string, JobState>,
    deliveries: map<string, Delivery>,
    holds: map<nat, Hold>,
    handed: map<string, nat>)

  datatype Event =
    | Preview(job: string, recipients: set<string>)
    | Queue(job: string, seen: JobState)
    | Cancel(job: string)
    | GiveUp(stale: set<string>)                           // sending for ten minutes: the result is unknown
    | PauseAll                                             // the mail server is not configured
    | Claim(worker: nat, delivery: string)
    | Skip(worker: nat)                                    // the recipient is gone or opted out
    | Refuse(worker: nat, pause: bool)                     // rejected before it reached the mail server
    | Hand(worker: nat)
    | Fail(worker: nat, definite: bool, pause: bool)
    | Deliver(worker: nat)
    | Stop(worker: nat)                                    // the worker stops, or its write fails
    | Complete

  function Handed(m: Mail, d: string): nat {
    if d in m.handed then m.handed[d] else 0
  }

  predicate Enabled(m: Mail, e: Event) {
    match e
    case Preview(job, recipients) => job !in m.jobs && recipients !! m.deliveries.Keys
    case Queue(job, seen) => job in m.jobs && m.jobs[job] == seen && seen in {Draft, Paused}
    case Cancel(job) => job in m.jobs && m.jobs[job] in {Draft, Queued, Paused}
    case GiveUp(_) => true
    case PauseAll => true
    case Claim(worker, d) => worker !in m.holds && MayClaim(m, d)
    case Skip(worker) => worker in m.holds && !m.holds[worker].handed
    case Refuse(worker, _) => worker in m.holds && !m.holds[worker].handed
    case Hand(worker) => worker in m.holds && !m.holds[worker].handed
    case Fail(worker, _, _) => worker in m.holds && m.holds[worker].handed
    case Deliver(worker) => worker in m.holds && m.holds[worker].handed
    case Stop(worker) => worker in m.holds
    case Complete => true
  }

  predicate MayClaim(m: Mail, d: string) {
    d in m.deliveries && m.deliveries[d].state == Pending
    && m.deliveries[d].job in m.jobs && m.jobs[m.deliveries[d].job] == Queued
  }

  function Set(m: Mail, d: string, state: DeliveryState): map<string, Delivery> {
    if d in m.deliveries then m.deliveries[d := m.deliveries[d].(state := state)] else m.deliveries
  }

  /** The worker writes the outcome whatever the delivery's state is by now, and is free again. */
  function Settle(m: Mail, worker: nat, state: DeliveryState): Mail
    requires worker in m.holds
  {
    m.(deliveries := Set(m, m.holds[worker].delivery, state), holds := m.holds - {worker})
  }

  function PauseJob(jobs: map<string, JobState>, job: string): map<string, JobState> {
    if job in jobs && jobs[job] == Queued then jobs[job := Paused] else jobs
  }

  function JobOf(m: Mail, d: string): string {
    if d in m.deliveries then m.deliveries[d].job else ""
  }

  function SettleAndPause(m: Mail, worker: nat, state: DeliveryState, pause: bool): Mail
    requires worker in m.holds
  {
    var s := Settle(m, worker, state);
    if pause then s.(jobs := PauseJob(s.jobs, JobOf(m, m.holds[worker].delivery))) else s
  }

  predicate Outstanding(m: Mail, job: string) {
    exists d :: d in m.deliveries && m.deliveries[d].job == job && m.deliveries[d].state in {Pending, Sending}
  }

  function Effect(m: Mail, e: Event): Mail
    requires Enabled(m, e)
  {
    match e
    case Preview(job, recipients) =>
      m.(jobs := m.jobs[job := Draft],
         deliveries := m.deliveries + map d | d in recipients :: Delivery(job, Pending))
    case Queue(job, _) => m.(jobs := m.jobs[job := Queued])
    case Cancel(job) =>
      m.(jobs := m.jobs[job := Canceled],
         deliveries := map d | d in m.deliveries ::
           if m.deliveries[d] == Delivery(job, Pending) then Delivery(job, Skipped) else m.deliveries[d])
    case GiveUp(stale) =>
      m.(deliveries := map d | d in m.deliveries ::
           if d in stale && m.deliveries[d].state == Sending then m.deliveries[d].(state := Unknown)
           else m.deliveries[d])
    case PauseAll => m.(jobs := map job | job in m.jobs :: if m.jobs[job] == Queued then Paused else m.jobs[job])
    case Claim(worker, d) => m.(deliveries := Set(m, d, Sending), holds := m.holds[worker := Hold(d, false)])
    case Skip(worker) => Settle(m, worker, Skipped)
    case Refuse(worker, pause) => SettleAndPause(m, worker, Failed, pause)
    case Hand(worker) =>
      var d := m.holds[worker].delivery;
      m.(holds := m.holds[worker := Hold(d, true)], handed := m.handed[d := Handed(m, d) + 1])
    case Fail(worker, definite, pause) => SettleAndPause(m, worker, if definite then Failed else Unknown, pause)
    case Deliver(worker) => Settle(m, worker, Sent)
    case Stop(worker) => m.(holds := m.holds - {worker})
    case Complete =>
      m.(jobs := map job | job in m.jobs ::
           if m.jobs[job] == Queued && !Outstanding(m, job) then Completed else m.jobs[job])
  }

  function Next(m: Mail, e: Event): Mail {
    if Enabled(m, e) then Effect(m, e) else m
  }

  function Replay(m: Mail, run: seq<Event>): Mail {
    if run == [] then m else Next(Replay(m, run[..|run|-1]), run[|run|-1])
  }

  /** What the recorded state of a delivery says about the mail server. */
  predicate DeliveryOk(m: Mail, d: string) {
    if d !in m.deliveries then Handed(m, d) == 0
    else
      var s, job := m.deliveries[d].state, m.deliveries[d].job;
      && Handed(m, d) <= 1
      && (s in {Pending, Skipped} ==> Handed(m, d) == 0)
      && (s == Sent ==> Handed(m, d) == 1)
      && job in m.jobs
      && (m.jobs[job] == Canceled ==> s != Pending)
      && (m.jobs[job] == Completed ==> s !in {Pending, Sending})
  }

  predicate HoldOk(m: Mail, worker: nat)
    requires worker in m.holds
  {
    var h := m.holds[worker];
    h.delivery in m.deliveries && m.deliveries[h.delivery].state in {Sending, Unknown}
    && Handed(m, h.delivery) == if h.handed then 1 else 0
  }

  ghost predicate HeldOnce(m: Mail) {
    forall v, w :: v in m.holds && w in m.holds && v != w ==> m.holds[v].delivery != m.holds[w].delivery
  }

  ghost predicate Ok(m: Mail) {
    && (forall d :: DeliveryOk(m, d))
    && (forall worker :: worker in m.holds ==> HoldOk(m, worker))
    && HeldOnce(m)
  }

  lemma SettleKeeps(m: Mail, worker: nat, state: DeliveryState, pause: bool)
    requires Ok(m) && worker in m.holds && state in {Skipped, Failed, Unknown, Sent}
    requires (state == Skipped ==> !m.holds[worker].handed) && (state == Sent ==> m.holds[worker].handed)
    ensures Ok(SettleAndPause(m, worker, state, pause))
  {
    var n, held := SettleAndPause(m, worker, state, pause), m.holds[worker].delivery;
    assert HoldOk(m, worker);
    forall d ensures DeliveryOk(n, d) {
      assert DeliveryOk(m, d);
    }
    forall w | w in n.holds ensures HoldOk(n, w) {
      assert HoldOk(m, w);
      assert m.holds[w].delivery != held;
    }
  }

  lemma ClaimKeeps(m: Mail, worker: nat, d: string)
    requires Ok(m) && Enabled(m, Claim(worker, d))
    ensures Ok(Next(m, Claim(worker, d)))
  {
    var n := Next(m, Claim(worker, d));
    assert DeliveryOk(m, d);
    forall x ensures DeliveryOk(n, x) {
      assert DeliveryOk(m, x);
    }
    forall w | w in n.holds ensures HoldOk(n, w) {
      if w != worker {
        assert HoldOk(m, w);
      }
    }
    forall v, w | v in n.holds && w in n.holds && v != w ensures n.holds[v].delivery != n.holds[w].delivery {
      assert v != worker ==> HoldOk(m, v);
      assert w != worker ==> HoldOk(m, w);
    }
  }

  lemma HandKeeps(m: Mail, worker: nat)
    requires Ok(m) && Enabled(m, Hand(worker))
    ensures Ok(Next(m, Hand(worker)))
  {
    var n, held := Next(m, Hand(worker)), m.holds[worker].delivery;
    assert HoldOk(m, worker);
    forall d ensures DeliveryOk(n, d) {
      assert DeliveryOk(m, d);
    }
    forall w | w in n.holds ensures HoldOk(n, w) {
      assert HoldOk(m, w);
      assert w != worker ==> m.holds[w].delivery != held;
    }
  }

  /** Administrators, and what a run of the worker does to many rows at once. */
  lemma OthersKeep(m: Mail, e: Event)
    requires Ok(m) && Enabled(m, e)
    requires e.Queue? || e.Cancel? || e.GiveUp? || e.PauseAll? || e.Complete? || e.Stop? || e.Preview?
    ensures Ok(Next(m, e))
  {
    var n := Next(m, e);
    forall d ensures DeliveryOk(n, d) {
      assert DeliveryOk(m, d);
      assert d in m.deliveries ==> n.deliveries[d].job == m.deliveries[d].job;
    }
    forall w | w in n.holds ensures HoldOk(n, w) {
      assert HoldOk(m, w);
    }
  }

  lemma NextKeeps(m: Mail, e: Event)
    requires Ok(m)
    ensures Ok(Next(m, e))
  {
    if Enabled(m, e) {
      match e
      case Claim(worker, d) => ClaimKeeps(m, worker, d);
      case Hand(worker) => HandKeeps(m, worker);
      case Skip(worker) => SettleKeeps(m, worker, Skipped, false);
      case Refuse(worker, pause) => SettleKeeps(m, worker, Failed, pause);
      case Fail(worker, definite, pause) => SettleKeeps(m, worker, if definite then Failed else Unknown, pause);
      case Deliver(worker) => SettleKeeps(m, worker, Sent, false);
      case _ => OthersKeep(m, e);
    }
  }

  predicate Initial(m: Mail) {
    m.jobs == map[] && m.deliveries == map[] && m.holds == map[] && m.handed == map[]
  }

  lemma {:induction false} RunsKeepOk(m: Mail, run: seq<Event>)
    requires Ok(m)
    ensures Ok(Replay(m, run))
    decreases |run|
  {
    if run != [] {
      RunsKeepOk(m, run[..|run|-1]);
      NextKeeps(Replay(m, run[..|run|-1]), run[|run|-1]);
    }
  }

  /** Over every run of any workers and administrators: no delivery is handed over twice; one that is
      pending or skipped never was, one recorded as sent was; and a finished job has none left to send. */
  lemma NothingIsSentTwice(m: Mail, run: seq<Event>, d: string)
    requires Initial(m)
    ensures var now := Replay(m, run);
            && Handed(now, d) <= 1
            && (d in now.deliveries ==>
                  var delivery := now.deliveries[d];
                  && (delivery.state in {Pending, Skipped} ==> Handed(now, d) == 0)
                  && (delivery.state == Sent ==> Handed(now, d) == 1)
                  && delivery.job in now.jobs
                  && (now.jobs[delivery.job] == Completed ==> delivery.state !in {Pending, Sending})
                  && (now.jobs[delivery.job] == Canceled ==> delivery.state != Pending))
  {
    RunsKeepOk(m, run);
    assert DeliveryOk(Replay(m, run), d);
  }

  /** A job is finished for good. */
  predicate Finished(m: Mail, job: string) {
    job in m.jobs && m.jobs[job] in {Canceled, Completed}
  }

  predicate HeldUnsent(m: Mail, d: string) {
    exists worker :: worker in m.holds && m.holds[worker] == Hold(d, false)
  }

  predicate Over(m: Mail, d: string) {
    d in m.deliveries && Finished(m, m.deliveries[d].job) && !HeldUnsent(m, d)
  }

  /** Only a claim puts an unsent delivery in a worker's hands, and a finished job has none to claim. */
  lemma NoneIsTaken(m: Mail, e: Event, d: string)
    requires d in m.deliveries && Finished(m, m.deliveries[d].job)
    ensures HeldUnsent(Next(m, e), d) ==> HeldUnsent(m, d)
  {
    var n := Next(m, e);
    forall worker | worker in n.holds && n.holds[worker] == Hold(d, false)
      ensures worker in m.holds && m.holds[worker] == Hold(d, false)
    {}
  }

  lemma OverStays(m: Mail, e: Event, d: string)
    requires Ok(m) && Over(m, d)
    ensures Over(Next(m, e), d)
  {
    NoneIsTaken(m, e, d);
    hide HeldUnsent;
    var n := Next(m, e);
    assert DeliveryOk(m, d);
    assert d in n.deliveries && n.deliveries[d].job == m.deliveries[d].job;
  }

  lemma OverIsNotHanded(m: Mail, e: Event, d: string)
    requires Over(m, d)
    ensures Handed(Next(m, e), d) == Handed(m, d)
  {
    if Enabled(m, e) && e.Hand? {
      assert m.holds[e.worker] == Hold(m.holds[e.worker].delivery, false);
    }
  }

  /** Canceling works at once, but for what a worker has in hand: after a job is finished none of its
      deliveries is handed over any more, unless a worker had claimed it and not handed it over yet. */
  lemma {:induction false} FinishedJobsSendNoMore(m: Mail, run: seq<Event>, more: seq<Event>, d: string)
    requires Initial(m) && Over(Replay(m, run), d)
    ensures Over(Replay(Replay(m, run), more), d)
    ensures Handed(Replay(Replay(m, run), more), d) == Handed(Replay(m, run), d)
    decreases |more|
  {
    RunsKeepOk(m, run);
    if more != [] {
      FinishedJobsSendNoMore(m, run, more[..|more|-1], d);
      RunsKeepOk(Replay(m, run), more[..|more|-1]);
      OverStays(Replay(Replay(m, run), more[..|more|-1]), more[|more|-1], d);
      OverIsNotHanded(Replay(Replay(m, run), more[..|more|-1]), more[|more|-1], d);
    }
  }

  /** The order of ids. */
  predicate Below(a: string, b: string) {
    b != "" && (a == "" || a[0] < b[0] || (a[0] == b[0] && Below(a[1..], b[1..])))
  }

  lemma {:induction false} BelowIsTotal(a: string, b: string)
    requires a != b
    ensures Below(a, b) || Below(b, a)
  {
    if a != "" && b != "" && a[0] == b[0] {
      assert a == [a[0]] + a[1..] && b == [b[0]] + b[1..];
      BelowIsTotal(a[1..], b[1..]);
    }
  }

  lemma {:induction false} BelowIsTransitive(a: string, b: string, c: string)
    requires Below(a, b) && Below(b, c)
    ensures Below(a, c)
  {
    if a != "" && a[0] == b[0] == c[0] {
      BelowIsTransitive(a[1..], b[1..], c[1..]);
    }
  }

  /** Two ids are compared at the first place where they differ; a beginning comes before the whole. */
  lemma {:induction false} BelowIs(a: string, b: string, k: nat)
    requires k <= |a| && k <= |b| && a[..k] == b[..k]
    ensures k < |a| && k < |b| && a[k] != b[k] ==> (Below(a, b) <==> a[k] < b[k])
    ensures k == |a| ==> (Below(a, b) <==> k < |b|)
  {
    if k > 0 {
      assert a[0] == a[..k][0] == b[..k][0] == b[0];
      assert a[1..][..k - 1] == a[..k][1..] == b[..k][1..] == b[1..][..k - 1];
      BelowIs(a[1..], b[1..], k - 1);
    }
  }

  method Least(ids: set<string>) returns (least: string)
    requires ids != {}
    ensures least in ids && forall x :: x in ids && x != least ==> Below(least, x)
  {
    least :| least in ids;
    var rest := ids - {least};
    while rest != {}
      invariant rest <= ids && least in ids && least !in rest
      invariant forall x :: x in ids && x !in rest && x != least ==> Below(least, x)
      decreases |rest|
    {
      var d :| d in rest;
      rest := rest - {d};
      if Below(d, least) {
        forall x | x in ids && x !in rest && x != d ensures Below(d, x) {
          if x != least { BelowIsTransitive(d, least, x); }
        }
        least := d;
      } else {
        BelowIsTotal(d, least);
      }
    }
  }

  /** The worker whose step this is. */
  predicate StepOf(worker: nat, e: Event) {
    match e
    case Claim(w, _) => w == worker
    case Skip(w) => w == worker
    case Refuse(w, _) => w == worker
    case Hand(w) => w == worker
    case Fail(w, _, _) => w == worker
    case Deliver(w) => w == worker
    case Stop(w) => w == worker
    case _ => false
  }

  lemma OthersLeaveTheHold(m: Mail, e: Event, worker: nat)
    requires !StepOf(worker, e)
    ensures worker in Next(m, e).holds <==> worker in m.holds
    ensures worker in m.holds ==> Next(m, e).holds[worker] == m.holds[worker]
  {}

  /** How often a worker tries to hand something over in a run. */
  function Hands(worker: nat, run: seq<Event>): nat {
    if run == [] then 0 else Hands(worker, run[..|run|-1]) + if run[|run|-1] == Hand(worker) then 1 else 0
  }

  /** What the surroundings answer about one claimed delivery: the recipient is gone or opted out, the message
      was rejected before it reached the mail server, it was handed over and failed there, or was accepted. */
  datatype Answer = Gone | Rejected(pause: bool) | Lost(definite: bool, pause: bool) | Accepted

  function OutcomeOf(a: Answer): DeliveryState {
    match a
    case Gone => Skipped
    case Rejected(_) => Failed
    case Lost(definite, _) => if definite then Failed else Unknown
    case Accepted => Sent
  }

  predicate Is(jobs: map<string, JobState>, job: string, state: JobState) {
    job in jobs && jobs[job] == state
  }

  predicate Reaches(a: Answer) {
    a.Lost? || a.Accepted?
  }

  predicate Pauses(a: Answer) {
    (a.Rejected? || a.Lost?) && a.pause
  }

  /** The stored state after a claimable delivery was answered and nothing else happened. */
  function Answered(m: Mail, d: string, a: Answer): Mail
    requires MayClaim(m, d)
  {
    var delivery := m.deliveries[d];
    m.(deliveries := m.deliveries[d := delivery.(state := OutcomeOf(a))],
       jobs := if Pauses(a) then m.jobs[delivery.job := Paused] else m.jobs,
       handed := if Reaches(a) then m.handed[d := Handed(m, d) + 1] else m.handed)
  }

  function GivenUp(m: Mail, stale: set<string>): Mail {
    m.(deliveries := map d | d in m.deliveries ::
         if d in stale && m.deliveries[d].state == Sending then m.deliveries[d].(state := Unknown)
         else m.deliveries[d])
  }

  /** Of the jobs before, exactly the queued ones without a pending or sending delivery are completed. */
  ghost predicate Drained(before: map<string, JobState>, deliveries: map<string, Delivery>,
                          after: map<string, JobState>) {
    && after.Keys == before.Keys
    && forall job :: job in before ==>
         after[job] == if before[job] == Queued
                          && forall d :: d in deliveries && deliveries[d].job == job ==>
                               deliveries[d].state != Pending && deliveries[d].state != Sending
                       then Completed else before[job]
  }

  /** The first five claimable deliveries in the order of ids, or all of them when there are fewer. */
  ghost predicate FirstFive(m: Mail, found: seq<string>) {
    && |found| <= 5
    && (forall k :: 0 <= k < |found| ==> MayClaim(m, found[k]))
    && (forall x, y :: 0 <= x < y < |found| ==> Below(found[x], found[y]))
    && (forall d :: MayClaim(m, d) && d !in found ==> |found| == 5 && Below(found[4], d))
  }

  lemma {:induction false} BelowIsStrict(a: string)
    ensures !Below(a, a)
  {
    if a != "" { BelowIsStrict(a[1..]); }
  }

  predicate AnsweredAs(m: Mail, n: Mail, d: string, a: Answer) {
    && d in m.deliveries && d in n.deliveries
    && n.deliveries[d] == m.deliveries[d].(state := OutcomeOf(a))
    && Handed(n, d) == Handed(m, d) + if Reaches(a) then 1 else 0
  }

  predicate LeftAlone(m: Mail, n: Mail, d: string) {
    && (d in m.deliveries <==> d in n.deliveries)
    && (d in m.deliveries ==> n.deliveries[d] == m.deliveries[d])
    && Handed(n, d) == Handed(m, d)
  }

  /** The first deliveries found were answered like this, and nothing else happened. */
  ghost predicate Processed(m: Mail, n: Mail, found: seq<string>, answers: seq<Answer>) {
    && |answers| <= |found| && n.holds == m.holds
    && (forall k :: 0 <= k < |answers| ==> AnsweredAs(m, n, found[k], answers[k]))
    && (forall d :: d !in found[..|answers|] ==> LeftAlone(m, n, d))
    && (forall k :: 0 <= k < |answers| - 1 ==> !Pauses(answers[k]))
    && n.jobs == if answers != [] && Pauses(answers[|answers| - 1])
                 then m.jobs[JobOf(m, found[|answers| - 1]) := Paused]
                 else m.jobs
  }

  lemma GivingUpKeepsPending(m: Mail, stale: set<string>, found: seq<string>)
    ensures FirstFive(GivenUp(m, stale), found) <==> FirstFive(m, found)
  {
    assert forall d :: MayClaim(GivenUp(m, stale), d) <==> MayClaim(m, d);
  }

  /** No pending delivery of a queued job is passed over while there is room in a run. */
  lemma PendingIsFound(m: Mail, found: seq<string>, d: string)
    requires FirstFive(m, found)
    requires d in m.deliveries && m.deliveries[d].state == Pending
    requires m.deliveries[d].job in m.jobs && m.jobs[m.deliveries[d].job] == Queued
    ensures d in found || (|found| == 5 && forall k :: 0 <= k < 5 ==> found[k] != d && Below(found[k], d))
  {
    if d !in found {
      forall k | 0 <= k < 5 ensures Below(found[k], d) {
        if k < 4 { BelowIsTransitive(found[k], found[4], d); }
      }
    }
  }

  lemma FoundOnce(m: Mail, found: seq<string>)
    requires FirstFive(m, found)
    ensures forall x, y :: 0 <= x < y < |found| ==> found[x] != found[y]
    ensures forall k :: 0 <= k < |found| ==> MayClaim(m, found[k])
  {
    forall x, y | 0 <= x < y < |found| ensures found[x] != found[y] {
      BelowIsStrict(found[x]);
    }
  }

  lemma AnsweredOnly(n: Mail, d: string, a: Answer, x: string)
    requires MayClaim(n, d)
    ensures x == d ==> AnsweredAs(n, Answered(n, d, a), d, a)
    ensures x != d ==> LeftAlone(n, Answered(n, d, a), x)
  {}

  lemma NothingProcessed(m: Mail, found: seq<string>)
    ensures Processed(m, m, found, [])
  {}

  lemma NextIsClaimable(m: Mail, n: Mail, found: seq<string>, answers: seq<Answer>)
    requires FirstFive(m, found) && Processed(m, n, found, answers) && |answers| < |found|
    requires answers != [] ==> !Pauses(answers[|answers| - 1])
    ensures MayClaim(n, found[|answers|])
  {
    FoundOnce(m, found);
    assert LeftAlone(m, n, found[|answers|]);
  }

  /** One more of the deliveries found is answered. */
  lemma OneMoreProcessed(m: Mail, n: Mail, found: seq<string>, answers: seq<Answer>, a: Answer)
    requires FirstFive(m, found) && Processed(m, n, found, answers) && |answers| < |found|
    requires answers != [] ==> !Pauses(answers[|answers| - 1])
    ensures MayClaim(n, found[|answers|])
    ensures Processed(m, Answered(n, found[|answers|], a), found, answers + [a])
  {
    FoundOnce(m, found);
    hide FirstFive, OutcomeOf, Reaches;
    var d, all := found[|answers|], answers + [a];
    assert found[..|all|] == found[..|answers|] + [d];
    assert LeftAlone(m, n, d);
    var next := Answered(n, d, a);
    assert next.holds == m.holds && next.jobs == if Pauses(a) then m.jobs[JobOf(m, d) := Paused] else m.jobs;
    hide Answered;
    forall k | 0 <= k < |all| ensures AnsweredAs(m, next, found[k], all[k]) {
      AnsweredOnly(n, d, a, found[k]);
    }
    forall x | x !in found[..|all|] ensures LeftAlone(m, next, x) {
      AnsweredOnly(n, d, a, x);
    }
  }

  /** How a run goes on: with the message in the mail server's hands, with the next delivery, to its end,
      or not at all. */
  datatype Flow = Handing | GoOn | EndLoop | Crash

  /** The service in one process, among other processes and administrators. */
  class Service {
    const me: nat
    var jobs: map<string, JobState>
    var deliveries: map<string, Delivery>
    var holds: map<nat, Hold>
    var handed: map<string, nat>

    /** When set, nobody else acts, and the worker neither stops nor fails to write. */
    const calm: bool

    ghost const start: Mail
    ghost var log: seq<Event>
    ghost var answers: seq<Answer>   // every answer so far, in order; only Ask adds to it

    function View(): Mail
      reads this
    {
      Mail(jobs, deliveries, holds, handed)
    }

    ghost predicate Valid()
      reads this
    {
      Initial(start) && View() == Replay(start, log)
    }

    constructor (me: nat, calm: bool)
      ensures Valid() && this.me == me && this.calm == calm && me !in holds && log == [] && answers == []
    {
      this.me, this.calm, answers := me, calm, [];
      jobs, deliveries, holds, handed := map[], map[], map[], map[];
      start, log := Mail(map[], map[], map[], map[]), [];
    }

    ghost method Record(e: Event)
      requires Initial(start) && View() == Next(Replay(start, log), e)
      modifies this`log
      ensures Valid() && log == old(log) + [e]
      ensures Hands(me, log) == Hands(me, old(log)) + if e == Hand(me) then 1 else 0
    {
      assert (log + [e])[..|log|] == log;
      log := log + [e];
    }

    method Perform(e: Event)
      requires Valid() && !StepOf(me, e)
      modifies this`jobs, this`deliveries, this`holds, this`handed, this`log
      ensures Valid() && View() == Next(old(View()), e)
      ensures log == old(log) + [e] && Hands(me, log) == Hands(me, old(log))
      ensures (me in holds <==> me in old(holds)) && (me in holds ==> holds[me] == old(holds)[me])
    {
      OthersLeaveTheHold(View(), e, me);
      var m := Next(View(), e);
      jobs, deliveries, holds, handed := m.jobs, m.deliveries, m.holds, m.handed;
      Record(e);
    }

    /** Whatever the others do; what this worker holds stays as it is. */
    method Meanwhile()
      requires Valid()
      modifies this`jobs, this`deliveries, this`holds, this`handed, this`log
      ensures Valid() && old(log) <= log && Hands(me, log) == Hands(me, old(log))
      ensures calm ==> View() == old(View())
      ensures (me in holds <==> me in old(holds)) && (me in holds ==> holds[me] == old(holds)[me])
    {
      hide Replay, Next;
      var more: nat := *;
      while !calm && more > 0
        invariant calm ==> View() == old(View())
        invariant Valid() && old(log) <= log && Hands(me, log) == Hands(me, old(log))
        invariant (me in holds <==> me in old(holds)) && (me in holds ==> holds[me] == old(holds)[me])
      {
        var e: Event := *;
        if !StepOf(me, e) {
          Perform(e);
        }
        more := more - 1;
      }
    }

    /** queue: false when the preview is refused as too old; a job in any other state is left alone. */
    method QueueJob(job: string, tooOld: bool) returns (ok: bool, ghost queued: bool)
      requires Valid() && job in jobs
      modifies this`jobs, this`deliveries, this`holds, this`handed, this`log
      ensures Valid() && old(log) <= log
      ensures queued ==> job in jobs && jobs[job] == Queued
      ensures ok && old(jobs)[job] in {Draft, Paused} && !queued ==> job !in jobs || jobs[job] != old(jobs)[job]
      ensures queued ==> ok && old(jobs)[job] in {Draft, Paused}
      ensures !ok <==> tooOld && old(jobs)[job] == Draft
      ensures calm && ok && old(jobs)[job] in {Draft, Paused} ==>
                View() == old(View()).(jobs := old(jobs)[job := Queued])
      ensures (!ok || old(jobs)[job] !in {Draft, Paused}) ==> View() == old(View())
    {
      var seen := jobs[job];
      if seen !in {Draft, Paused} {
        return true, false;
      }
      if seen == Draft && tooOld {
        return false, false;
      }
      Meanwhile();
      queued := job in jobs && jobs[job] == seen;
      if job in jobs && jobs[job] == seen {
        jobs := jobs[job := Queued];
      }
      Record(Queue(job, seen));
      return true, queued;
    }

    /** cancel: the job and its pending deliveries in one transaction. */
    method CancelJob(job: string)
      requires Valid() && job in jobs
      modifies this`jobs, this`deliveries, this`log
      ensures Valid() && log == old(log) + [Cancel(job)]
      ensures old(jobs)[job] in {Draft, Queued, Paused} ==>
                jobs == old(jobs)[job := Canceled]
                && deliveries.Keys == old(deliveries).Keys
                && forall d :: d in deliveries ==>
                     deliveries[d] == if old(deliveries)[d] == Delivery(job, Pending) then Delivery(job, Skipped)
                                      else old(deliveries)[d]
      ensures old(jobs)[job] !in {Draft, Queued, Paused} ==> View() == old(View())
    {
      if jobs[job] in {Draft, Queued, Paused} {
        jobs := jobs[job := Canceled];
        deliveries := map d | d in deliveries ::
          if deliveries[d] == Delivery(job, Pending) then Delivery(job, Skipped) else deliveries[d];
      }
      Record(Cancel(job));
    }

    /** findMany: the five first deliveries, by id, that may be claimed as things stand. */
    method FindPending() returns (found: seq<string>)
      ensures FirstFive(View(), found)
    {
      found := [];
      var rest := set d | d in deliveries && MayClaim(View(), d);
      while rest != {} && |found| < 5
        invariant |found| <= 5
        invariant forall d :: MayClaim(View(), d) <==> d in found || d in rest
        invariant forall x, d :: 0 <= x < |found| && d in rest ==> Below(found[x], d)
        invariant forall x, y :: 0 <= x < y < |found| ==> Below(found[x], found[y])
        decreases |rest|
      {
        var d := Least(rest);
        rest := rest - {d};
        found := found + [d];
      }
    }

    /** updateMany on the delivery, while it is pending and its job is queued. */
    method ClaimDelivery(d: string) returns (ok: bool)
      requires Valid() && me !in holds
      modifies this`deliveries, this`holds, this`log
      ensures Valid() && log == old(log) + [Claim(me, d)] && Hands(me, log) == Hands(me, old(log))
      ensures ok <==> MayClaim(old(View()), d)
      ensures ok ==> deliveries == old(deliveries)[d := old(deliveries)[d].(state := Sending)]
      ensures ok ==> holds == old(holds)[me := Hold(d, false)]
      ensures !ok ==> View() == old(View())
    {
      ok := MayClaim(View(), d);
      if ok {
        deliveries := deliveries[d := deliveries[d].(state := Sending)];
        holds := holds[me := Hold(d, false)];
      }
      Record(Claim(me, d));
    }

    method HandOver()
      requires Valid() && me in holds && !holds[me].handed
      modifies this`holds, this`handed, this`log
      ensures Valid() && log == old(log) + [Hand(me)] && Hands(me, log) == Hands(me, old(log)) + 1
      ensures holds == old(holds)[me := Hold(old(holds)[me].delivery, true)]
      ensures var d := old(holds)[me].delivery; handed == old(handed)[d := Handed(old(View()), d) + 1]
    {
      var d := holds[me].delivery;
      handed := handed[d := Handed(View(), d) + 1];
      holds := holds[me := Hold(d, true)];
      Record(Hand(me));
    }

    /** The outcome is written whatever the row says by now; a bad mail server pauses the job. */
    method WriteOutcome(state: DeliveryState, pause: bool, ghost e: Event)
      requires Valid() && me in holds && Enabled(View(), e)
      requires Effect(View(), e) == SettleAndPause(View(), me, state, pause) && e != Hand(me)
      modifies this`jobs, this`deliveries, this`holds, this`log
      ensures Valid() && log == old(log) + [e] && Hands(me, log) == Hands(me, old(log))
      ensures holds == old(holds) - {me}
      ensures var d := old(holds)[me].delivery;
              && d in old(deliveries)
              && deliveries == old(deliveries)[d := old(deliveries)[d].(state := state)]
              && jobs == if pause && Is(old(jobs), old(deliveries)[d].job, Queued)
                         then old(jobs)[old(deliveries)[d].job := Paused]
                         else old(jobs)
    {
      HeldIsStored();
      var d := holds[me].delivery;
      var job := JobOf(View(), d);
      if d in deliveries {
        deliveries := deliveries[d := deliveries[d].(state := state)];
      }
      if pause && job in jobs && jobs[job] == Queued {
        jobs := jobs[job := Paused];
      }
      holds := holds - {me};
      Record(e);
    }

    lemma HeldIsStored()
      requires Valid() && me in holds
      ensures holds[me].delivery in deliveries
    {
      RunsKeepOk(start, log);
      assert HoldOk(View(), me);
    }

    /** The worker stops, or its next write fails: the row stays as it is. */
    method Abandon()
      requires Valid() && me in holds
      modifies this`holds, this`log
      ensures Valid() && log == old(log) + [Stop(me)] && Hands(me, log) == Hands(me, old(log))
      ensures holds == old(holds) - {me}
    {
      holds := holds - {me};
      Record(Stop(me));
    }

    /** The recipient is looked up and the message sent. */
    method Ask() returns (answer: Answer)
      modifies this`answers
      ensures answers == old(answers) + [answer]
    {
      answer := *;
      answers := answers + [answer];
    }

    /** The worker let go of what it held, with the answer written down: the outcome, and the pause it asks for. */
    predicate Settled(before: Mail, answer: Answer, flow: Flow)
      requires me in before.holds
      reads this
    {
      var d := before.holds[me].delivery;
      && d in before.deliveries && flow == (if Pauses(answer) then EndLoop else GoOn)
      && holds == before.holds - {me} && handed == before.handed
      && deliveries == before.deliveries[d := before.deliveries[d].(state := OutcomeOf(answer))]
      && jobs == if Pauses(answer) && Is(before.jobs, before.deliveries[d].job, Queued)
                 then before.jobs[before.deliveries[d].job := Paused]
                 else before.jobs
    }

    /** From the claim on, until the message is handed over. */
    method Prepare() returns (flow: Flow, answer: Answer)
      requires Valid() && me in holds && !holds[me].handed
      modifies this
      ensures Valid() && old(log) <= log
      ensures if flow == Crash then !calm && answers == old(answers) else answers == old(answers) + [answer]
      ensures Hands(me, log) == Hands(me, old(log)) + if flow == Handing then 1 else 0
      ensures flow == Handing ==>
                var d := old(holds)[me].delivery;
                && Reaches(answer) && jobs == old(jobs) && deliveries == old(deliveries)
                && holds == old(holds)[me := Hold(d, true)]
                && handed == old(handed)[d := Handed(old(View()), d) + 1]
      ensures flow == Crash ==> View() == old(View()).(holds := old(holds) - {me})
      ensures flow in {GoOn, EndLoop} ==> !Reaches(answer) && Settled(old(View()), answer, flow)
    {
      hide Replay, Hands;
      var stops: bool := *;
      if !calm && stops {
        answer := *;
        Abandon();
        return Crash, answer;
      }
      answer := Ask();
      if answer == Gone {
        WriteOutcome(Skipped, false, Skip(me));
        return GoOn, answer;
      }
      if answer.Rejected? {
        WriteOutcome(Failed, answer.pause, Refuse(me, answer.pause));
        return if answer.pause then EndLoop else GoOn, answer;
      }
      HandOver();
      return Handing, answer;
    }

    /** Once the message was handed over. */
    method Report(answer: Answer) returns (flow: Flow)
      requires Valid() && me in holds && holds[me].handed && Reaches(answer)
      modifies this`jobs, this`deliveries, this`holds, this`log
      ensures Valid() && old(log) <= log && Hands(me, log) == Hands(me, old(log))
      ensures flow == Crash ==> !calm && View() == old(View()).(holds := old(holds) - {me})
      ensures flow != Crash ==> Settled(old(View()), answer, flow)
    {
      hide Replay, Hands;
      var stops: bool := *;
      if !calm && stops {
        Abandon();
        return Crash;
      }
      if answer.Lost? {
        WriteOutcome(if answer.definite then Failed else Unknown, answer.pause,
                     Fail(me, answer.definite, answer.pause));
        return if answer.pause then EndLoop else GoOn;
      }
      WriteOutcome(Sent, false, Deliver(me));
      return GoOn;
    }

    /** One delivery, from the claim to its outcome. */
    method Process(d: string) returns (flow: Flow)
      requires Valid() && me !in holds
      modifies this
      ensures Valid() && me !in holds && old(log) <= log && Hands(me, log) <= Hands(me, old(log)) + 1
      ensures old(answers) <= answers && |answers| <= |old(answers)| + 1
      ensures Hands(me, log) > Hands(me, old(log)) || |answers| > |old(answers)| ==> MayClaim(old(View()), d)
      ensures flow != Crash && |answers| > |old(answers)| ==>
                var answer := answers[|old(answers)|];
                && d in deliveries && deliveries[d].state == OutcomeOf(answer)
                && Hands(me, log) == Hands(me, old(log)) + (if Reaches(answer) then 1 else 0)
                && (flow == EndLoop <==> Pauses(answer))
      ensures calm && !MayClaim(old(View()), d) ==> View() == old(View()) && answers == old(answers) && flow == GoOn
      ensures calm && MayClaim(old(View()), d) ==>
                && |answers| == |old(answers)| + 1
                && View() == Answered(old(View()), d, answers[|old(answers)|])
                && flow == if Pauses(answers[|old(answers)|]) then EndLoop else GoOn
    {
      hide Replay, Next, Effect, Hands;
      var claimed := ClaimDelivery(d);
      if !claimed {
        return GoOn;
      }
      Meanwhile();
      flow := Send();
    }

    /** From the claim to the outcome. */
    method Send() returns (flow: Flow)
      requires Valid() && me in holds && !holds[me].handed
      modifies this
      ensures Valid() && me !in holds && old(log) <= log && Hands(me, log) <= Hands(me, old(log)) + 1
      ensures if flow == Crash then !calm && old(answers) <= answers && |answers| <= |old(answers)| + 1
              else exists answer :: answers == old(answers) + [answer]
      ensures flow != Crash ==>
                var d, answer := old(holds)[me].delivery, answers[|old(answers)|];
                && d in deliveries && deliveries[d].state == OutcomeOf(answer)
                && Hands(me, log) == Hands(me, old(log)) + (if Reaches(answer) then 1 else 0)
                && flow == if Pauses(answer) then EndLoop else GoOn
      ensures calm ==>
                var d, answer := old(holds)[me].delivery, answers[|old(answers)|];
                && d in old(deliveries) && holds == old(holds) - {me}
                && deliveries == old(deliveries)[d := old(deliveries)[d].(state := OutcomeOf(answer))]
                && handed == (if Reaches(answer) then old(handed)[d := Handed(old(View()), d) + 1] else old(handed))
                && jobs == if Pauses(answer) && Is(old(jobs), old(deliveries)[d].job, Queued)
                           then old(jobs)[old(deliveries)[d].job := Paused]
                           else old(jobs)
    {
      hide Replay, Next, Effect, Hands, OutcomeOf, Pauses, Reaches, Is;
      var answer;
      flow, answer := Prepare();
      if flow == Handing {
        Meanwhile();
        flow := Report(answer);
      }
    }

    method PauseQueued()
      requires Valid()
      modifies this`jobs, this`log
      ensures Valid() && log == old(log) + [PauseAll] && Hands(me, log) == Hands(me, old(log))
      ensures jobs.Keys == old(jobs).Keys
      ensures forall job :: job in jobs ==>
                jobs[job] == if old(jobs)[job] == Queued then Paused else old(jobs)[job]
    {
      var queued := set job | job in jobs && jobs[job] == Queued;
      while queued != {}
        invariant log == old(log) && jobs.Keys == old(jobs).Keys
        invariant forall job :: job in queued ==> job in jobs && jobs[job] == old(jobs)[job] == Queued
        invariant forall job | job in jobs && job !in queued ::
                    jobs[job] == if old(jobs)[job] == Queued then Paused else old(jobs)[job]
        decreases |queued|
      {
        var job :| job in queued;
        jobs := jobs[job := Paused];
        queued := queued - {job};
      }
      assert jobs == map job | job in old(jobs) :: if old(jobs)[job] == Queued then Paused else old(jobs)[job];
      Record(PauseAll);
    }

    /** Deliveries being sent for ten minutes. */
    method GiveUpStale(stale: set<string>)
      requires Valid()
      modifies this`deliveries, this`log
      ensures Valid() && log == old(log) + [GiveUp(stale)] && Hands(me, log) == Hands(me, old(log))
      ensures deliveries.Keys == old(deliveries).Keys
      ensures forall d :: d in deliveries ==>
                deliveries[d] == if d in stale && old(deliveries)[d].state == Sending
                                 then old(deliveries)[d].(state := Unknown)
                                 else old(deliveries)[d]
    {
      deliveries := map d | d in deliveries ::
        if d in stale && deliveries[d].state == Sending then deliveries[d].(state := Unknown) else deliveries[d];
      Record(GiveUp(stale));
    }

    /** Queued jobs that have nothing left to send. */
    method CompleteDrained()
      requires Valid()
      modifies this`jobs, this`log
      ensures Valid() && log == old(log) + [Complete] && Hands(me, log) == Hands(me, old(log))
      ensures Drained(old(jobs), deliveries, jobs)
    {
      jobs := map job | job in jobs ::
        if jobs[job] == Queued && !Outstanding(View(), job) then Completed else jobs[job];
      Record(Complete);
    }

    /** processPending: at most five deliveries are handed over in one run. In a run that nobody and nothing
        disturbs the first five claimable deliveries are answered in order, up to the first answer that pauses
        its job; each shows what was answered, nothing else is sent, and jobs with nothing left are
        completed. */
    method ProcessPending(stale: set<string>, configured: bool) returns (ghost found: seq<string>)
      requires Valid() && me !in holds
      modifies this
      ensures Valid() && me !in holds && old(log) <= log && Hands(me, log) <= Hands(me, old(log)) + 5
      ensures !configured ==> Hands(me, log) == Hands(me, old(log)) && answers == old(answers)
      ensures calm && !configured ==>
                && GivenUp(old(View()), stale).deliveries == deliveries && handed == old(handed)
                && jobs.Keys == old(jobs).Keys
                && forall job :: job in jobs ==>
                     jobs[job] == if old(jobs)[job] == Queued then Paused else old(jobs)[job]
      ensures calm && configured ==>
                && old(answers) <= answers && FirstFive(old(View()), found)
                && var mine := answers[|old(answers)|..];
                   && (|mine| < |found| ==> mine != [] && Pauses(mine[|mine| - 1]))
                   && exists jobsBefore ::
                        && Processed(GivenUp(old(View()), stale), View().(jobs := jobsBefore), found, mine)
                        && Drained(jobsBefore, deliveries, jobs)
    {
      hide Replay, Next, Hands, FirstFive, Processed, Drained;
      found := [];
      GiveUpStale(stale);
      Meanwhile();
      if !configured {
        PauseQueued();
        return [];
      }
      var pending := FindPending();
      found := pending;
      GivingUpKeepsPending(old(View()), stale, found);
      assert calm ==> View() == GivenUp(old(View()), stale);
      var finished := WorkThrough(pending);
      if !finished {
        return;
      }
      Meanwhile();
      ghost var left := View();
      CompleteDrained();
      assert View().(jobs := left.jobs) == left && Drained(left.jobs, deliveries, jobs);
    }

    /** The loop over the deliveries found; false when the worker stopped. */
    method WorkThrough(pending: seq<string>) returns (finished: bool)
      requires Valid() && me !in holds && FirstFive(View(), pending)
      modifies this
      ensures Valid() && me !in holds && old(log) <= log && Hands(me, log) <= Hands(me, old(log)) + |pending|
      ensures old(answers) <= answers
      ensures calm ==>
                var mine := answers[|old(answers)|..];
                && finished && Processed(old(View()), View(), pending, mine)
                && (|mine| < |pending| ==> mine != [] && Pauses(mine[|mine| - 1]))
    {
      hide Replay, Next, Hands, FirstFive, Processed, Answered;
      ghost var mine: seq<Answer> := [];
      NothingProcessed(View(), pending);
      for k := 0 to |pending|
        invariant Valid() && me !in holds && old(log) <= log && Hands(me, log) <= Hands(me, old(log)) + k
        invariant answers == old(answers) + mine
        invariant calm ==> |mine| == k && Processed(old(View()), View(), pending, mine)
        invariant calm ==> forall i :: 0 <= i < |mine| ==> !Pauses(mine[i])
      {
        Meanwhile();
        ghost var before := View();
        if calm { NextIsClaimable(old(View()), before, pending, mine); }
        var flow := Process(pending[k]);
        ghost var added := answers[|old(answers) + mine|..];
        if calm {
          assert added == [added[0]];
          OneMoreProcessed(old(View()), before, pending, mine, added[0]);
        }
        mine := mine + added;
        if flow == EndLoop {
          break;
        }
        if flow == Crash {
          return false;
        }
      }
      assert answers[|old(answers)|..] == mine;
      return true;
    }
  }
}
