/** The agent's HTTP handlers for traffic and the control plane's import, changing the stored state step
    by step; the ghost log ties every state they pass through to TrafficMetering. */
module XrayAgent {
  import opened Options
  import opened TrafficCharging
  import opened TrafficMetering

  /** A counter as the core lists it: its name split at ">>>", and its value. */
  datatype Stat = Stat(parts: seq<string>, value: nat)

  predicate TrafficStat(s: Stat) {
    |s.parts| == 4 && s.parts[0] == "user" && s.parts[2] == "traffic"
    && (s.parts[3] == "uplink" || s.parts[3] == "downlink")
  }

  /** The value of the last of the first n counters with this user and direction. */
  function Reading(stats: seq<Stat>, n: nat, user: string, direction: string): Option<nat>
    requires n <= |stats|
  {
    if n == 0 then None
    else if TrafficStat(stats[n - 1]) && stats[n - 1].parts[1] == user && stats[n - 1].parts[3] == direction
    then Some(stats[n - 1].value)
    else Reading(stats, n - 1, user, direction)
  }

  function OrZero(reading: Option<nat>): nat {
    if reading.Some? then reading.value else 0
  }

  /** `traffic` has exactly the users named by a counter; a direction without a counter is zero. */
  ghost predicate Collected(stats: seq<Stat>, n: nat, traffic: Usage)
    requires n <= |stats|
  {
    forall user ::
      var up, down := Reading(stats, n, user, "uplink"), Reading(stats, n, user, "downlink");
      && (user in traffic <==> up.Some? || down.Some?)
      && (user in traffic ==> traffic[user] == Counters(OrZero(up), OrZero(down)))
  }

  method CollectTraffic(stats: seq<Stat>) returns (traffic: Usage)
    ensures Collected(stats, |stats|, traffic)
  {
    traffic := map[];
    for n := 0 to |stats|
      invariant Collected(stats, n, traffic)
    {
      var parts := stats[n].parts;
      if |parts| == 4 && parts[0] == "user" && parts[2] == "traffic"
         && (parts[3] == "uplink" || parts[3] == "downlink") {
        var entry := if parts[1] in traffic then traffic[parts[1]] else Counters(0, 0);
        entry := if parts[3] == "uplink" then entry.(tx := stats[n].value) else entry.(rx := stats[n].value);
        traffic := traffic[parts[1] := entry];
      }
    }
  }

  lemma CollectedOnce(stats: seq<Stat>, a: Usage, b: Usage)
    requires Collected(stats, |stats|, a) && Collected(stats, |stats|, b)
    ensures a == b
  {
    assert forall user :: user in a <==> user in b;
  }

  class Node {
    var core: Usage
    var pending: Option<Batch>
    var stateFile: Option<Batch>
    var copies: set<Batch>
    var imported: set<string>
    var accounts: map<string, Account>

    /** When set, no request and no file operation fails. */
    const reliable: bool

    ghost var hand: Option<Batch>
    ghost var issued: set<string>
    ghost var persisted: set<string>
    ghost var metered: map<string, nat>
    ghost var lost: map<string, nat>
    ghost var credited: map<string, nat>
    ghost const start: World
    ghost var log: seq<Step>

    ghost function View(): World
      reads this
    {
      World(core, hand, pending, stateFile, copies, imported, accounts, issued, persisted, metered, lost, credited)
    }

    ghost predicate Valid()
      reads this
    {
      Initial(start) && View() == Replay(start, log)
    }

    ghost method Record(e: Step)
      requires Initial(start) && View() == Next(Replay(start, log), e)
      modifies this`log
      ensures Valid() && log == old(log) + [e]
    {
      assert (log + [e])[..|log + [e]|-1] == log;
      log := log + [e];
    }

    /** claimTraffic, under the agent's mutex. `stats` is the core's answer to the resetting query. */
    method ClaimTraffic(id: string, stats: seq<Stat>) returns (answer: Option<Batch>)
      requires Valid() && hand.None? && id !in issued && Collected(stats, |stats|, core)
      modifies this`core, this`hand, this`issued, this`lost, this`log
      modifies this`stateFile, this`persisted, this`pending, this`copies
      ensures Valid() && old(log) <= log && hand.None?
      ensures old(pending.Some?) ==> answer == old(pending) && pending == old(pending) && core == old(core)
      ensures old(pending.None?) && answer.Some? ==>
        answer == Some(Batch(id, old(core))) && pending == answer && stateFile == answer && core == map[]
      ensures reliable ==> answer.Some? && answer.value in copies
      ensures answer.None? ==> core == old(core) || (core == map[] && lost == Plus(old(lost), old(core)))
    {
      if pending.Some? {
        Deliver();
        return pending;
      }
      answer := ReadAndReset(id, stats);
      if answer.None? { return; }
      var stored := PersistPendingBatch(answer.value);
      if !stored { return None; }
      Deliver();
    }

    /** The resetting query: refused, done with its answer lost, or answered. */
    method ReadAndReset(id: string, stats: seq<Stat>) returns (batch: Option<Batch>)
      requires Valid() && hand.None? && pending.None? && id !in issued && Collected(stats, |stats|, core)
      modifies this`core, this`hand, this`issued, this`lost, this`log
      ensures Valid() && old(log) <= log && hand == batch
      ensures batch.Some? ==> batch.value == Batch(id, old(core)) && core == map[] && stateFile.None?
                                && lost == old(lost)
      ensures batch.None? ==> (core == old(core) && lost == old(lost))
                              || (core == map[] && lost == Plus(old(lost), old(core)))
      ensures reliable ==> batch.Some?
    {
      EveryByteIsChargedOnce(start, log);
      var answered: bool, resets: bool := *, *;
      if !reliable && !answered && !resets { return None; }
      if !reliable && !answered {
        lost := Plus(lost, core);
        core := map[];
        Record(CollectLost);
        return None;
      }
      var traffic := CollectTraffic(stats);
      CollectedOnce(stats, traffic, core);
      batch := Some(Batch(id, traffic));
      core, hand, issued := map[], batch, issued + {id};
      Record(Collect(id));
    }

    method PersistPendingBatch(batch: Batch) returns (ok: bool)
      requires Valid() && hand == Some(batch) && stateFile.None?
      modifies this`hand, this`lost, this`stateFile, this`persisted, this`pending, this`log
      ensures Valid() && old(log) <= log && hand.None?
      ensures ok ==> pending == Some(batch) && stateFile == Some(batch) && lost == old(lost)
      ensures !ok ==> pending == old(pending) && stateFile == None && lost == Plus(old(lost), batch.traffic)
      ensures reliable ==> ok
    {
      var renamed: bool := *;
      if !reliable && !renamed {
        lost, hand := Plus(lost, batch.traffic), None;
        Record(StoreFails);
        return false;
      }
      stateFile, persisted := Some(batch), persisted + {batch.id};
      Record(Store);
      pending, hand := Some(batch), None;
      Record(Publish);
      return true;
    }

    /** The response reaches the worker, or not. */
    method Deliver()
      requires Valid() && pending.Some?
      modifies this`copies, this`log
      ensures Valid() && old(log) <= log
      ensures copies == old(copies) || copies == old(copies) + {pending.value}
      ensures reliable ==> pending.value in copies
    {
      var arrives: bool := *;
      if reliable || arrives {
        copies := copies + {pending.value};
        Record(Answer);
      }
    }

    /** acknowledgeTraffic. The handler takes any worker's word; the invariants are kept when the import of
        `id` has committed, as it has when the worker acknowledges. */
    method AcknowledgeTraffic(id: string) returns (ok: bool)
      requires Valid()
      modifies this`stateFile, this`pending, this`log
      ensures id in imported || !ok ==> Valid()
      ensures old(log) <= log
      ensures old(pending).None? || old(pending).value.id != id ==> !ok
      ensures ok ==> pending == None && stateFile == None && old(pending).Some? && old(pending).value.id == id
      ensures !ok ==> pending == old(pending) && stateFile == old(stateFile)
      ensures reliable ==> (ok <==> old(pending).Some? && old(pending).value.id == id)
    {
      if pending.None? || id != pending.value.id { return false; }
      var removed: bool := *;
      if !reliable && !removed { return false; }
      stateFile := None;
      if id in imported { Record(Step.Remove(id)); }
      pending := None;
      if id in imported { Record(Forget); }
      return true;
    }

    /** The process ends at any point and starts again with loadPendingBatch. */
    method RestartAgent()
      requires Valid()
      modifies this`pending, this`hand, this`lost, this`log
      ensures Valid() && old(log) <= log && pending == stateFile && hand.None?
    {
      lost := if hand.Some? && stateFile != hand then Plus(lost, hand.value.traffic) else lost;
      pending := stateFile;
      hand := None;
      Record(Restart);
    }

    /** applyTrafficBatch: one transaction, keyed by the batch id; true means a replay. It charges any batch;
        the invariants are kept when the batch is one that a claim answered. */
    method ApplyTrafficBatch(batch: Batch) returns (replayed: bool)
      requires Valid()
      modifies this`imported, this`accounts, this`credited, this`log
      ensures batch in copies || replayed ==> Valid()
      ensures old(log) <= log
      ensures replayed <==> batch.id in old(imported)
      ensures replayed ==> accounts == old(accounts) && imported == old(imported)
      ensures !replayed ==> accounts == ChargedAll(old(accounts), batch.traffic)
      ensures !replayed ==>
                accounts.Keys == old(accounts).Keys && forall user :: user in accounts ==>
                  accounts[user] == if user in batch.traffic
                                    then Charged(old(accounts)[user], batch.traffic[user].tx + batch.traffic[user].rx)
                                    else old(accounts)[user]
      ensures !replayed ==> imported == old(imported) + {batch.id}
    {
      if batch.id in imported { return true; }
      accounts := ChargeUsers(accounts, batch.traffic);
      imported := imported + {batch.id};
      credited := Plus(credited, batch.traffic);
      if batch in copies { Record(Step.Import(batch)); }
      return false;
    }
  }

  /** The loop over the users of a batch. */
  method ChargeUsers(accounts: map<string, Account>, traffic: Usage) returns (charged: map<string, Account>)
    ensures charged == ChargedAll(accounts, traffic)
    ensures charged.Keys == accounts.Keys
    ensures forall user :: user in accounts ==>
              charged[user] == if user in traffic then Charged(accounts[user], traffic[user].tx + traffic[user].rx)
                               else accounts[user]
  {
    charged := accounts;
    var users := traffic.Keys;
    while users != {}
      invariant users <= traffic.Keys && charged.Keys == accounts.Keys
      invariant forall user :: user in accounts ==>
        charged[user] == if user in traffic && user !in users then Charged(accounts[user], Bytes(traffic, user))
                         else accounts[user]
    {
      var user :| user in users;
      users := users - {user};
      if user in charged {
        charged := charged[user := Charged(charged[user], traffic[user].tx + traffic[user].rx)];
      }
    }
    forall user | user in accounts && user !in traffic ensures Charged(accounts[user], 0) == accounts[user] {
      ChargeNothing(accounts[user]);
    }
    assert charged == ChargedAll(accounts, traffic);
  }
}
