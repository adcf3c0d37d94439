/** From the core's counters to the charged account: the agent's durable claim and acknowledgement of
    counter batches, and the control plane's import of each batch under its unique id. A run is a
    sequence of steps in any order; a step that is not enabled changes nothing. */
module TrafficMetering {
  import opened Options
  import opened TrafficCharging

  datatype Counters = Counters(tx: nat, rx: nat)
  type Usage = map<string, Counters>

  datatype Batch = Batch(id: string, traffic: Usage)

  function Bytes(u: Usage, user: string): nat {
    if user in u then u[user].tx + u[user].rx else 0
  }

  function At(m: map<string, nat>, user: string): nat {
    if user in m then m[user] else 0
  }

  function Plus(m: map<string, nat>, u: Usage): (r: map<string, nat>)
    ensures forall user :: At(r, user) == At(m, user) + Bytes(u, user)
  {
    map user | user in m.Keys + u.Keys :: At(m, user) + Bytes(u, user)
  }

  /** The core's counters, the agent (the batch in its hand while a claim runs, the pending batch in memory,
      the state file), copies of batches that reached workers, and the control plane. The last five fields
      are history: ids handed out, ids ever persisted, and per user the bytes metered, lost and imported. */
  datatype World = World(
    core: Usage,
    hand: Option<Batch>,
    pending: Option<Batch>,
    file: Option<Batch>,
    copies: set<Batch>,
    imported: set<string>,
    accounts: map<string, Account>,
    issued: set<string>,
    persisted: set<string>,
    metered: map<string, nat>,
    lost: map<string, nat>,
    credited: map<string, nat>)

  datatype Step =
    | Meter(user: string, tx: nat, rx: nat)
    | Collect(id: string)      // claim: counters are read and reset
    | CollectLost              // the reset happens, its answer does not arrive
    | Store                    // the state file is renamed into place
    | StoreFails
    | Publish                  // the batch becomes the pending one
    | Answer                   // a worker receives the pending batch
    | Remove(id: string)       // acknowledgement: the state file is removed
    | Forget                   // ... and the pending batch dropped
    | Restart                  // the agent restarts and loads the state file
    | Import(batch: Batch)     // one transaction of the control plane

  predicate Enabled(w: World, e: Step) {
    match e
    case Meter(_, _, _) => true
    case Collect(id) => w.pending.None? && w.hand.None? && id !in w.issued
    case CollectLost => w.pending.None? && w.hand.None?
    case Store => w.hand.Some?
    case StoreFails => w.hand.Some? && w.file != w.hand
    case Publish => w.hand.Some? && w.file == w.hand
    case Answer => w.pending.Some?
    case Remove(id) => w.pending.Some? && w.pending.value.id == id && id in w.imported
    case Forget => w.pending.Some? && w.file.None?
    case Restart => true
    case Import(batch) => batch in w.copies && batch.id !in w.imported
  }

  function Gain(c: Usage, user: string, tx: nat, rx: nat): Usage {
    c[user := if user in c then Counters(c[user].tx + tx, c[user].rx + rx) else Counters(tx, rx)]
  }

  function ChargedAll(accounts: map<string, Account>, traffic: Usage): map<string, Account> {
    map user | user in accounts :: Charged(accounts[user], Bytes(traffic, user))
  }

  function Effect(w: World, e: Step): World
    requires Enabled(w, e)
  {
    match e
    case Meter(user, tx, rx) =>
      w.(core := Gain(w.core, user, tx, rx), metered := Plus(w.metered, map[user := Counters(tx, rx)]))
    case Collect(id) => w.(core := map[], hand := Some(Batch(id, w.core)), issued := w.issued + {id})
    case CollectLost => w.(core := map[], lost := Plus(w.lost, w.core))
    case Store => w.(file := w.hand, persisted := w.persisted + {w.hand.value.id})
    case StoreFails => w.(hand := None, lost := Plus(w.lost, w.hand.value.traffic))
    case Publish => w.(pending := w.hand, hand := None)
    case Answer => w.(copies := w.copies + {w.pending.value})
    case Remove(_) => w.(file := None)
    case Forget => w.(pending := None)
    case Restart =>
      w.(hand := None, pending := w.file,
         lost := if w.hand.Some? && w.file != w.hand then Plus(w.lost, w.hand.value.traffic) else w.lost)
    case Import(batch) =>
      w.(imported := w.imported + {batch.id}, accounts := ChargedAll(w.accounts, batch.traffic),
         credited := Plus(w.credited, batch.traffic))
  }

  function Next(w: World, e: Step): World {
    if Enabled(w, e) then Effect(w, e) else w
  }

  function Replay(w: World, steps: seq<Step>): World {
    if steps == [] then w else Next(Replay(w, steps[..|steps|-1]), steps[|steps|-1])
  }

  predicate Initial(w: World) {
    && w.core == map[] && w.hand == None && w.pending == None && w.file == None
    && w.copies == {} && w.imported == {} && w.issued == {} && w.persisted == {}
    && w.metered == map[] && w.lost == map[] && w.credited == map[]
  }

  /** Bytes taken from the core that are held by the agent and not yet imported. */
  function Waiting(w: World, user: string): nat {
    if w.hand.Some? then Bytes(w.hand.value.traffic, user)
    else if w.pending.Some? && w.pending.value.id !in w.imported then Bytes(w.pending.value.traffic, user)
    else 0
  }

  ghost predicate AgentOk(w: World) {
    && (w.hand.Some? ==>
          && w.pending.None? && (w.file.None? || w.file == w.hand)
          && w.hand.value.id in w.issued && w.hand.value.id !in w.imported
          && (forall c :: c in w.copies ==> c.id != w.hand.value.id))
    && (w.hand.None? ==>
          && (w.file.Some? ==> w.pending == w.file)
          && (w.pending.Some? && w.file.None? ==> w.pending.value.id in w.imported))
    && (w.pending.Some? ==> w.pending.value.id in w.issued)
    && w.imported <= w.issued
    && (forall c :: c in w.copies ==> c.id in w.issued && (c.id in w.imported || w.pending == Some(c)))
  }

  /** Every persisted batch is imported, or it is the one in the state file. */
  ghost predicate PersistedOk(w: World) {
    forall id :: id in w.persisted ==> id in w.imported || (w.file.Some? && w.file.value.id == id)
  }

  /** Every metered byte is in the core, waiting at the agent, imported, or lost in a claim that failed
      before its batch was persisted. */
  ghost predicate Conserved(w: World) {
    forall user :: Balanced(w, user)
  }

  /** Every account has been charged exactly what was imported for its user, as one charge. */
  ghost predicate ChargedOnce(start: World, w: World) {
    && w.accounts.Keys == start.accounts.Keys
    && forall user :: user in start.accounts ==> w.accounts[user] == Charged(start.accounts[user], At(w.credited, user))
  }

  lemma NextKeepsAgent(w: World, e: Step)
    requires AgentOk(w) && PersistedOk(w)
    ensures AgentOk(Next(w, e)) && PersistedOk(Next(w, e))
  {}

  ghost predicate Balanced(w: World, user: string) {
    At(w.metered, user) == Bytes(w.core, user) + Waiting(w, user) + At(w.credited, user) + At(w.lost, user)
  }

  lemma ImportBalances(w: World, batch: Batch, user: string)
    requires AgentOk(w) && Balanced(w, user)
    ensures Balanced(Next(w, Import(batch)), user)
  {}

  /** Steps that neither take bytes from the core nor pass them on. */
  lemma KeepingBalances(w: World, e: Step, user: string)
    requires AgentOk(w) && Balanced(w, user)
    requires e.Meter? || e.Store? || e.Publish? || e.Answer? || e.Remove? || e.Forget?
    ensures Balanced(Next(w, e), user)
  {}

  lemma TakingBalances(w: World, e: Step, user: string)
    requires AgentOk(w) && Balanced(w, user) && (e.Collect? || e.CollectLost? || e.StoreFails? || e.Restart?)
    ensures Balanced(Next(w, e), user)
  {}

  lemma NextBalances(w: World, e: Step, user: string)
    requires AgentOk(w) && Balanced(w, user)
    ensures Balanced(Next(w, e), user)
  {
    if e.Import? {
      ImportBalances(w, e.batch, user);
    } else if e.Collect? || e.CollectLost? || e.StoreFails? || e.Restart? {
      TakingBalances(w, e, user);
    } else {
      KeepingBalances(w, e, user);
    }
    hide AgentOk, Balanced, Next;
  }

  lemma NextConserves(w: World, e: Step)
    requires AgentOk(w) && Conserved(w)
    ensures Conserved(Next(w, e))
  {
    forall user ensures Balanced(Next(w, e), user) { NextBalances(w, e, user); }
  }

  lemma ChargeNothing(a: Account)
    ensures Charged(a, 0) == a
  {
    assert ChargedPacks(a.packs, 0) == a.packs;
  }

  lemma ImportCharges(start: World, w: World, traffic: Usage, user: string)
    requires ChargedOnce(start, w) && user in start.accounts
    ensures Charged(w.accounts[user], Bytes(traffic, user))
         == Charged(start.accounts[user], At(Plus(w.credited, traffic), user))
  {
    ChargesAdd(start.accounts[user], At(w.credited, user), Bytes(traffic, user));
  }

  lemma NextCharges(start: World, w: World, e: Step)
    requires ChargedOnce(start, w)
    ensures ChargedOnce(start, Next(w, e))
  {
    if e.Import? && Enabled(w, e) {
      forall user | user in start.accounts
        ensures ChargedAll(w.accounts, e.batch.traffic)[user]
             == Charged(start.accounts[user], At(Plus(w.credited, e.batch.traffic), user))
      {
        ImportCharges(start, w, e.batch.traffic, user);
      }
    }
  }

  /** For every interleaving of claims, failures, restarts, answers, replayed imports and acknowledgements:
      no byte is created, dropped outside the collect-before-persist window, or charged twice; every
      persisted batch is imported or still in the state file; and each account is as if one single
      charge of all its imported bytes had been made. */
  lemma {:induction false} EveryByteIsChargedOnce(start: World, steps: seq<Step>)
    requires Initial(start)
    ensures var w := Replay(start, steps); AgentOk(w) && PersistedOk(w) && Conserved(w) && ChargedOnce(start, w)
  {
    if steps == [] {
      forall user | user in start.accounts ensures start.accounts[user] == Charged(start.accounts[user], 0) {
        ChargeNothing(start.accounts[user]);
      }
    } else {
      var w, e := Replay(start, steps[..|steps|-1]), steps[|steps|-1];
      EveryByteIsChargedOnce(start, steps[..|steps|-1]);
      NextKeepsAgent(w, e);
      NextConserves(w, e);
      NextCharges(start, w, e);
    }
  }

  /** The collect-before-persist window: counters were reset but their batch was not persisted. */
  predicate Loses(w: World, e: Step) {
    Enabled(w, e) && (e.CollectLost? || e.StoreFails? || (e.Restart? && w.hand.Some? && w.file != w.hand))
  }

  predicate LossFree(start: World, steps: seq<Step>) {
    steps == [] ||
    (LossFree(start, steps[..|steps|-1]) && !Loses(Replay(start, steps[..|steps|-1]), steps[|steps|-1]))
  }

  lemma OnlyLossesAreLost(w: World, e: Step)
    requires !Loses(w, e)
    ensures Next(w, e).lost == w.lost
  {}

  lemma {:induction false} NothingLost(start: World, steps: seq<Step>)
    requires LossFree(start, steps)
    ensures Replay(start, steps).lost == start.lost
  {
    if steps != [] {
      NothingLost(start, steps[..|steps|-1]);
      OnlyLossesAreLost(Replay(start, steps[..|steps|-1]), steps[|steps|-1]);
      hide Next, Loses;
    }
  }

  /** What a lossy step discards of one user's bytes. */
  function Discarded(w: World, e: Step, user: string): nat {
    if !Loses(w, e) then 0
    else if e.CollectLost? then Bytes(w.core, user)
    else Bytes(w.hand.value.traffic, user)
  }

  /** No step of the run discards a byte of this user. */
  predicate DiscardsNothing(start: World, steps: seq<Step>, user: string) {
    steps == [] ||
    (DiscardsNothing(start, steps[..|steps|-1], user)
     && Discarded(Replay(start, steps[..|steps|-1]), steps[|steps|-1], user) == 0)
  }

  lemma LostGrows(w: World, e: Step, user: string)
    ensures At(Next(w, e).lost, user) == At(w.lost, user) + Discarded(w, e, user)
  {}

  lemma {:induction false} LostIsDiscarded(start: World, steps: seq<Step>, user: string)
    requires Initial(start)
    ensures At(Replay(start, steps).lost, user) == 0 <==> DiscardsNothing(start, steps, user)
  {
    if steps != [] {
      var init := steps[..|steps|-1];
      LostIsDiscarded(start, init, user);
      LostGrows(Replay(start, init), steps[|steps|-1], user);
    }
  }

  /** The metering of a user is exact exactly when no step of the run discarded a byte of that user: one
      discarded in the collect-before-persist window is nowhere afterwards. */
  lemma MeteringIsExactIff(start: World, steps: seq<Step>, user: string)
    requires Initial(start)
    ensures var w := Replay(start, steps);
      At(w.metered, user) == Bytes(w.core, user) + Waiting(w, user) + At(w.credited, user)
      <==> DiscardsNothing(start, steps, user)
  {
    EveryByteIsChargedOnce(start, steps);
    LostIsDiscarded(start, steps, user);
    assert Balanced(Replay(start, steps), user);
  }

  /** Bytes can be lost: counted, reset by the query, and gone with an answer that does not arrive. */
  lemma LossHappens(start: World, user: string, tx: nat, rx: nat)
    requires Initial(start)
    ensures var w := Replay(start, [Meter(user, tx, rx), CollectLost]);
            && At(w.metered, user) == At(w.lost, user) == tx + rx
            && At(w.credited, user) == Waiting(w, user) == Bytes(w.core, user) == 0
  {
    var counted := [Meter(user, tx, rx)];
    assert counted[..0] == [] && (counted + [CollectLost])[..1] == counted;
    assert Replay(start, counted) == Next(start, Meter(user, tx, rx));
    assert counted + [CollectLost] == [Meter(user, tx, rx), CollectLost];
    assert Replay(start, counted + [CollectLost]) == Next(Replay(start, counted), CollectLost);
  }

  /** Outside that window the metering is exact: whatever the core counted is still there, waiting at the
      agent, or charged. */
  lemma LossFreeRunsAreExact(start: World, steps: seq<Step>, user: string)
    requires Initial(start) && LossFree(start, steps)
    ensures var w := Replay(start, steps);
      At(w.metered, user) == Bytes(w.core, user) + Waiting(w, user) + At(w.credited, user)
  {
    EveryByteIsChargedOnce(start, steps);
    NothingLost(start, steps);
    assert Balanced(Replay(start, steps), user);
  }
}
