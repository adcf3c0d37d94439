/** One redemption code under concurrent transactions, statement by statement. Before a transaction updates
    the code's row it only reads committed data, of any age; from its first update to its commit or abort
    it holds the row, and others wait. A transaction that redeems, reserves a discount or pays from the
    balance goes through the same record of a use. */
module RedemptionCodes {
  import opened Options

  datatype CodeStatus = Active | Redeemed | Void | Expired

  datatype Code = Code(status: CodeStatus, usedCount: nat, maxUses: nat, maxUsesPerUser: nat)

  /** The limit is history: what was in force when the use was committed. */
  datatype Use = Use(userId: string, number: nat, limit: nat)

  datatype Path = Redeem | Discount | Balance

  /** The transaction that holds the row: its own version of it, and what it has done so far. */
  datatype Holder = Holder(
    path: Path,
    userId: string,
    draft: Code,
    spent: bool,             // usedCount is counted up
    counted: Option<nat>,    // the user's uses, as counted under the lock
    added: Option<nat>,      // the number of the inserted use
    closed: bool)            // the final status is written

  datatype Bank = Bank(code: Code, versions: set<Code>, uses: seq<Use>, holder: Option<Holder>)

  datatype Statement =
    | Reserve(path: Path, userId: string, seen: Code) // updateMany with the count and the limit as read
    | Lock(userId: string, seen: Code)                // recordRedemptionUse's updateMany, as first update
    | CountUses
    | InsertUse
    | Spend(seen: Code)                               // the balance path's updateMany
    | Close(seen: Code)                               // the redeem path's final update
    | Commit
    | Abort
    | Patch(status: Option<CodeStatus>, limit: Option<nat>)
    | Expire

  function CountOf(uses: seq<Use>, userId: string, n: nat): (c: nat)
    requires n <= |uses|
    ensures c <= n
  {
    if n == 0 then 0 else CountOf(uses, userId, n - 1) + if uses[n - 1].userId == userId then 1 else 0
  }

  predicate Enabled(b: Bank, e: Statement) {
    match e
    case Reserve(path, userId, seen) =>
      b.holder.None? && path != Balance && seen in b.versions && seen.usedCount < seen.maxUses
      && b.code.status == Active && b.code.usedCount == seen.usedCount && b.code.maxUsesPerUser == seen.maxUsesPerUser
    case Lock(_, seen) => b.holder.None? && seen in b.versions && b.code.maxUsesPerUser == seen.maxUsesPerUser
    case CountUses => b.holder.Some? && b.holder.value.counted.None?
    case InsertUse =>
      b.holder.Some? && b.holder.value.counted.Some? && b.holder.value.added.None?
      && b.holder.value.counted.value < b.holder.value.draft.maxUsesPerUser
    case Spend(seen) =>
      b.holder.Some? && b.holder.value.path == Balance && !b.holder.value.spent && seen in b.versions
      && b.holder.value.draft.usedCount == seen.usedCount && b.holder.value.draft.usedCount < seen.maxUses
      && b.holder.value.draft.status == Active
    case Close(seen) =>
      b.holder.Some? && b.holder.value.path == Redeem && b.holder.value.added.Some? && seen in b.versions
    case Commit =>
      b.holder.Some? && b.holder.value.spent && b.holder.value.added.Some?
      && (b.holder.value.path == Redeem ==> b.holder.value.closed)
    case Abort => b.holder.Some?
    case Patch(_, limit) => b.holder.None? && limit != Some(0)
    case Expire => b.holder.None?
  }

  /** The final status, from the count as it was read. */
  function Settled(seen: Code): CodeStatus {
    if seen.maxUses <= seen.usedCount + 1 then Redeemed else Active
  }

  predicate Usable(c: Code) {
    c.status == Active && c.usedCount < c.maxUses
  }

  function Written(b: Bank, c: Code): Bank {
    b.(code := c, versions := b.versions + {c})
  }

  function Effect(b: Bank, e: Statement): Bank
    requires Enabled(b, e)
  {
    match e
    case Reserve(path, userId, _) =>
      b.(holder := Some(Holder(path, userId, b.code.(usedCount := b.code.usedCount + 1), true, None, None, false)))
    case Lock(userId, seen) =>
      var draft := b.code.(maxUsesPerUser := seen.maxUsesPerUser);
      b.(holder := Some(Holder(Balance, userId, draft, false, None, None, false)))
    case CountUses =>
      var h := b.holder.value;
      b.(holder := Some(h.(counted := Some(CountOf(b.uses, h.userId, |b.uses|)))))
    case InsertUse =>
      var h := b.holder.value;
      b.(holder := Some(h.(added := Some(h.counted.value + 1))))
    case Spend(seen) =>
      var h := b.holder.value;
      b.(holder := Some(h.(spent := true, draft := h.draft.(usedCount := seen.usedCount + 1, status := Settled(seen)))))
    case Close(seen) =>
      var h := b.holder.value;
      b.(holder := Some(h.(closed := true, draft := h.draft.(status := Settled(seen)))))
    case Commit =>
      var h := b.holder.value;
      Written(b, h.draft).(uses := b.uses + [Use(h.userId, h.added.value, b.code.maxUsesPerUser)], holder := None)
    case Abort => b.(holder := None)
    case Patch(status, limit) =>
      var c := b.code.(status := if status.Some? then status.value else b.code.status);
      Written(b, c.(maxUsesPerUser := if limit.Some? then limit.value else c.maxUsesPerUser))
    case Expire => Written(b, b.code.(status := Expired))
  }

  function Next(b: Bank, e: Statement): Bank {
    if Enabled(b, e) then Effect(b, e) else b
  }

  function Replay(b: Bank, run: seq<Statement>): Bank {
    if run == [] then b else Next(Replay(b, run[..|run|-1]), run[|run|-1])
  }

  /** A code as it is created. */
  predicate Created(b: Bank) {
    b.code.status == Active && b.code.usedCount == 0 && b.versions == {b.code} && b.uses == [] && b.holder == None
  }

  /** Every use of a user carries the number after that user's earlier uses, and no number is above the
      limit that was in force. */
  ghost predicate Numbered(uses: seq<Use>) {
    forall k: nat | k < |uses| :: Fits(uses, k)
  }

  predicate Fits(uses: seq<Use>, k: nat)
    requires k < |uses|
  {
    uses[k].number == CountOf(uses, uses[k].userId, k) + 1 && uses[k].number <= uses[k].limit
  }

  predicate HolderOk(b: Bank, h: Holder) {
    && h.draft.maxUses == b.code.maxUses
    && h.draft.maxUsesPerUser == b.code.maxUsesPerUser
    && h.draft.usedCount == |b.uses| + (if h.spent then 1 else 0)
    && h.draft.usedCount <= b.code.maxUses
    && (h.counted.Some? ==> h.counted.value == CountOf(b.uses, h.userId, |b.uses|))
    && (h.added.Some? ==> h.counted.Some? && h.added.value == h.counted.value + 1 <= b.code.maxUsesPerUser)
  }

  ghost predicate Ok(b: Bank) {
    && b.code.usedCount == |b.uses| <= b.code.maxUses
    && b.code in b.versions
    && (forall c :: c in b.versions ==> c.maxUses == b.code.maxUses)
    && Numbered(b.uses)
    && (b.holder.Some? ==> HolderOk(b, b.holder.value))
  }

  lemma CountIsStable(uses: seq<Use>, more: Use, userId: string, n: nat)
    requires n <= |uses|
    ensures CountOf(uses + [more], userId, n) == CountOf(uses, userId, n)
  {
    if n > 0 {
      CountIsStable(uses, more, userId, n - 1);
    }
  }

  lemma NumberedGrows(uses: seq<Use>, more: Use)
    requires Numbered(uses) && more.number == CountOf(uses, more.userId, |uses|) + 1 && more.number <= more.limit
    ensures Numbered(uses + [more])
  {
    hide CountOf;
    forall k: nat | k < |uses + [more]| ensures Fits(uses + [more], k) {
      if k < |uses| {
        assert Fits(uses, k);
      }
      CountIsStable(uses, more, (uses + [more])[k].userId, k);
    }
  }

  lemma CommitKeeps(b: Bank)
    requires Ok(b) && Enabled(b, Commit)
    ensures Ok(Next(b, Commit))
  {
    var h := b.holder.value;
    NumberedGrows(b.uses, Use(h.userId, h.added.value, b.code.maxUsesPerUser));
  }

  lemma NextKeeps(b: Bank, e: Statement)
    requires Ok(b)
    ensures Ok(Next(b, e))
  {
    if e == Commit && Enabled(b, e) {
      CommitKeeps(b);
    }
  }

  /** Over every interleaving: the count is the number of recorded uses and never above the maximum, each
      user's uses are numbered in order without gap or repeat, and each was within the limit in force. */
  lemma {:induction false} EveryRunIsSound(b: Bank, run: seq<Statement>)
    requires Created(b)
    ensures Ok(Replay(b, run))
    ensures Replay(b, run).code.maxUses == b.code.maxUses
    decreases |run|
  {
    if run != [] {
      EveryRunIsSound(b, run[..|run|-1]);
      NextKeeps(Replay(b, run[..|run|-1]), run[|run|-1]);
    }
  }

  lemma {:induction false} CountIncludes(uses: seq<Use>, k: nat, n: nat)
    requires k < n <= |uses|
    ensures CountOf(uses, uses[k].userId, k) + 1 <= CountOf(uses, uses[k].userId, n)
    decreases n
  {
    if k < n - 1 {
      CountIncludes(uses, k, n - 1);
    }
  }

  lemma {:induction false} FindNumber(uses: seq<Use>, userId: string, number: nat, n: nat) returns (k: nat)
    requires Numbered(uses) && n <= |uses| && 1 <= number <= CountOf(uses, userId, n)
    ensures k < n && uses[k].userId == userId && uses[k].number == number
  {
    if number <= CountOf(uses, userId, n - 1) {
      k := FindNumber(uses, userId, number, n - 1);
    } else {
      k := n - 1;
      assert Fits(uses, k);
    }
  }

  predicate Holds(u: Use, userId: string, number: nat) {
    u.userId == userId && u.number == number
  }

  /** A number is some use's of the user exactly when it is between 1 and the user's count; and then of one
      use only. */
  lemma NumbersAreExact(uses: seq<Use>, userId: string, number: nat)
    requires Numbered(uses)
    ensures 1 <= number <= CountOf(uses, userId, |uses|)
            <==> exists k: nat :: k < |uses| && Holds(uses[k], userId, number)
    ensures forall j: nat, k: nat ::
              j < k < |uses| && Holds(uses[j], userId, number) ==> !Holds(uses[k], userId, number)
  {
    if 1 <= number <= CountOf(uses, userId, |uses|) {
      var k := FindNumber(uses, userId, number, |uses|);
      assert Holds(uses[k], userId, number);
    }
    forall k: nat | k < |uses| && Holds(uses[k], userId, number) ensures 1 <= number <= CountOf(uses, userId, |uses|) {
      assert Fits(uses, k);
      CountIncludes(uses, k, |uses|);
    }
    forall j: nat, k: nat | j < k < |uses| && Holds(uses[j], userId, number) ensures !Holds(uses[k], userId, number) {
      assert Fits(uses, j) && Fits(uses, k);
      CountIncludes(uses, j, k);
    }
  }

  /** The unique index on user and number never refuses the insert. */
  lemma InsertNeverClashes(b: Bank, run: seq<Statement>)
    requires Created(b) && Replay(b, run).holder.Some? && Replay(b, run).holder.value.added.Some?
    ensures var now := Replay(b, run);
            forall u :: u in now.uses ==> !Holds(u, now.holder.value.userId, now.holder.value.added.value)
  {
    EveryRunIsSound(b, run);
    var now := Replay(b, run);
    NumbersAreExact(now.uses, now.holder.value.userId, now.holder.value.added.value);
  }

  predicate ByAdministrator(e: Statement) {
    e.Patch? || e.Expire?
  }

  /** The status of a code that no administrator and no expiry touched: it is spent only when nothing is left. */
  predicate StatusFollows(c: Code) {
    c.status == Active || (c.status == Redeemed && c.usedCount == c.maxUses)
  }

  ghost predicate Untouched(b: Bank) {
    && Ok(b) && StatusFollows(b.code)
    && (forall c :: c in b.versions ==> c.usedCount <= b.code.usedCount)
    && (b.holder.Some? ==>
          StatusFollows(b.holder.value.draft) && (b.holder.value.path == Redeem ==> b.holder.value.spent))
  }

  lemma NextKeepsUntouched(b: Bank, e: Statement)
    requires Untouched(b) && !ByAdministrator(e)
    ensures Untouched(Next(b, e))
  {
    NextKeeps(b, e);
    hide Numbered, CountOf;
  }

  /** Redemptions, discounts and purchases, in any number and interleaving, with failures anywhere: as long as
      a use is left the code stays active, and so the next user below the limit can take it. */
  lemma {:induction false} UsesLeftAreUsable(b: Bank, run: seq<Statement>)
    requires Created(b) && b.code.maxUses > 0
    requires forall e :: e in run ==> !ByAdministrator(e)
    ensures Untouched(Replay(b, run))
    ensures var now := Replay(b, run).code; now.usedCount < now.maxUses ==> now.status == Active
    ensures var now := Replay(b, run).code; now.status == Redeemed ==> now.usedCount == now.maxUses
    decreases |run|
  {
    if run != [] {
      UsesLeftAreUsable(b, run[..|run|-1]);
      NextKeepsUntouched(Replay(b, run[..|run|-1]), run[|run|-1]);
    }
  }

  /** The transactions of the control plane, each among others it knows nothing of. */
  class Store {
    var code: Code
    var uses: seq<Use>
    var holder: Option<Holder>
    var versions: set<Code>

    /** When set, no other transaction runs and nothing a transaction does beside the code fails. */
    const alone: bool

    ghost const start: Bank
    ghost var log: seq<Statement>

    function View(): Bank
      reads this
    {
      Bank(code, versions, uses, holder)
    }

    ghost predicate Valid()
      reads this
    {
      Created(start) && View() == Replay(start, log)
    }

    constructor (c: Code, alone: bool)
      requires c.status == Active && c.usedCount == 0
      ensures Valid() && code == c && uses == [] && holder == None && this.alone == alone
    {
      code, uses, holder, versions := c, [], None, {c};
      this.alone := alone;
      start, log := Bank(c, {c}, [], None), [];
    }

    /** What holds at every point of every transaction. */
    lemma Sound()
      requires Valid()
      ensures Ok(View())
    {
      EveryRunIsSound(start, log);
    }

    ghost method Record(e: Statement)
      requires Created(start) && View() == Next(Replay(start, log), e)
      modifies this`log
      ensures Valid() && log == old(log) + [e]
    {
      assert (log + [e])[..|log|] == log;
      log := log + [e];
    }

    method Perform(e: Statement)
      requires Valid()
      modifies this`code, this`uses, this`holder, this`versions, this`log
      ensures Valid() && View() == Next(old(View()), e) && log == old(log) + [e]
    {
      var b := Next(View(), e);
      code, uses, holder, versions := b.code, b.uses, b.holder, b.versions;
      Record(e);
    }

    /** Other transactions and the administrators, until the row is free. */
    method Meanwhile()
      requires Valid() && holder.None?
      modifies this`code, this`uses, this`holder, this`versions, this`log
      ensures Valid() && holder.None? && old(log) <= log && old(versions) <= versions
      ensures alone ==> View() == old(View()) && log == old(log)
    {
      var more: nat := *;
      while !alone && more > 0
        invariant Valid() && old(log) <= log && old(versions) <= versions
        invariant alone ==> View() == old(View()) && log == old(log)
      {
        var e: Statement := *;
        Perform(e);
        more := more - 1;
      }
      if holder.Some? {
        Perform(Abort);
      }
    }

    /** Nothing of the transaction stays. */
    method RollBack()
      requires Valid() && holder.Some?
      modifies this`holder, this`log
      ensures Valid() && holder.None? && old(log) <= log
    {
      holder := None;
      Record(Abort);
    }

    method CommitTransaction()
      requires Valid() && holder.Some? && holder.value.spent && holder.value.added.Some?
      requires holder.value.path == Redeem ==> holder.value.closed
      modifies this`code, this`uses, this`holder, this`versions, this`log
      ensures Valid() && holder.None? && log == old(log) + [Commit] && code == old(holder).value.draft
      ensures var h := old(holder).value;
              uses == old(uses) + [Use(h.userId, h.added.value, old(code).maxUsesPerUser)]
      ensures code.usedCount == |uses| <= code.maxUses
    {
      var h := holder.value;
      uses := uses + [Use(h.userId, h.added.value, code.maxUsesPerUser)];
      code, versions, holder := h.draft, versions + {h.draft}, None;
      Record(Commit);
      Sound();
    }

    /** recordRedemptionUse: takes the row unless the transaction has it already. */
    method RecordRedemptionUse(userId: string) returns (ok: bool)
      requires Valid()
      requires holder.Some? ==> holder.value.userId == userId && holder.value.counted.None? && holder.value.added.None?
      requires holder.Some? ==> holder.value.draft.maxUsesPerUser == code.maxUsesPerUser
      modifies this`code, this`uses, this`holder, this`versions, this`log
      ensures Valid() && old(log) <= log && old(versions) <= versions
      ensures ok ==> holder.Some? && holder.value.userId == userId
                     && holder.value.added == Some(CountOf(uses, userId, |uses|) + 1)
      ensures ok ==> CountOf(uses, userId, |uses|) < code.maxUsesPerUser
      ensures !ok && holder.None? ==> old(holder).None? && code.maxUsesPerUser != old(code).maxUsesPerUser
      ensures !ok && holder.Some? ==> code.maxUsesPerUser <= CountOf(uses, userId, |uses|)
      ensures old(holder).Some? ==> code == old(code) && uses == old(uses) && holder.Some?
      ensures ok && old(holder).Some? ==>
                holder == Some(old(holder).value.(counted := holder.value.counted, added := holder.value.added))
      ensures ok && old(holder).None? ==>
                !holder.value.spent && holder.value.path == Balance && holder.value.draft == code
      ensures alone ==> code == old(code) && uses == old(uses)
      ensures alone ==> (ok <==> CountOf(uses, userId, |uses|) < code.maxUsesPerUser)
    {
      var limit := if holder.Some? then holder.value.draft.maxUsesPerUser else code.maxUsesPerUser;
      if holder.None? {
        var locked := LockRow(userId);
        if !locked {
          return false;
        }
      }
      ok := CountAndInsert(userId, limit);
    }

    /** The conditional update that only takes the row: it fails when the limit changed since it was read. */
    method LockRow(userId: string) returns (ok: bool)
      requires Valid() && holder.None?
      modifies this`code, this`uses, this`holder, this`versions, this`log
      ensures Valid() && old(log) <= log && old(versions) <= versions
      ensures ok ==> holder == Some(Holder(Balance, userId, code, false, None, None, false))
      ensures ok ==> code.maxUsesPerUser == old(code).maxUsesPerUser
      ensures !ok ==> holder.None? && code.maxUsesPerUser != old(code).maxUsesPerUser
      ensures alone ==> ok && code == old(code) && uses == old(uses)
    {
      var seen := code;
      Sound();
      Meanwhile();
      if code.maxUsesPerUser != seen.maxUsesPerUser {
        return false;
      }
      holder := Some(Holder(Balance, userId, code, false, None, None, false));
      Record(Lock(userId, seen));
      return true;
    }

    method CountAndInsert(userId: string, limit: nat) returns (ok: bool)
      requires Valid() && holder.Some? && holder.value.userId == userId
      requires holder.value.counted.None? && holder.value.added.None?
      requires holder.value.draft.maxUsesPerUser == limit
      modifies this`holder, this`log
      ensures Valid() && old(log) <= log
      ensures holder.Some? && holder.value.userId == userId
      ensures ok <==> CountOf(uses, userId, |uses|) < limit
      ensures ok ==> holder.value.added == Some(CountOf(uses, userId, |uses|) + 1)
      ensures holder.value == old(holder).value.(counted := holder.value.counted, added := holder.value.added)
    {
      var used := CountOf(uses, userId, |uses|);
      holder := Some(holder.value.(counted := Some(used)));
      Record(CountUses);
      if limit <= used {
        return false;
      }
      holder := Some(holder.value.(added := Some(used + 1)));
      Record(InsertUse);
      return true;
    }

    /** The check and the conditional count shared by redeeming and by reserving a discount. */
    method ReserveUse(path: Path, userId: string) returns (seen: Code, ok: bool)
      requires Valid() && holder.None? && path != Balance
      modifies this`code, this`uses, this`holder, this`versions, this`log
      ensures Valid() && old(log) <= log && old(versions) <= versions && seen in versions
      ensures !ok ==> holder.None?
      ensures ok ==> var draft := code.(usedCount := code.usedCount + 1);
                     holder == Some(Holder(path, userId, draft, true, None, None, false))
      ensures ok ==> code.status == Active && code.usedCount == seen.usedCount
      ensures ok ==> code.maxUses == seen.maxUses && code.maxUsesPerUser == seen.maxUsesPerUser
      ensures ok ==> Usable(seen) && seen == old(code)
      ensures alone ==> code == old(code) && uses == old(uses) && seen == code
      ensures alone ==> (ok <==> Usable(code) && CountOf(uses, userId, |uses|) < code.maxUsesPerUser)
    {
      seen := code;
      Sound();
      if !Usable(seen) {
        return seen, false;
      }
      Meanwhile();
      if seen.maxUsesPerUser <= CountOf(uses, userId, |uses|) {
        return seen, false;
      }
      Meanwhile();
      if code.status != Active || code.usedCount != seen.usedCount || code.maxUsesPerUser != seen.maxUsesPerUser {
        return seen, false;
      }
      Sound();
      holder := Some(Holder(path, userId, code.(usedCount := code.usedCount + 1), true, None, None, false));
      Record(Reserve(path, userId, seen));
      return seen, true;
    }

    /** redeemRedemptionCode. */
    method RedeemCode(userId: string) returns (ok: bool)
      requires Valid() && holder.None?
      modifies this`code, this`uses, this`holder, this`versions, this`log
      ensures Valid() && holder.None? && old(log) <= log
      ensures ok ==> uses != [] && uses[|uses|-1].userId == userId
      ensures alone ==> (ok <==> old(code).status == Active && old(code).usedCount < old(code).maxUses
                                 && CountOf(old(uses), userId, |old(uses)|) < old(code).maxUsesPerUser)
      ensures alone && ok ==> uses == old(uses) + [Use(userId, CountOf(old(uses), userId, |old(uses)|) + 1,
                                                       old(code).maxUsesPerUser)]
      ensures alone && ok ==> code == old(code).(usedCount := old(code).usedCount + 1, status := code.status)
      ensures ok ==> code.usedCount == |uses| <= code.maxUses
      ensures ok ==> code.status == if code.usedCount == code.maxUses then Redeemed else Active
      ensures alone && !ok ==> code == old(code) && uses == old(uses)
    {
      hide Replay, Next;
      var seen, reserved := ReserveUse(Redeem, userId);
      if !reserved {
        return false;
      }
      var applied: bool := *;
      if !alone && !applied {
        RollBack();
        return false;
      }
      var recorded := RecordRedemptionUse(userId);
      if !recorded {
        RollBack();
        return false;
      }
      CloseCode(seen);
      CommitTransaction();
      return true;
    }

    /** The final update of the redeem path. */
    method CloseCode(seen: Code)
      requires Valid() && seen in versions && holder.Some? && holder.value.path == Redeem && holder.value.added.Some?
      modifies this`holder, this`log
      ensures Valid() && old(log) <= log
      ensures var h := old(holder).value;
              holder == Some(h.(closed := true, draft := h.draft.(status := Settled(seen))))
    {
      var h := holder.value;
      holder := Some(h.(closed := true, draft := h.draft.(status := Settled(seen))));
      Record(Close(seen));
    }

    /** A checkout with a discount code: reserveDiscount, the order, and the record of the use. */
    method CheckoutWithDiscount(userId: string) returns (ok: bool)
      requires Valid() && holder.None?
      modifies this`code, this`uses, this`holder, this`versions, this`log
      ensures Valid() && holder.None? && old(log) <= log
      ensures ok ==> uses != [] && uses[|uses|-1].userId == userId
      ensures alone ==> (ok <==> old(code).status == Active && old(code).usedCount < old(code).maxUses
                                 && CountOf(old(uses), userId, |old(uses)|) < old(code).maxUsesPerUser)
      ensures alone && ok ==> uses == old(uses) + [Use(userId, CountOf(old(uses), userId, |old(uses)|) + 1,
                                                       old(code).maxUsesPerUser)]
      ensures alone && ok ==> code == old(code).(usedCount := old(code).usedCount + 1)
      ensures ok ==> code.usedCount == |uses| <= code.maxUses && code.status == Active
      ensures alone && !ok ==> code == old(code) && uses == old(uses)
    {
      var seen, reserved := ReserveUse(Discount, userId);
      if !reserved {
        return false;
      }
      var ordered: bool := *;
      if !alone && !ordered {
        RollBack();
        return false;
      }
      var recorded := RecordRedemptionUse(userId);
      if !recorded {
        RollBack();
        return false;
      }
      CommitTransaction();
      return true;
    }

    /** purchaseWithBalance with a discount code: the use is recorded first and counted afterwards. */
    method PurchaseWithBalance(userId: string) returns (ok: bool)
      requires Valid() && holder.None?
      modifies this`code, this`uses, this`holder, this`versions, this`log
      ensures Valid() && holder.None? && old(log) <= log
      ensures ok ==> uses != [] && uses[|uses|-1].userId == userId
      ensures alone ==> (ok <==> old(code).status == Active && old(code).usedCount < old(code).maxUses
                                 && CountOf(old(uses), userId, |old(uses)|) < old(code).maxUsesPerUser)
      ensures alone && ok ==> uses == old(uses) + [Use(userId, CountOf(old(uses), userId, |old(uses)|) + 1,
                                                       old(code).maxUsesPerUser)]
      ensures alone && ok ==> code == old(code).(usedCount := old(code).usedCount + 1, status := code.status)
      ensures ok ==> code.usedCount == |uses| <= code.maxUses
      ensures ok ==> code.status == if code.usedCount == code.maxUses then Redeemed else Active
      ensures alone && !ok ==> code == old(code) && uses == old(uses)
    {
      var resolved := code;
      if !Usable(resolved) {
        return false;
      }
      Meanwhile();
      if resolved.maxUsesPerUser <= CountOf(uses, userId, |uses|) {
        return false;
      }
      Meanwhile();
      var seen := code;
      Sound();
      var recorded := RecordRedemptionUse(userId);
      if !recorded {
        if holder.Some? {
          RollBack();
        }
        return false;
      }
      ok := SpendUse(seen);
    }

    /** The balance path's conditional count, and the end of its transaction. */
    method SpendUse(seen: Code) returns (ok: bool)
      requires Valid() && seen in versions && holder.Some? && holder.value.added.Some?
      requires !holder.value.spent && holder.value.path == Balance && holder.value.draft == code
      modifies this`code, this`uses, this`holder, this`versions, this`log
      ensures Valid() && holder.None? && old(log) <= log
      ensures ok <==> old(code).usedCount == seen.usedCount < seen.maxUses && old(code).status == Active
      ensures ok ==> var h := old(holder).value;
                     uses == old(uses) + [Use(h.userId, h.added.value, old(code).maxUsesPerUser)]
      ensures ok ==> code == old(code).(usedCount := seen.usedCount + 1, status := code.status)
      ensures ok ==> code.usedCount == |uses| <= code.maxUses
      ensures ok ==> code.status == if code.usedCount == code.maxUses then Redeemed else Active
      ensures !ok ==> code == old(code) && uses == old(uses)
    {
      var h := holder.value;
      if h.draft.usedCount != seen.usedCount || seen.maxUses <= h.draft.usedCount || h.draft.status != Active {
        RollBack();
        return false;
      }
      Sound();
      holder := Some(h.(spent := true, draft := h.draft.(usedCount := seen.usedCount + 1, status := Settled(seen))));
      Record(Spend(seen));
      CommitTransaction();
      return true;
    }
  }
}
