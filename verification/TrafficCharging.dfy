/** Charging a user's traffic: the subscription's own allowance first, then traffic packs in creation
    order. Byte counts are unbounded integers here. */
module TrafficCharging {
  import opened Numbers

  datatype PackStatus = ActivePack | ExhaustedPack | ExpiredPack

  datatype PackRow = PackRow(remaining: nat, status: PackStatus)

  /** A subscription's allowance and the packs bound to it, oldest first. */
  datatype Account = Account(included: nat, bonus: nat, consumed: nat, packs: seq<PackRow>)

  /** What is left of the subscription's own allowance; it may have been overdrawn by a plan change. */
  function BaseLeft(a: Account): nat {
    if a.included + a.bonus <= a.consumed then 0 else a.included + a.bonus - a.consumed
  }

  function Capacity(p: PackRow): nat {
    if p.status == ActivePack then p.remaining else 0
  }

  /** The capacity of the first k packs. */
  function Before(packs: seq<PackRow>, k: nat): nat
    requires k <= |packs|
  {
    if k == 0 then 0 else Before(packs, k - 1) + Capacity(packs[k - 1])
  }

  function TotalLeft(a: Account): nat {
    BaseLeft(a) + Before(a.packs, |a.packs|)
  }

  /** How much of `amount` reaches a source of this capacity when `before` bytes are drained first. */
  function Taken(capacity: nat, before: nat, amount: nat): nat {
    if amount <= before then 0 else Min(capacity, amount - before)
  }

  /** A pack after `taken` bytes; `reached` says that the charge got as far as this pack. */
  function Drained(p: PackRow, taken: nat, reached: bool): PackRow
    requires taken <= p.remaining
  {
    if p.status != ActivePack || !reached then p
    else PackRow(p.remaining - taken, if p.remaining == taken then ExhaustedPack else ActivePack)
  }

  /** The declared effect of a charge on pack k, from the capacities before it. */
  function ChargedPack(packs: seq<PackRow>, amount: nat, k: nat): PackRow
    requires k < |packs|
  {
    var before := Before(packs, k);
    Drained(packs[k], Taken(Capacity(packs[k]), before, amount), before < amount)
  }

  function ChargedPacks(packs: seq<PackRow>, amount: nat): (r: seq<PackRow>)
    ensures |r| == |packs|
    ensures forall k :: 0 <= k < |packs| ==> r[k] == ChargedPack(packs, amount, k)
  {
    seq(|packs|, k requires 0 <= k < |packs| => ChargedPack(packs, amount, k))
  }

  function Charged(a: Account, amount: nat): Account {
    var base := Min(BaseLeft(a), amount);
    a.(consumed := a.consumed + base, packs := ChargedPacks(a.packs, amount - base))
  }

  // ----- the database rows, and the loop that changes them

  class Subscription {
    var included: nat
    var bonus: nat
    var consumed: nat
  }

  class TrafficPack {
    var remaining: nat
    var status: PackStatus

    function Row(): PackRow
      reads this
    {
      PackRow(remaining, status)
    }
  }

  /** The stored pack rows carry these values. */
  ghost predicate Stored(packs: seq<TrafficPack>, rows: seq<PackRow>)
    reads packs
  {
    |rows| == |packs| && forall i {:trigger packs[i]} :: 0 <= i < |packs| ==> packs[i].Row() == rows[i]
  }

  ghost predicate StoredAccount(s: Subscription, packs: seq<TrafficPack>, a: Account)
    reads s, packs
  {
    s.included == a.included && s.bonus == a.bonus && s.consumed == a.consumed && Stored(packs, a.packs)
  }

  /** applyUserTrafficInTransaction, for a user with an active subscription. `packs` are the rows bound to
      the subscription in creation order. */
  method ApplyUserTraffic(subscription: Subscription, packs: seq<TrafficPack>, tx: nat, rx: nat, ghost a: Account)
    requires forall i, j :: 0 <= i < j < |packs| ==> packs[i] != packs[j]
    requires StoredAccount(subscription, packs, a)
    modifies subscription, packs
    ensures StoredAccount(subscription, packs, Charged(a, tx + rx))
  {
    var remaining := tx + rx;
    var baseRemaining := subscription.included + subscription.bonus - subscription.consumed;
    if baseRemaining < 0 { baseRemaining := 0; }
    if baseRemaining > 0 {
      var consumeBase := Min(baseRemaining, remaining);
      subscription.consumed := subscription.consumed + consumeBase;
      remaining := remaining - consumeBase;
    }
    ChargePacks(packs, remaining, a.packs);
  }

  /** The loop over the ACTIVE packs; it stops once nothing remains to be charged. */
  method ChargePacks(packs: seq<TrafficPack>, amount: nat, ghost rows: seq<PackRow>)
    requires forall i, j :: 0 <= i < j < |packs| ==> packs[i] != packs[j]
    requires Stored(packs, rows)
    modifies packs
    ensures Stored(packs, ChargedPacks(rows, amount))
  {
    var remaining, i := amount, 0;
    ghost var now := rows;
    while i < |packs| && remaining > 0
      invariant 0 <= i <= |packs| == |now|
      invariant Stored(packs, now) && ChargedUpTo(rows, amount, i, now)
      invariant remaining == Rest(rows, amount, i)
    {
      remaining, now := ChargePack(packs, i, remaining, rows, amount, now);
      i := i + 1;
    }
    ChargedUpToTheEnd(rows, amount, i, now);
  }

  /** What is still to be charged after the first i packs. */
  ghost function Rest(rows: seq<PackRow>, amount: nat, i: nat): nat
    requires i <= |rows|
  {
    amount - Min(amount, Before(rows, i))
  }

  ghost predicate ChargedUpTo(rows: seq<PackRow>, amount: nat, i: nat, now: seq<PackRow>)
    requires i <= |rows|
  {
    && |now| == |rows|
    && (forall k {:trigger now[k]} :: 0 <= k < i ==> now[k] == ChargedPack(rows, amount, k))
    && (forall k {:trigger now[k]} :: i <= k < |rows| ==> now[k] == rows[k])
  }

  lemma ChargeOne(rows: seq<PackRow>, amount: nat, i: nat, now: seq<PackRow>) returns (next: seq<PackRow>)
    requires i < |rows| && ChargedUpTo(rows, amount, i, now) && Rest(rows, amount, i) > 0
    ensures next == now[i := Drained(now[i], Min(Capacity(now[i]), Rest(rows, amount, i)), true)]
    ensures ChargedUpTo(rows, amount, i + 1, next)
    ensures Rest(rows, amount, i + 1) == Rest(rows, amount, i) - Min(Capacity(now[i]), Rest(rows, amount, i))
  {
    next := now[i := ChargedPack(rows, amount, i)];
  }

  lemma ChargedUpToTheEnd(rows: seq<PackRow>, amount: nat, i: nat, now: seq<PackRow>)
    requires i <= |rows| && ChargedUpTo(rows, amount, i, now) && (i < |rows| ==> Rest(rows, amount, i) == 0)
    ensures now == ChargedPacks(rows, amount)
  {
    forall k | i <= k < |rows| ensures ChargedPack(rows, amount, k) == rows[k] {
      BeforeGrows(rows, i, k);
    }
  }

  /** One round of the loop. */
  method ChargePack(packs: seq<TrafficPack>, i: nat, remaining: nat,
                    ghost rows: seq<PackRow>, ghost amount: nat, ghost now: seq<PackRow>)
    returns (left: nat, ghost next: seq<PackRow>)
    requires forall i, j :: 0 <= i < j < |packs| ==> packs[i] != packs[j]
    requires i < |packs| == |rows| && remaining > 0 && remaining == Rest(rows, amount, i)
    requires Stored(packs, now) && ChargedUpTo(rows, amount, i, now)
    modifies packs[i]
    ensures Stored(packs, next) && ChargedUpTo(rows, amount, i + 1, next)
    ensures left == Rest(rows, amount, i + 1)
  {
    next := ChargeOne(rows, amount, i, now);
    var pack := packs[i];
    if pack.status != ActivePack { return remaining, next; }
    var consume := Min(pack.remaining, remaining);
    var nextRemaining := pack.remaining - consume;
    pack.remaining := nextRemaining;
    pack.status := if nextRemaining <= 0 then ExhaustedPack else ActivePack;
    return remaining - consume, next;
  }

  lemma {:induction false} BeforeGrows(packs: seq<PackRow>, i: nat, k: nat)
    requires i <= k <= |packs|
    ensures Before(packs, i) <= Before(packs, k)
  {
    if i < k { BeforeGrows(packs, i, k - 1); }
  }

  // ----- what a charge is

  /** The capacity left in the first k packs after a charge. */
  lemma {:induction false} BeforeAfterCharge(packs: seq<PackRow>, amount: nat, k: nat)
    requires k <= |packs|
    ensures Before(ChargedPacks(packs, amount), k) == Before(packs, k) - Min(amount, Before(packs, k))
  {
    if k > 0 { BeforeAfterCharge(packs, amount, k - 1); }
  }

  lemma BaseAfterCharge(a: Account, amount: nat)
    ensures BaseLeft(Charged(a, amount)) == BaseLeft(a) - Min(BaseLeft(a), amount)
  {}

  /** The included and the bonus bytes that are not used yet go first; the packs see only what is left over,
      and those that are not active see nothing of it. */
  lemma AllowanceGoesFirst(a: Account, amount: nat)
    ensures var c := Charged(a, amount);
            var unused := if a.consumed < a.included + a.bonus then a.included + a.bonus - a.consumed else 0;
            && c.included == a.included && c.bonus == a.bonus
            && c.consumed == a.consumed + (if amount < unused then amount else unused)
            && |c.packs| == |a.packs|
            && (amount <= unused ==> c.packs == a.packs)
            && forall k :: 0 <= k < |a.packs| ==>
                 && c.packs[k].remaining <= a.packs[k].remaining
                 && (a.packs[k].status != ActivePack ==> c.packs[k] == a.packs[k])
  {
    if amount <= BaseLeft(a) {
      assert ChargedPacks(a.packs, 0) == a.packs;
    }
  }

  /** A charge takes exactly as much as there is, and no more than was used. */
  lemma ChargeTakesTheMinimum(a: Account, amount: nat)
    ensures TotalLeft(Charged(a, amount)) == TotalLeft(a) - Min(amount, TotalLeft(a))
  {
    BaseAfterCharge(a, amount);
    BeforeAfterCharge(a.packs, amount - Min(BaseLeft(a), amount), |a.packs|);
  }

  /** A pack is touched only when every earlier source is empty, and a touched pack is exhausted exactly
      when nothing remains in it. */
  lemma TouchedInOrder(a: Account, amount: nat, k: nat)
    requires k < |a.packs| && Charged(a, amount).packs[k] != a.packs[k]
    ensures a.packs[k].status == ActivePack
    ensures BaseLeft(Charged(a, amount)) == 0
    ensures forall i :: 0 <= i < k ==> Capacity(Charged(a, amount).packs[i]) == 0
    ensures Charged(a, amount).packs[k].status == ExhaustedPack <==> Charged(a, amount).packs[k].remaining == 0
  {
    forall i | 0 <= i < k ensures Capacity(Charged(a, amount).packs[i]) == 0 {
      BeforeGrows(a.packs, i + 1, k);
    }
  }

  lemma PacksChargeTwice(packs: seq<PackRow>, x: nat, y: nat, k: nat)
    requires k < |packs|
    ensures ChargedPack(ChargedPacks(packs, x), y, k) == ChargedPack(packs, x + y, k)
  {
    BeforeAfterCharge(packs, x, k);
  }

  /** Charging in two parts is charging the sum, so neither the split of traffic into batches nor the
      order in which batches are imported changes an account. */
  lemma ChargesAdd(a: Account, x: nat, y: nat)
    ensures Charged(Charged(a, x), y) == Charged(a, x + y)
  {
    BaseAfterCharge(a, x);
    var restX, restY := x - Min(BaseLeft(a), x), y - Min(BaseLeft(Charged(a, x)), y);
    assert x + y - Min(BaseLeft(a), x + y) == restX + restY;
    forall k | 0 <= k < |a.packs|
      ensures ChargedPack(ChargedPacks(a.packs, restX), restY, k) == ChargedPack(a.packs, restX + restY, k)
    {
      PacksChargeTwice(a.packs, restX, restY, k);
    }
    assert ChargedPacks(ChargedPacks(a.packs, restX), restY) == ChargedPacks(a.packs, restX + restY);
  }

  lemma ChargesCommute(a: Account, x: nat, y: nat)
    ensures Charged(Charged(a, x), y) == Charged(Charged(a, y), x)
  {
    ChargesAdd(a, x, y);
    ChargesAdd(a, y, x);
  }
}
