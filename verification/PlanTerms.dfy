/** The term of a user's plan subscription: renewals and purchases at the checkout, plan redemption codes,
    and the grant they end in. */
module PlanTerms {
  import opened Numbers
  import opened Options
  import opened UtcCalendar

  datatype Status = Active | Paused | Canceled

  datatype Plan = Plan(id: string, durationDays: int, trafficBytes: nat)

  datatype Subscription = Subscription(
    planId: string,
    planOfferId: Option<string>,
    status: Status,
    startsAt: Time,
    endsAt: Time,
    includedBytes: nat,
    bonusBytes: nat,
    consumedBytes: nat)

  datatype Mode = Renew | Replace

  datatype Window = Window(renewsCurrent: bool, forceReplace: bool, startsAt: Time, endsAt: Time)

  /** A missing interval and an interval of zero months both mean a duration in days. */
  predicate ByMonths(months: Option<int>) {
    months.Some? && months.value != 0
  }

  function ResolveWindow(mode: Mode, currentPlan: Option<string>, targetPlan: string, currentStartsAt: Option<Time>,
                         currentEndsAt: Option<Time>, redeemedAt: Time, months: Option<int>, days: int): Window {
    var renewsCurrent := mode == Renew && currentPlan == Some(targetPlan);
    var prolongs := renewsCurrent && currentEndsAt.Some? && redeemedAt < currentEndsAt.value;
    var startsAt := if prolongs then currentEndsAt.value else redeemedAt;
    var anchorDay := UtcDate(if prolongs && currentStartsAt.Some? then currentStartsAt.value else startsAt);
    var endsAt := if ByMonths(months) then AddMonthsBySetting(startsAt, months.value, anchorDay)
                  else AddUtcDays(startsAt, days);
    Window(renewsCurrent, mode == Replace, startsAt, endsAt)
  }

  /** The window resolved against the open subscription, as a plan code passes it. */
  function WindowFor(mode: Mode, row: Option<Subscription>, plan: Plan, redeemedAt: Time, months: Option<int>): Window {
    ResolveWindow(mode, if row.Some? then Some(row.value.planId) else None, plan.id,
                  if row.Some? then Some(row.value.startsAt) else None,
                  if row.Some? then Some(row.value.endsAt) else None, redeemedAt, months, plan.durationDays)
  }

  predicate Extends(row: Option<Subscription>, planId: string, at: Time, replace: bool) {
    row.Some? && row.value.planId == planId && !replace && at < row.value.endsAt
  }

  function EndOf(from: Time, months: Option<int>, days: int, anchorDay: int): Time {
    if ByMonths(months) then AddMonthsClamped(from, months.value, anchorDay) else AddUtcDays(from, days)
  }

  /** The row after a grant: the current term is extended, or a term begins at the time of the grant. */
  function Granted(row: Option<Subscription>, plan: Plan, at: Time, months: Option<int>, offer: Option<string>,
                   bytes: Option<nat>, replace: bool): Subscription {
    if Extends(row, plan.id, at, replace) then
      var s := row.value;
      s.(planOfferId := if offer.Some? then offer else s.planOfferId,
         status := Active,
         endsAt := EndOf(s.endsAt, months, plan.durationDays, UtcDate(s.startsAt)),
         includedBytes := if bytes.Some? then bytes.value else s.includedBytes + plan.trafficBytes)
    else
      Subscription(plan.id, if offer.Some? || row.None? then offer else row.value.planOfferId, Active, at,
                   EndOf(at, months, plan.durationDays, UtcDate(at)),
                   if bytes.Some? then bytes.value else plan.trafficBytes, 0, 0)
  }

  /** For every mode, plan, term and duration, the window a code resolves ends when the granted
      subscription ends. */
  lemma WindowIsWhatIsGranted(mode: Mode, row: Option<Subscription>, plan: Plan, at: Time, months: Option<int>,
                              offer: Option<string>, bytes: Option<nat>)
    ensures var w := WindowFor(mode, row, plan, at, months);
            var granted := Granted(row, plan, at, months, offer, bytes, w.forceReplace);
            && w.endsAt == granted.endsAt
            && w.startsAt == (if Extends(row, plan.id, at, w.forceReplace) then row.value.endsAt else granted.startsAt)
            && (w.forceReplace <==> mode == Replace)
            && (w.renewsCurrent <==> mode == Renew && row.Some? && row.value.planId == plan.id)
  {
    hide AddMonthsBySetting, AddMonthsClamped, AddUtcDays, UtcDate;
    if ByMonths(months) {
      if Extends(row, plan.id, at, mode == Replace) {
        MonthsAdded(row.value.endsAt, months.value, UtcDate(row.value.startsAt));
      } else {
        MonthsAdded(at, months.value, UtcDate(at));
      }
    }
  }

  /** What is granted, in dates and bytes: a term of the same plan that still runs goes on from its end and
      keeps its start, its bonus and what is used of it, unless it is to be replaced; anything else begins
      at the grant with nothing used. Days are added as days, months to the day the term began on. */
  lemma GrantedIs(row: Option<Subscription>, plan: Plan, at: Time, months: Option<int>, offer: Option<string>,
                  bytes: Option<nat>, replace: bool)
    ensures var goesOn := row.Some? && row.value.planId == plan.id && !replace && at < row.value.endsAt;
            var s := Granted(row, plan, at, months, offer, bytes, replace);
            var from := if goesOn then row.value.endsAt else at;
            && s.planId == plan.id && s.status == Active
            && s.startsAt == (if goesOn then row.value.startsAt else at)
            && s.endsAt == (if months.None? || months.value == 0 then from + plan.durationDays * MS_PER_DAY
                            else Anchored(from, months.value, s.startsAt))
            && s.includedBytes == (if bytes.Some? then bytes.value
                                   else plan.trafficBytes + if goesOn then row.value.includedBytes else 0)
            && s.bonusBytes == (if goesOn then row.value.bonusBytes else 0)
            && s.consumedBytes == (if goesOn then row.value.consumedBytes else 0)
            && s.planOfferId == (if offer.Some? then offer else if row.Some? then row.value.planOfferId else None)
  {
    hide AddMonthsClamped, AddUtcDays, UtcDate, MonthOf, DaysIn, TimeWithinDay, On;
    var from := if Extends(row, plan.id, at, replace) then row.value.endsAt else at;
    var began := if Extends(row, plan.id, at, replace) then row.value.startsAt else at;
    DaysAreWhole(from, plan.durationDays);
    if months.Some? { MonthsAdded(from, months.value, UtcDate(began)); }
  }

  /** So many months after a date, on the day of the month and at the time the calendar has for it: the day
      on which the term began, or the last day of a shorter month. */
  function Anchored(from: Time, months: int, began: Time): Time {
    On(MonthOf(from) + months, Min(UtcDate(began), DaysIn(MonthOf(from) + months)), TimeWithinDay(from))
  }

  datatype Billing = Permanent | Legacy(days: Option<int>) | Interval(months: Option<int>)

  /** permanentEntitlementEnd: the last millisecond of the year 9999. */
  function PermanentEnd(): Time {
    DateUtc(9999, 11, 31, MS_PER_DAY - 1)
  }

  /** offerExpiry: None stands for the rejected request. */
  function OfferExpiry(startsAt: Time, billing: Billing, renewalAnchor: Option<Time>): Option<Time> {
    match billing
    case Permanent => Some(PermanentEnd())
    case Legacy(days) => if days.None? || days.value == 0 then None else Some(AddUtcDays(startsAt, days.value))
    case Interval(months) =>
      if !ByMonths(months) then None
      else
        var anchor := if renewalAnchor.Some? then renewalAnchor.value else startsAt;
        Some(AddMonthsClamped(startsAt, months.value, UtcDate(anchor)))
  }

  lemma LastDecember(month: int)
    requires month == 12 * (9999 - 1970) + 11
    ensures FirstDay(month) == 2932866
  {
    ClosedForm(month);
    hide FirstDay;
    assert month / 12 == 8029 && month % 12 == 11 && !Leap(9999) && DayFromYear(9999) == 2932532;
  }

  lemma PermanentEndIs()
    ensures PermanentEnd() == 253402300799999
  {
    hide FirstDay;
    LastDecember(12 * (9999 - 1970) + 11);
  }

  /** Where bought time ends, for each kind of billing, counted on from a date: the end of the year 9999 in
      milliseconds, whole days, or months on the day the term began on; no other offer is for sale. */
  lemma ExpiryIs(from: Time, billing: Billing, renewalAnchor: Option<Time>)
    ensures OfferExpiry(from, billing, renewalAnchor)
            == match billing
               case Permanent => Some(253402300799999)
               case Legacy(days) =>
                 if days == None || days == Some(0) then None else Some(from + days.value * 86400000)
               case Interval(months) =>
                 if months == None || months == Some(0) then None
                 else Some(Anchored(from, months.value, if renewalAnchor.Some? then renewalAnchor.value else from))
  {
    hide AddMonthsClamped, AddUtcDays, UtcDate, PermanentEnd;
    match billing
    case Permanent => PermanentEndIs();
    case Legacy(days) => if days.Some? { DaysAreWhole(from, days.value); }
    case Interval(months) =>
      if months.Some? {
        MonthsAdded(from, months.value, UtcDate(if renewalAnchor.Some? then renewalAnchor.value else from));
      }
  }

  /** The current term of the plan, as the checkout looks it up. */
  predicate Current(row: Option<Subscription>, at: Time) {
    row.Some? && row.value.status != Canceled && row.value.startsAt <= at < row.value.endsAt
  }

  predicate RenewsAtCheckout(row: Option<Subscription>, planId: string, at: Time, complimentary: bool) {
    Current(row, at) && row.value.planId == planId && !complimentary
  }

  /** A new term. */
  function Opened(planId: string, billing: Billing, offer: Option<string>, bytes: nat, startsAt: Time)
    : Option<Subscription>
  {
    var expiry := OfferExpiry(startsAt, billing, None);
    if expiry.None? then None else Some(Subscription(planId, offer, Active, startsAt, expiry.value, bytes, 0, 0))
  }

  predicate Scheduled(row: Option<Subscription>, planId: string, at: Time, complimentary: bool,
                      scheduledAt: Option<Time>) {
    Current(row, at) && !RenewsAtCheckout(row, planId, at, complimentary) && scheduledAt.Some?
  }

  /** What an immediate switch does to an open row: it ends now, or never begins. */
  function Closed(s: Subscription, at: Time): Subscription {
    if s.status == Canceled then s
    else if s.startsAt <= at then s.(status := Canceled, endsAt := at)
    else s.(status := Canceled)
  }

  function AllClosed(rows: seq<Subscription>, at: Time): (r: seq<Subscription>)
    ensures |r| == |rows|
    ensures forall k :: 0 <= k < |r| ==> r[k] == Closed(rows[k], at)
  {
    seq(|rows|, k requires 0 <= k < |rows| => Closed(rows[k], at))
  }

  /** The other rows after a checkout that takes effect at once. */
  function Replaced(row: Option<Subscription>, others: seq<Subscription>, planId: string, at: Time,
                    complimentary: bool): seq<Subscription> {
    if RenewsAtCheckout(row, planId, at, complimentary) then others
    else if Current(row, at) then AllClosed(others + [row.value], at)
    else others + if row.Some? then [row.value] else []
  }

  /** An immediate switch leaves no other term in effect, then or later. */
  lemma ReplacedRowsAreOver(row: Option<Subscription>, others: seq<Subscription>, planId: string, at: Time,
                            complimentary: bool, later: Time)
    requires Current(row, at) && !RenewsAtCheckout(row, planId, at, complimentary)
    ensures forall s :: s in Replaced(row, others, planId, at, complimentary) ==> !Current(Some(s), later)
  {}

  /** The row after a checkout of a plan offer that takes effect at once. */
  function Purchased(row: Option<Subscription>, planId: string, billing: Billing, offer: Option<string>, bytes: nat,
                     at: Time, complimentary: bool): Option<Subscription> {
    if RenewsAtCheckout(row, planId, at, complimentary) then
      var s := row.value;
      var expiry := OfferExpiry(s.endsAt, billing, Some(s.startsAt));
      if expiry.None? then None
      else Some(s.(planOfferId := offer, status := Active, endsAt := expiry.value, includedBytes := bytes))
    else Opened(planId, billing, offer, bytes, at)
  }

  /** What a purchase leaves. A term of the same plan that is in effect goes on from its end, with its start,
      its bonus and what is used of it; any other purchase begins a term with nothing used. */
  lemma PurchasedIs(row: Option<Subscription>, planId: string, billing: Billing, offer: Option<string>, bytes: nat,
                    at: Time, complimentary: bool)
    ensures var renews := row.Some? && row.value.status != Canceled && row.value.startsAt <= at < row.value.endsAt
                          && row.value.planId == planId && !complimentary;
            var bought := Purchased(row, planId, billing, offer, bytes, at, complimentary);
            var from := if renews then row.value.endsAt else at;
            && (RenewsAtCheckout(row, planId, at, complimentary) <==> renews)
            && (bought.Some? <==> billing !in {Legacy(None), Legacy(Some(0)), Interval(None), Interval(Some(0))})
            && (bought.Some? ==>
                  var s := bought.value;
                  && s.planId == planId && s.planOfferId == offer && s.status == Active && s.includedBytes == bytes
                  && s.startsAt == (if renews then row.value.startsAt else at)
                  && s.bonusBytes == (if renews then row.value.bonusBytes else 0)
                  && s.consumedBytes == (if renews then row.value.consumedBytes else 0)
                  && s.endsAt == match billing
                                 case Permanent => 253402300799999
                                 case Legacy(days) => from + days.value * 86400000
                                 case Interval(months) => Anchored(from, months.value, s.startsAt))
  {
    hide OfferExpiry, Anchored;
    if RenewsAtCheckout(row, planId, at, complimentary) {
      ExpiryIs(row.value.endsAt, billing, Some(row.value.startsAt));
    } else {
      ExpiryIs(at, billing, None);
    }
  }

  /** A switch that is scheduled leaves the term in effect alone and is a new purchase at its date. */
  lemma ScheduledIs(row: Option<Subscription>, planId: string, billing: Billing, offer: Option<string>, bytes: nat,
                    at: Time, complimentary: bool, scheduledAt: Option<Time>)
    ensures Scheduled(row, planId, at, complimentary, scheduledAt)
            <==> row.Some? && row.value.status != Canceled && row.value.startsAt <= at < row.value.endsAt
                 && (row.value.planId == planId ==> complimentary) && scheduledAt.Some?
    ensures scheduledAt.Some? ==>
              Opened(planId, billing, offer, bytes, scheduledAt.value)
              == Purchased(None, planId, billing, offer, bytes, scheduledAt.value, complimentary)
  {}

  /** What becomes of the other rows: nothing at a renewal or a first purchase; a switch cancels every one
      that was open, and those that had begun end now. */
  lemma ReplacedIs(row: Option<Subscription>, others: seq<Subscription>, planId: string, at: Time,
                   complimentary: bool, k: nat)
    requires k < |others|
    ensures var switched := Current(row, at) && !RenewsAtCheckout(row, planId, at, complimentary);
            var r, s := Replaced(row, others, planId, at, complimentary), others[k];
            && |r| == |others| + (if RenewsAtCheckout(row, planId, at, complimentary) || row.None? then 0 else 1)
            && r[k] == (if !switched || s.status == Canceled then s
                        else s.(status := Canceled, endsAt := if s.startsAt <= at then at else s.endsAt))
            && (|others| < |r| ==>
                  r[|others|] == if switched then row.value.(status := Canceled, endsAt := at) else row.value)
  {}

  datatype Order = Order(planId: string, entitlementExpiresAt: Time, processedAt: Time)

  class Subscriptions {
    var row: Option<Subscription>       // the subscription in effect
    var others: seq<Subscription>       // replaced, lapsed and scheduled ones
    var orders: seq<Order>

    constructor ()
      ensures row == None && others == [] && orders == []
    {
      row, others, orders := None, [], [];
    }

    method GrantPlanEntitlement(plan: Plan, grantedAt: Time, months: Option<int>, offer: Option<string>,
                                bytes: Option<nat>, forceReplace: bool)
      modifies this`row
      ensures row == Some(Granted(old(row), plan, grantedAt, months, offer, bytes, forceReplace))
      ensures Extends(old(row), plan.id, grantedAt, forceReplace) ==>
                row.value.startsAt == old(row).value.startsAt && row.value.consumedBytes == old(row).value.consumedBytes
    {
      if row.Some? {
        var existing := row.value;
        if existing.planId == plan.id && !forceReplace && grantedAt < existing.endsAt {
          var base := existing.endsAt;
          var extended;
          if months.Some? && months.value != 0 {
            extended := AddMonthsClamped(base, months.value, UtcDate(existing.startsAt));
          } else {
            extended := SetUtcDate(base, UtcDate(base) + plan.durationDays);
          }
          if offer.Some? {
            existing := existing.(planOfferId := offer);
          }
          var included := if bytes.Some? then bytes.value else existing.includedBytes + plan.trafficBytes;
          row := Some(existing.(status := Active, endsAt := extended, includedBytes := included));
          return;
        }
        if offer.Some? {
          existing := existing.(planOfferId := offer);
        }
        var included := if bytes.Some? then bytes.value else plan.trafficBytes;
        existing := existing.(planId := plan.id, status := Active, startsAt := grantedAt);
        existing := existing.(endsAt := EndOf(grantedAt, months, plan.durationDays, UtcDate(grantedAt)));
        row := Some(existing.(includedBytes := included, bonusBytes := 0, consumedBytes := 0));
        return;
      }
      row := Some(Subscription(plan.id, offer, Active, grantedAt,
                               EndOf(grantedAt, months, plan.durationDays, UtcDate(grantedAt)),
                               if bytes.Some? then bytes.value else plan.trafficBytes, 0, 0));
    }

    /** The order is written first, with the end the window gives; the grant then writes the
        subscription. */
    method ApplyPlanRedemptionCode(mode: Mode, plan: Plan, redeemedAt: Time, months: Option<int>,
                                   offer: Option<string>, bytes: nat)
      returns (order: Order)
      modifies this
      ensures orders == old(orders) + [order] && order.planId == plan.id && order.processedAt == redeemedAt
      ensures row == Some(Granted(old(row), plan, redeemedAt, months, offer, Some(bytes), mode == Replace))
      ensures row.value.endsAt == order.entitlementExpiresAt && others == old(others)
    {
      var window := WindowFor(mode, row, plan, redeemedAt, months);
      order := Order(plan.id, window.endsAt, redeemedAt);
      orders := orders + [order];
      WindowIsWhatIsGranted(mode, row, plan, redeemedAt, months, offer, Some(bytes));
      GrantPlanEntitlement(plan, redeemedAt, months, offer, Some(bytes), window.forceReplace);
    }

    /** The plan branch of a checkout: the term in effect is renewed, or a new one is written; it begins at
        once, closing every open row when it replaces the term in effect, or when a scheduled switch says.
        False when the offer's duration is invalid. */
    method Checkout(planId: string, billing: Billing, offer: Option<string>, bytes: nat, purchasedAt: Time,
                    complimentary: bool, scheduledAt: Option<Time>)
      returns (ok: bool, ghost written: Option<Subscription>)
      modifies this
      ensures written == if Scheduled(old(row), planId, purchasedAt, complimentary, scheduledAt)
                         then Opened(planId, billing, offer, bytes, scheduledAt.value)
                         else Purchased(old(row), planId, billing, offer, bytes, purchasedAt, complimentary)
      ensures ok <==> written.Some?
      ensures !ok ==> row == old(row) && others == old(others) && orders == old(orders)
      ensures ok && Scheduled(old(row), planId, purchasedAt, complimentary, scheduledAt) ==>
                row == old(row) && others == old(others) + [written.value]
      ensures ok && !Scheduled(old(row), planId, purchasedAt, complimentary, scheduledAt) ==>
                row == written && others == Replaced(old(row), old(others), planId, purchasedAt, complimentary)
      ensures ok ==> orders == old(orders) + [Order(planId, written.value.endsAt, purchasedAt)]
    {
      hide OfferExpiry;
      var existing := row.Some? && row.value.status != Canceled && row.value.startsAt <= purchasedAt < row.value.endsAt;
      if existing && row.value.planId == planId && !complimentary {
        var expiry := OfferExpiry(row.value.endsAt, billing, Some(row.value.startsAt));
        if expiry.None? {
          return false, None;
        }
        row := Some(row.value.(planOfferId := offer, status := Active, endsAt := expiry.value, includedBytes := bytes));
        orders := orders + [Order(planId, expiry.value, purchasedAt)];
        return true, row;
      }
      var scheduled := existing && scheduledAt.Some?;
      var startsAt := if scheduled then scheduledAt.value else purchasedAt;
      var expiry := OfferExpiry(startsAt, billing, None);
      if expiry.None? {
        return false, None;
      }
      var subscription := Subscription(planId, offer, Active, startsAt, expiry.value, bytes, 0, 0);
      if scheduled {
        others := others + [subscription];
      } else {
        if row.Some? {
          others := others + [row.value];
        }
        if existing {
          others := AllClosed(others, purchasedAt);
        }
        row := Some(subscription);
      }
      orders := orders + [Order(planId, expiry.value, purchasedAt)];
      return true, Some(subscription);
    }
  }

  /** A purchase of one plan for so many months or days: at the checkout or with a code. The days of a code
      are the plan's at that time. */
  datatype Length = Months(n: int) | Days(n: int)
  datatype Buy = AtCheckout(at: Time, length: Length) | WithCode(at: Time, length: Length, mode: Mode)

  predicate Prolongs(row: Option<Subscription>, plan: Plan, b: Buy) {
    match b
    case AtCheckout(at, _) => RenewsAtCheckout(row, plan.id, at, false)
    case WithCode(at, _, mode) => Extends(row, plan.id, at, mode == Replace)
  }

  function Bought(row: Option<Subscription>, plan: Plan, b: Buy): Subscription
    requires b.length.n != 0
  {
    match b
    case AtCheckout(at, Months(n)) =>
      Purchased(row, plan.id, Interval(Some(n)), None, plan.trafficBytes, at, false).value
    case AtCheckout(at, Days(n)) =>
      Purchased(row, plan.id, Legacy(Some(n)), None, plan.trafficBytes, at, false).value
    case WithCode(at, Months(n), mode) =>
      Granted(row, plan, at, Some(n), None, Some(plan.trafficBytes), mode == Replace)
    case WithCode(at, Days(n), mode) =>
      Granted(row, plan.(durationDays := n), at, None, None, Some(plan.trafficBytes), mode == Replace)
  }

  ghost predicate AllPositive(buys: seq<Buy>) {
    forall k :: 0 <= k < |buys| ==> 0 < buys[k].length.n
  }

  function After(plan: Plan, buys: seq<Buy>, n: nat): (r: Option<Subscription>)
    requires AllPositive(buys) && n <= |buys|
    ensures r.Some? <==> n > 0
  {
    if n == 0 then None else Some(Bought(After(plan, buys, n - 1), plan, buys[n - 1]))
  }

  /** Which of the first n purchases began the term that is current after them. */
  function TermBegan(plan: Plan, buys: seq<Buy>, n: nat): (k: nat)
    requires AllPositive(buys) && 0 < n <= |buys|
    ensures k < n
  {
    if n > 1 && Prolongs(After(plan, buys, n - 1), plan, buys[n - 1]) then TermBegan(plan, buys, n - 1) else n - 1
  }

  function Total(buys: seq<Buy>, k: nat, n: nat): int
    requires k <= n <= |buys|
  {
    if k == n then 0 else Total(buys, k, n - 1) + buys[n - 1].length.n
  }

  lemma BoughtIs(row: Option<Subscription>, plan: Plan, b: Buy)
    requires b.length.n != 0
    ensures var s := Bought(row, plan, b);
            var from := if Prolongs(row, plan, b) then row.value.endsAt else b.at;
            && s.planId == plan.id
            && s.startsAt == (if Prolongs(row, plan, b) then row.value.startsAt else b.at)
            && s.endsAt == match b.length
                           case Months(n) => AddMonthsClamped(from, n, UtcDate(s.startsAt))
                           case Days(n) => from + n * MS_PER_DAY
  {
    hide AddMonthsClamped, UtcDate, AddUtcDays;
    var from := if Prolongs(row, plan, b) then row.value.endsAt else b.at;
    DaysAreWhole(from, b.length.n);
  }

  /** However a term is prolonged, in whatever portions and through whichever path: bought by months, it ends
      where one addition of all the months since it began would end it, and bought by days, all the days
      after its start. */
  lemma {:induction false} RenewalsAddUp(plan: Plan, buys: seq<Buy>, n: nat)
    requires AllPositive(buys) && 0 < n <= |buys|
    ensures var s := After(plan, buys, n).value;
            var k := TermBegan(plan, buys, n);
            && s.startsAt == buys[k].at
            && ((forall i :: k <= i < n ==> buys[i].length.Months?) ==>
                  s.endsAt == AddMonthsClamped(s.startsAt, Total(buys, k, n), UtcDate(s.startsAt)))
            && ((forall i :: k <= i < n ==> buys[i].length.Days?) ==>
                  s.endsAt == s.startsAt + Total(buys, k, n) * MS_PER_DAY)
  {
    hide AddMonthsClamped, UtcDate, Bought;
    var row, b := After(plan, buys, n - 1), buys[n - 1];
    BoughtIs(row, plan, b);
    if n > 1 {
      RenewalsAddUp(plan, buys, n - 1);
      if Prolongs(row, plan, b) {
        var start, k := row.value.startsAt, TermBegan(plan, buys, n - 1);
        MonthsCompose(start, Total(buys, k, n - 1), b.length.n, UtcDate(start));
      }
    }
    assert Total(buys, n - 1, n) == Total(buys, n - 1, n - 1) + b.length.n;
  }

  /** A term bought by months ends on the day of the month it began on, or on the last day of a shorter
      month, at the time of day it began. */
  lemma TermsKeepTheirDay(plan: Plan, buys: seq<Buy>, n: nat)
    requires AllPositive(buys) && 0 < n <= |buys|
    requires forall i :: TermBegan(plan, buys, n) <= i < n ==> buys[i].length.Months?
    ensures var s := After(plan, buys, n).value;
            && UtcDate(s.endsAt) == Min(UtcDate(s.startsAt), DaysIn(MonthOf(s.endsAt)))
            && TimeWithinDay(s.endsAt) == TimeWithinDay(s.startsAt)
  {
    hide AddMonthsClamped, UtcDate, TimeWithinDay, MonthOf, DaysIn, After;
    RenewalsAddUp(plan, buys, n);
    var s := After(plan, buys, n).value;
    MonthsAddedReadBack(s.startsAt, Total(buys, TermBegan(plan, buys, n), n), UtcDate(s.startsAt));
  }

  /** A purchase that prolongs a term moves its end later, and days by exactly these days. */
  lemma RenewalsEndLater(row: Option<Subscription>, plan: Plan, b: Buy)
    requires 0 < b.length.n && Prolongs(row, plan, b)
    ensures row.value.endsAt < Bought(row, plan, b).endsAt
    ensures b.length.Days? ==> Bought(row, plan, b).endsAt == row.value.endsAt + b.length.n * MS_PER_DAY
  {
    hide AddMonthsClamped, UtcDate, Bought, FirstDay, DaysIn, MonthOf, On, TimeWithinDay;
    BoughtIs(row, plan, b);
    if b.length.Months? {
      var end, anchor, n := row.value.endsAt, UtcDate(row.value.startsAt), b.length.n;
      MonthsAdded(end, n, anchor);
      WrittenBack(end);
      LaterMonthIsLater(MonthOf(end), MonthOf(end) + n, UtcDate(end), Min(anchor, DaysIn(MonthOf(end) + n)),
                        TimeWithinDay(end));
    }
  }

  lemma LaterMonthIsLater(m: int, n: int, d: int, e: int, time: int)
    requires m < n && d <= DaysIn(m) && 1 <= e && 0 <= time < MS_PER_DAY
    ensures On(m, d, time) < On(n, e, time)
  {
    MonthsAreOrdered(m, n);
  }
}
