/** Coupons: what a code saves, when it may be used, and the redemption log whose
    caps the store enforces under its lock. */
module Coupons {
  import opened Prelude
  import opened Calendar

  datatype Discount = Percent(percent: nat) | Fixed(rubles: int)

  datatype Coupon = Coupon(
    id: string,
    code: string,
    discount: Discount,
    validUntil: Option<string>,
    maxRedemptions: Option<nat>,
    perUserLimit: Option<nat>,
    questIds: Option<seq<string>>,
    paused: bool)

  datatype Redemption = Redemption(couponId: string, user: string, quest: string, amount: int, at: string)

  datatype Reject = NotFound | Paused | Expired | Exhausted | PerUserLimit | NotApplicable

  datatype Status = Active | OnPause | PastDate | Spent

  predicate ValidDiscount(d: Discount) {
    match d
    case Percent(p) => 1 <= p <= 100
    case Fixed(v) => v > 0
  }

  // ---- what a coupon saves ------------------------------------------------------

  /** Whole rubles off `price`, in exact integers; nothing off a price that is not
      positive. */
  function DiscountAmount(d: Discount, price: int): int {
    if price <= 0 then 0
    else
      match d
      case Percent(p) => price - (price * (100 - p) + 50) / 100
      case Fixed(v) => if v < price then v else price
  }

  /** A discount never exceeds the price; a percentage leaves the whole ruble
      nearest to the exact remainder, the upper one on a tie. */
  lemma DiscountBounds(d: Discount, price: int)
    requires ValidDiscount(d) && price > 0
    ensures 0 <= DiscountAmount(d, price) <= price
    ensures d.Percent? ==>
              var final := price - DiscountAmount(d, price);
              -50 < 100 * final - price * (100 - d.percent) <= 50
    ensures d.Fixed? && d.rubles <= price ==> DiscountAmount(d, price) == d.rubles
    ensures DiscountAmount(d, price) == price <==>
              match d case Percent(p) => price * (100 - p) < 50 case Fixed(v) => v >= price
  {
    if d.Percent? {
      RoundedPart(price, 100 - d.percent);
    }
  }

  lemma RoundedPart(price: int, rest: int)
    requires price > 0 && 0 <= rest < 100
    ensures var final := (price * rest + 50) / 100;
            0 <= final <= price && -50 < 100 * final - price * rest <= 50
    ensures price * rest >= 0
  {
    ProductBounds(price, rest);
    Nearest(price * rest, price);
  }

  lemma ProductBounds(price: int, rest: int)
    requires price > 0 && 0 <= rest < 100
    ensures 0 <= price * rest <= 99 * price
  {
    assert price * (99 - rest) == 99 * price - price * rest;
  }

  lemma Nearest(x: int, price: int)
    requires 0 <= x <= 99 * price
    ensures 0 <= (x + 50) / 100 <= price && -50 < 100 * ((x + 50) / 100) - x <= 50
  {}

  // ---- when it may be used --------------------------------------------------------

  predicate IsExpired(validUntil: Option<string>, today: string) {
    validUntil.Some? && LexLess(validUntil.value, today)
  }

  predicate IsExhausted(maxRedemptions: Option<nat>, used: nat) {
    maxRedemptions.Some? && used >= maxRedemptions.value
  }

  function CouponStatus(c: Coupon, used: nat, today: string): Status {
    if IsExhausted(c.maxRedemptions, used) then Spent
    else if IsExpired(c.validUntil, today) then PastDate
    else if c.paused then OnPause
    else Active
  }

  function CheckRedeemable(c: Coupon, quest: string, usedTotal: nat, usedByPlayer: nat, today: string): Result<(), Reject> {
    if c.questIds.Some? && quest !in c.questIds.value then Err(NotApplicable)
    else if IsExpired(c.validUntil, today) then Err(Expired)
    else if IsExhausted(c.maxRedemptions, usedTotal) then Err(Exhausted)
    else if c.paused then Err(Paused)
    else if c.perUserLimit.Some? && usedByPlayer >= c.perUserLimit.value then Err(PerUserLimit)
    else Ok(())
  }

  /** A coupon has expired exactly when its last valid day is over: the string
      comparison is the comparison of the days, and the last day itself counts. */
  lemma ExpiredExactly(until: Civil, today: Civil)
    requires InSpan(until) && InSpan(today)
    ensures IsExpired(Some(DateText(until)), DateText(today)) <==> DaysFromCivil(until) < DaysFromCivil(today)
  {
    DateTextOrder(until, today);
  }

  /** The status badge and the purchase answer agree. */
  lemma RedeemableExactly(c: Coupon, quest: string, used: nat, byPlayer: nat, today: string)
    ensures CheckRedeemable(c, quest, used, byPlayer, today).Ok? <==>
              && CouponStatus(c, used, today) == Active
              && (c.questIds.None? || quest in c.questIds.value)
              && (c.perUserLimit.None? || byPlayer < c.perUserLimit.value)
  {}

  /** The badge: spent whatever else, then past its date, then paused. */
  lemma StatusExactly(c: Coupon, used: nat, today: string)
    ensures var s := CouponStatus(c, used, today);
            var spent := c.maxRedemptions.Some? && used >= c.maxRedemptions.value;
            var over := c.validUntil.Some? && LexLess(c.validUntil.value, today);
            && (s == Spent <==> spent) && (s == PastDate <==> !spent && over)
            && (s == OnPause <==> !spent && !over && c.paused) && (s == Active <==> !spent && !over && !c.paused)
  {}

  /** What a coupon that fails on several grounds is refused for: the quest, then
      the date, then the total cap, then the pause, then the player's own cap — the
      pause is looked at after the date and the cap, not before them. */
  lemma RefusalOrder(c: Coupon, quest: string, used: nat, byPlayer: nat, today: string)
    requires c.questIds.None? || quest in c.questIds.value
    ensures var r := CheckRedeemable(c, quest, used, byPlayer, today);
            && (r == Err(Paused) <==> CouponStatus(c, used, today) == OnPause)
            && (c.paused && IsExpired(c.validUntil, today) ==> r == Err(Expired))
            && (r == Err(Exhausted) <==> CouponStatus(c, used, today) == Spent && !IsExpired(c.validUntil, today))
  {}

  /** For each ground the orders it refuses: the first that applies, in the order of the
      quest, the day, the total cap, the pause and the player's cap. */
  lemma RefusedExactly(c: Coupon, quest: string, used: nat, byPlayer: nat, today: string)
    ensures var r := CheckRedeemable(c, quest, used, byPlayer, today);
            var elsewhere := c.questIds.Some? && quest !in c.questIds.value;
            var over := c.validUntil.Some? && LexLess(c.validUntil.value, today);
            var spent := c.maxRedemptions.Some? && used >= c.maxRedemptions.value;
            && (r == Err(NotApplicable) <==> elsewhere)
            && (r == Err(Expired) <==> !elsewhere && over)
            && (r == Err(Exhausted) <==> !elsewhere && !over && spent)
            && (r == Err(Paused) <==> !elsewhere && !over && !spent && c.paused)
            && (r == Err(PerUserLimit) <==>
                  !elsewhere && !over && !spent && !c.paused && c.perUserLimit.Some? && byPlayer >= c.perUserLimit.value)
  {}

  // ---- the redemption log ------------------------------------------------------------

  function FindCoupon(coupons: seq<Coupon>, code: string): (c: Option<Coupon>)
    ensures c.Some? ==> c.value in coupons && c.value.code == code
    ensures c.None? ==> forall d :: d in coupons ==> d.code != code
  {
    if coupons == [] then None
    else if coupons[0].code == code then Some(coupons[0])
    else FindCoupon(coupons[1..], code)
  }

  function FindRedemption(log: seq<Redemption>, id: string, user: string, quest: string): (r: Option<Redemption>)
    ensures r.Some? ==> r.value in log && r.value.couponId == id && r.value.user == user && r.value.quest == quest
    ensures r.None? ==> forall x :: x in log ==> !(x.couponId == id && x.user == user && x.quest == quest)
  {
    if log == [] then None
    else if log[0].couponId == id && log[0].user == user && log[0].quest == quest then Some(log[0])
    else FindRedemption(log[1..], id, user, quest)
  }

  function UsedTotal(log: seq<Redemption>, id: string): nat {
    if log == [] then 0
    else UsedTotal(log[..|log| - 1], id) + (if log[|log| - 1].couponId == id then 1 else 0)
  }

  function UsedBy(log: seq<Redemption>, id: string, user: string): nat {
    if log == [] then 0
    else
      var last := log[|log| - 1];
      UsedBy(log[..|log| - 1], id, user) + (if last.couponId == id && last.user == user then 1 else 0)
  }

  /** What one redemption answers and leaves in the log: an entry the triple already
      has is answered from the log, a refusal leaves the log alone, and only a coupon
      that passes every check at this moment appends an entry. */
  function Redeem(coupons: seq<Coupon>, log: seq<Redemption>, code: string, user: string, quest: string,
                  price: int, today: string, at: string): Result<(Redemption, seq<Redemption>), Reject>
  {
    match FindCoupon(coupons, code)
    case None => Err(NotFound)
    case Some(c) =>
      match FindRedemption(log, c.id, user, quest)
      case Some(r) => Ok((r, log))
      case None =>
        match CheckRedeemable(c, quest, UsedTotal(log, c.id), UsedBy(log, c.id, user), today)
        case Err(reject) => Err(reject)
        case Ok(_) =>
          var r := Redemption(c.id, user, quest, DiscountAmount(c.discount, price), at);
          Ok((r, log + [r]))
  }

  ghost predicate DistinctCoupons(coupons: seq<Coupon>) {
    forall i, j :: 0 <= i < j < |coupons| ==> coupons[i].id != coupons[j].id && coupons[i].code != coupons[j].code
  }

  /** One redemption per coupon, player and quest. */
  ghost predicate UniqueTriples(log: seq<Redemption>) {
    forall i, j :: 0 <= i < j < |log| ==>
      !(log[i].couponId == log[j].couponId && log[i].user == log[j].user && log[i].quest == log[j].quest)
  }

  /** No coupon is used past its total cap, nor past its cap per player. */
  ghost predicate WithinCaps(coupons: seq<Coupon>, log: seq<Redemption>) {
    forall c :: c in coupons ==>
      && (c.maxRedemptions.Some? ==> UsedTotal(log, c.id) <= c.maxRedemptions.value)
      && (c.perUserLimit.Some? ==> forall user :: UsedBy(log, c.id, user) <= c.perUserLimit.value)
  }

  lemma SameCoupon(coupons: seq<Coupon>, c: Coupon, d: Coupon)
    requires DistinctCoupons(coupons) && c in coupons && d in coupons && (c.id == d.id || c.code == d.code)
    ensures c == d
  {}

  /** Redeeming records at most one entry, at the end, and the caps and the
      uniqueness survive it. */
  lemma RedeemKeeps(coupons: seq<Coupon>, log: seq<Redemption>, code: string, user: string, quest: string,
                    price: int, today: string, at: string)
    requires DistinctCoupons(coupons) && UniqueTriples(log) && WithinCaps(coupons, log)
    ensures var r := Redeem(coupons, log, code, user, quest, price, today, at);
            r.Ok? ==>
              var (entry, log') := r.value;
              && UniqueTriples(log') && WithinCaps(coupons, log')
              && (log' == log || log' == log + [entry])
              && entry in log' && entry.user == user && entry.quest == quest
  {
    hide UsedTotal, UsedBy, IsExpired, DiscountAmount, FindCoupon, FindRedemption, WithinCaps, DistinctCoupons;
    var r := Redeem(coupons, log, code, user, quest, price, today, at);
    if r.Ok? && r.value.1 != log {
      CapsKept(coupons, log, FindCoupon(coupons, code).value, r.value.0);
    }
  }

  lemma OneMoreUse(log: seq<Redemption>, r: Redemption, id: string, user: string)
    ensures UsedTotal(log + [r], id) == UsedTotal(log, id) + (if r.couponId == id then 1 else 0)
    ensures UsedBy(log + [r], id, user) == UsedBy(log, id, user) + (if r.couponId == id && r.user == user then 1 else 0)
  {
    assert (log + [r])[..|log|] == log;
  }

  /** One more use of a coupon below its caps leaves every coupon within its caps. */
  lemma CapsKept(coupons: seq<Coupon>, log: seq<Redemption>, c: Coupon, r: Redemption)
    requires DistinctCoupons(coupons) && WithinCaps(coupons, log) && c in coupons && r.couponId == c.id
    requires c.maxRedemptions.Some? ==> UsedTotal(log, c.id) < c.maxRedemptions.value
    requires c.perUserLimit.Some? ==> UsedBy(log, c.id, r.user) < c.perUserLimit.value
    ensures WithinCaps(coupons, log + [r])
  {
    hide UsedTotal, UsedBy, DistinctCoupons;
    forall d | d in coupons
      ensures d.maxRedemptions.Some? ==> UsedTotal(log + [r], d.id) <= d.maxRedemptions.value
      ensures d.perUserLimit.Some? ==> forall u :: UsedBy(log + [r], d.id, u) <= d.perUserLimit.value
    {
      if d.id == c.id { SameCoupon(coupons, c, d); }
      OneMoreUse(log, r, d.id, r.user);
      forall u ensures d.perUserLimit.Some? ==> UsedBy(log + [r], d.id, u) <= d.perUserLimit.value {
        OneMoreUse(log, r, d.id, u);
      }
    }
  }

  /** Redeeming again — on another day, at another price, past the caps or after
      a pause — returns the recorded entry and records nothing. */
  lemma RedeemAgain(coupons: seq<Coupon>, log: seq<Redemption>, code: string, user: string, quest: string,
                    price: int, today: string, at: string, price': int, today': string, at': string)
    requires DistinctCoupons(coupons) && UniqueTriples(log)
    ensures var r := Redeem(coupons, log, code, user, quest, price, today, at);
            r.Ok? ==> Redeem(coupons, r.value.1, code, user, quest, price', today', at') == r
  {
    var r := Redeem(coupons, log, code, user, quest, price, today, at);
    if r.Ok? {
      var (entry, log') := r.value;
      var c := FindCoupon(coupons, code).value;
      if log' != log {
        assert entry in log' && entry == log'[|log|];
        var found := FindRedemption(log', c.id, user, quest);
        assert found.Some?;
        assert found.value == entry;
      }
    }
  }
}
