/** Orders with nothing to charge: they settle whatever the providers' switches say. */
module PaymentPaths {
  import opened Prelude
  import opened Coupons
  import opened Payments
  import opened OpenPayments
  import opened PaymentSteps

  /** One process moves alone through these inputs. */
  function Alone(s: State, pid: nat, inputs: seq<Input>): State
    decreases |inputs|
  {
    if inputs == [] then s else Apply(Alone(s, pid, inputs[..|inputs| - 1]), Step(pid, inputs[|inputs| - 1]))
  }

  lemma AloneMore(s: State, pid: nat, inputs: seq<Input>, input: Input)
    ensures Alone(s, pid, inputs + [input]) == Apply(Alone(s, pid, inputs), Step(pid, input))
  {
    hide Apply;
    assert (inputs + [input])[..|inputs|] == inputs;
  }

  /** An order of a known provider for a quest the player does not own yet. */
  predicate Fresh(s: State, pid: nat, o: Order) {
    pid in s.procs && s.procs[pid] == Arrived(o) && (o.user, o.quest) !in s.grants && o.provider != UnknownProvider
  }

  /** A published free quest is granted in three steps, with every provider switched
      off and unconfigured. */
  lemma FreeQuestNeedsNoProvider(s: State, pid: nat, o: Order, input: Input)
    requires Fresh(s, pid, o) && o.quest in s.listings
    requires s.listings[o.quest].None? || s.listings[o.quest].value <= 0
    ensures var t := Alone(s, pid, [input, input, input]);
            && pid in t.procs && t.procs[pid].Settled? && t.procs[pid].created
            && (o.user, o.quest) in t.grants && t.grants[(o.user, o.quest)] == t.procs[pid].grant
            && t.procs[pid].grant.source == FreeQuest
            && t.log == s.log && t.gateway == s.gateway && t.rows == s.rows
  {
    hide Apply, Alone, Put, PutGrant;
    var s1 := Put(s, pid, Listing(o));
    var s2 := Put(s1, pid, Free(o));
    ThreeAlone(s, pid, input);
    assert Apply(s, Step(pid, input)) == s1 by { ReadStep(s, pid, input); }
    PutProc(s, pid, Listing(o));
    PutProc(s1, pid, Free(o));
    assert Apply(s1, Step(pid, input)) == s2 by { ReadStep(s1, pid, input); }
    GrantStep(s2, pid, o, FreeQuest, None, input);
    GrantIsNew(s2, pid, o, FreeQuest, None, input.now);
  }

  lemma ThreeAlone(s: State, pid: nat, input: Input)
    ensures Alone(s, pid, [input, input, input]) ==
            Apply(Apply(Apply(s, Step(pid, input)), Step(pid, input)), Step(pid, input))
  {
    hide Apply;
    assert [input, input, input][..2] == [input, input] && [input, input][..1] == [input] && [input][..0] == [];
    AloneMore(s, pid, [], input);
    AloneMore(s, pid, [input], input);
    AloneMore(s, pid, [input, input], input);
    assert [] + [input] == [input] && [input] + [input] == [input, input];
    assert [input, input] + [input] == [input, input, input];
  }

  lemma PutProc(s: State, pid: nat, p: Proc)
    ensures var t := Put(s, pid, p); pid in t.procs && t.procs[pid] == p && t == s.(procs := t.procs)
  {}

  lemma GrantIsNew(s: State, pid: nat, o: Order, source: GrantSource, ref: Option<string>, now: string)
    requires (o.user, o.quest) !in s.grants
    ensures var t := PutGrant(s, pid, o, source, ref, now);
            && pid in t.procs && t.procs[pid] == Payments.Settled(o, Grant(o.user, o.quest, source, ref, now), true)
            && (o.user, o.quest) in t.grants && t.grants[(o.user, o.quest)] == t.procs[pid].grant
            && t == s.(procs := t.procs, grants := t.grants)
  {}

  /** A coupon that covers the whole price settles in five steps, whichever provider
      was asked for and with every provider switched off: the redemption is recorded
      and the grant says it came of a coupon. The gateway is never asked. */
  lemma GiftNeedsNoProvider(s: State, pid: nat, o: Order, price: int, input: Input)
    requires Fresh(s, pid, o) && o.coupon.Code? && o.quest in s.listings && s.listings[o.quest] == Some(price) && price > 0
    requires Quote(s, o.coupon.code, o.user, o.quest, price, input.today).Ok?
    requires Quote(s, o.coupon.code, o.user, o.quest, price, input.today).value.1 >= price
    requires FindRedemption(s.log, FindCoupon(s.coupons, o.coupon.code).value.id, o.user, o.quest).None?
    ensures var t := Alone(s, pid, [input, input, input] + [input, input]);
            && pid in t.procs && t.procs[pid].Settled? && t.procs[pid].created
            && (o.user, o.quest) in t.grants && t.grants[(o.user, o.quest)].source == CouponRedemption
            && |t.log| == |s.log| + 1 && t.log[..|s.log|] == s.log
            && t.log[|s.log|].user == o.user && t.log[|s.log|].quest == o.quest && t.log[|s.log|].amount >= price
            && t.gateway == s.gateway && t.rows == s.rows && t.tokens == s.tokens
  {
    hide Apply, Alone, Put, PutGrant, RedeemNow, Quote, Redeem;
    var code := o.coupon.code;
    var s1 := Put(s, pid, Listing(o));
    var s2 := Put(s1, pid, QuoteFull(o, code, price));
    var s3 := Put(s2, pid, MockRedeem(o, code, price));
    PutProc(s, pid, Listing(o));
    PutProc(s1, pid, QuoteFull(o, code, price));
    PutProc(s2, pid, MockRedeem(o, code, price));
    assert Apply(s, Step(pid, input)) == s1 by { ReadStep(s, pid, input); }
    assert Apply(s1, Step(pid, input)) == s2 by { ReadStep(s1, pid, input); }
    SameQuote(s, s2, code, o.user, o.quest, price, input.today);
    assert Apply(s2, Step(pid, input)) == s3 by { ReadStep(s2, pid, input); }
    ThreeAlone(s, pid, input);
    TwoMoreAlone(s, pid, input);
    MockRedeemStep(s3, pid, o, code, price, input);
    QuoteIsRedeemed(s, code, o.user, o.quest, price, input.today, input.now);
    RedeemNowShape(s3, pid, o, code, price, input);
    var s4 := RedeemNow(s3, pid, o, code, price, input);
    GrantStep(s4, pid, o, CouponRedemption, None, input);
    GrantIsNew(s4, pid, o, CouponRedemption, None, input.now);
  }

  lemma SameQuote(s: State, t: State, code: string, user: string, quest: string, price: int, today: string)
    requires t.coupons == s.coupons && t.log == s.log
    ensures Quote(t, code, user, quest, price, today) == Quote(s, code, user, quest, price, today)
  {}

  lemma TwoMoreAlone(s: State, pid: nat, input: Input)
    ensures Alone(s, pid, [input, input, input] + [input, input]) ==
            Apply(Apply(Alone(s, pid, [input, input, input]), Step(pid, input)), Step(pid, input))
  {
    hide Apply;
    AloneMore(s, pid, [input, input, input], input);
    AloneMore(s, pid, [input, input, input] + [input], input);
    assert [input, input, input] + [input] + [input] == [input, input, input] + [input, input];
  }

  /** What is quoted is what is redeemed: the same coupon, amount and answer. */
  lemma QuoteIsRedeemed(s: State, code: string, user: string, quest: string, price: int, today: string, now: string)
    requires Quote(s, code, user, quest, price, today).Ok?
    requires FindRedemption(s.log, FindCoupon(s.coupons, code).value.id, user, quest).None?
    ensures var r := Redeem(s.coupons, s.log, code, user, quest, price, today, now);
            && r.Ok? && r.value.1 == s.log + [r.value.0]
            && r.value.0.amount == Quote(s, code, user, quest, price, today).value.1
            && r.value.0.user == user && r.value.0.quest == quest && r.value.0.at == now
            && r.value.0.couponId == FindCoupon(s.coupons, code).value.id
  {}
}
