/** The payment operations as code: stores updated in place, and the bodies of
    checkout and settle with the rest of the server running at every await. The
    class invariant says that the server is always in a state the protocol
    machine reaches, so every theorem about runs holds of it. */
module PaymentService {
  import opened Prelude
  import opened Coupons
  import opened Payments
  import opened PaymentSafety
  import opened PaymentRuns
  import opened OpenPayments
  import opened PaymentSteps
  import opened PaymentAnswers
  import opened CheckoutReasons

  class PaymentStore {
    var rows: map<string, Row>

    constructor ()
      ensures rows == map[]
    {
      rows := map[];
    }

    method Add(row: Row)
      modifies this
      ensures rows == old(rows)[row.id := row]
    {
      rows := rows[row.id := row];
    }

    /** An open payment of the player for the quest, if there is one. */
    method FindPendingFor(user: string, quest: string) returns (found: Option<Row>)
      ensures found.Some? ==> exists id :: IsOpenFor(rows, id, user, quest) && found.value == rows[id]
      ensures found.None? ==> !HasOpen(rows, user, quest)
    {
      var left := rows.Keys;
      while left != {}
        invariant left <= rows.Keys
        invariant forall id :: id in rows && id !in left ==> !IsOpenFor(rows, id, user, quest)
        decreases |left|
      {
        var id :| id in left;
        if rows[id].status == Pending && rows[id].user == user && rows[id].quest == quest {
          assert IsOpenFor(rows, id, user, quest);
          return Some(rows[id]);
        }
        left := left - {id};
      }
      return None;
    }

    method SettleSucceeded(id: string) returns (won: bool)
      modifies this
      ensures (rows, won) == Payments.SettleSucceeded(old(rows), id)
    {
      won := false;
      if id in rows && rows[id].status == Pending {
        rows := rows[id := rows[id].(status := Succeeded)];
        won := true;
      }
    }

    method MarkCanceled(id: string)
      modifies this
      ensures rows == Payments.MarkCanceled(old(rows), id)
    {
      if id in rows && rows[id].status == Pending {
        rows := rows[id := rows[id].(status := Canceled)];
      }
    }
  }

  class GrantStore {
    var grants: map<(string, string), Grant>
    var listings: map<string, Option<int>>

    constructor ()
      ensures grants == map[] && listings == map[]
    {
      grants, listings := map[], map[];
    }

    method CreateGrantIdemp(user: string, quest: string, source: GrantSource, ref: Option<string>, now: string)
      returns (grant: Grant, created: bool)
      modifies this`grants
      ensures (grants, grant, created) == CreateGrant(old(grants), user, quest, source, ref, now)
    {
      var key := (user, quest);
      if key in grants && grants[key].user == user && grants[key].quest == quest {
        return grants[key], false;
      }
      grant, created := Grant(user, quest, source, ref, now), true;
      grants := grants[key := grant];
    }
  }

  class CouponStore {
    var coupons: seq<Coupon>
    var log: seq<Redemption>

    constructor ()
      ensures coupons == [] && log == []
    {
      coupons, log := [], [];
    }

    method Find(code: string) returns (found: Option<Coupon>)
      ensures found == FindCoupon(coupons, code)
    {
      var i := 0;
      while i < |coupons|
        invariant 0 <= i <= |coupons|
        invariant FindCoupon(coupons[i..], code) == FindCoupon(coupons, code)
      {
        if coupons[i].code == code { return Some(coupons[i]); }
        assert coupons[i..][1..] == coupons[i + 1..];
        i := i + 1;
      }
      return None;
    }

    method Recorded(id: string, user: string, quest: string) returns (found: Option<Redemption>)
      ensures found == FindRedemption(log, id, user, quest)
    {
      var i := 0;
      while i < |log|
        invariant 0 <= i <= |log|
        invariant FindRedemption(log[i..], id, user, quest) == FindRedemption(log, id, user, quest)
      {
        if log[i].couponId == id && log[i].user == user && log[i].quest == quest { return Some(log[i]); }
        assert log[i..][1..] == log[i + 1..];
        i := i + 1;
      }
      return None;
    }

    method Usage(id: string, user: string) returns (total: nat, byUser: nat)
      ensures total == UsedTotal(log, id) && byUser == UsedBy(log, id, user)
    {
      total, byUser := 0, 0;
      var i := 0;
      while i < |log|
        invariant 0 <= i <= |log|
        invariant total == UsedTotal(log[..i], id) && byUser == UsedBy(log[..i], id, user)
      {
        assert log[..i + 1][..i] == log[..i];
        if log[i].couponId == id {
          total := total + 1;
          if log[i].user == user { byUser := byUser + 1; }
        }
        i := i + 1;
      }
      assert log[..i] == log;
    }

    /** Price a coupon without consuming it. */
    method QuoteCoupon(code: string, user: string, quest: string, price: int, today: string)
      returns (quote: Result<(Discount, int), Reject>)
      ensures forall s: State :: s.coupons == coupons && s.log == log ==> quote == Quote(s, code, user, quest, price, today)
    {
      var found := Find(code);
      if found.None? { return Err(NotFound); }
      var c := found.value;
      var total, byUser := Usage(c.id, user);
      var check := CheckRedeemable(c, quest, total, byUser, today);
      if check.Err? { return Err(check.error); }
      return Ok((c.discount, DiscountAmount(c.discount, price)));
    }

    /** The critical section: look up, re-check, record. */
    method Redeem(code: string, user: string, quest: string, price: int, today: string, now: string)
      returns (entry: Result<Redemption, Reject>)
      modifies this`log
      ensures var r := Coupons.Redeem(coupons, old(log), code, user, quest, price, today, now);
              && (r.Ok? ==> entry == Ok(r.value.0) && log == r.value.1)
              && (r.Err? ==> entry == Err(r.error) && log == old(log))
    {
      var found := Find(code);
      if found.None? { return Err(NotFound); }
      var c := found.value;
      var existing := Recorded(c.id, user, quest);
      if existing.Some? { return Ok(existing.value); }
      var total, byUser := Usage(c.id, user);
      var check := CheckRedeemable(c, quest, total, byUser, today);
      if check.Err? { return Err(check.error); }
      var r := Redemption(c.id, user, quest, DiscountAmount(c.discount, price), now);
      log := log + [r];
      return Ok(r);
    }
  }

  class Server {
    const payments: PaymentStore
    const coupons: CouponStore
    const grants: GrantStore
    var gateway: map<string, Remote>
    var tokens: set<string>
    var procs: map<nat, Proc>
    var origins: seq<Origin>
    var heldRedeems: seq<string>
    ghost var history: seq<Action>

    function View(): State
      reads this, payments, coupons, grants
    {
      State(payments.rows, grants.grants, coupons.coupons, coupons.log, origins, gateway, grants.listings, tokens,
            heldRedeems, procs)
    }

    /** The server stands where the machine stands after `history`. */
    ghost predicate Valid()
      reads this, payments, coupons, grants
    {
      View() == Exec(START, history)
    }

    constructor ()
      ensures Valid() && fresh(payments) && fresh(coupons) && fresh(grants) && history == []
    {
      payments := new PaymentStore();
      coupons := new CouponStore();
      grants := new GrantStore();
      gateway, tokens, procs, origins, heldRedeems, history := map[], {}, map[], [], [], [];
    }

    /** Everything else the server and the world do while an await is pending. */
    method Others(pid: nat, world: seq<Action>)
      requires Valid() && pid in procs && Foreign(world, pid)
      modifies this, payments, coupons, grants
      ensures Valid() && history == old(history) + world && Past(old(history), history)
      ensures pid in procs && procs[pid] == old(procs)[pid]
    {
      ForeignKeeps(View(), world, pid);
      ExecConcat(START, history, world);
      hide Exec;
      var t := Exec(View(), world);
      payments.rows, grants.grants, grants.listings := t.rows, t.grants, t.listings;
      coupons.coupons, coupons.log := t.coupons, t.log;
      gateway, tokens, procs, origins, heldRedeems := t.gateway, t.tokens, t.procs, t.origins, t.heldRedeems;
      history := history + world;
    }

    /** Enter a finished step into the process table and the history: the server is
        valid again if the stores now are what the step makes of them. */
    method Book(pid: nat, next: Proc, input: Input, ghost before: State)
      modifies this`procs, this`history
      ensures before == Exec(START, old(history)) && Apply(before, Step(pid, input)) == Put(old(View()), pid, next) ==> Valid()
      ensures history == old(history) + [Step(pid, input)] && Past(old(history), history)
      ensures procs == old(procs)[pid := next]
    {
      hide Apply, Exec;
      Then(START, history, Step(pid, input));
      procs := procs[pid := next];
      history := history + [Step(pid, input)];
    }

    /** Book the step a process has just read its way through. */
    method Move(pid: nat, next: Proc, input: Input)
      requires Valid() && pid in procs && Reads(procs[pid]) && next == NextStop(View(), procs[pid], input)
      modifies this`procs, this`history
      ensures Valid() && history == old(history) + [Step(pid, input)] && Past(old(history), history)
      ensures procs == old(procs)[pid := next]
    {
      hide NextStop, Apply;
      ReadStep(View(), pid, input);
      Book(pid, next, input, View());
    }

    method GrantNow(pid: nat, o: Order, source: GrantSource, ref: Option<string>, input: Input)
      returns (grant: Grant, created: bool)
      requires Valid() && pid in procs
      requires procs[pid] in {Owned(o), Free(o), MockGrant(o, source, ref)}
      requires procs[pid].Owned? ==> source == Payment && ref.None?
      requires procs[pid].Free? ==> source == FreeQuest && ref.None?
      modifies this`procs, this`history, grants`grants
      ensures Valid() && history == old(history) + [Step(pid, input)] && Past(old(history), history)
      ensures procs == old(procs)[pid := Settled(o, grant, created)]
    {
      ghost var s := View();
      GrantStep(s, pid, o, source, ref, input);
      hide Apply, CreateGrant;
      grant, created := grants.CreateGrantIdemp(o.user, o.quest, source, ref, input.now);
      Book(pid, Settled(o, grant, created), input, s);
    }

    /** Redeem now; says what the grant is to be made of, or that the code is
        refused. */
    method RedeemAtCheckout(pid: nat, o: Order, code: string, price: int, input: Input)
      returns (found: Option<(GrantSource, Option<string>)>)
      requires Valid() && pid in procs && procs[pid] == MockRedeem(o, code, price)
      modifies this`procs, this`origins, this`history, coupons`log
      ensures Valid() && history == old(history) + [Step(pid, input)] && Past(old(history), history)
      ensures pid in procs
      ensures procs[pid] == if found.None? then Failed else MockGrant(o, found.value.0, found.value.1)
    {
      ghost var s := View();
      MockRedeemStep(s, pid, o, code, price, input);
      RedeemNowShape(s, pid, o, code, price, input);
      hide Apply, Exec, Coupons.Redeem, RedeemNow;
      var before := coupons.log;
      var entry := coupons.Redeem(code, o.user, o.quest, price, input.today, input.now);
      if coupons.log != before { origins := origins + [ByCheckout(o)]; }
      found := None;
      if entry.Ok? {
        found := if entry.value.amount >= price then Some((CouponRedemption, None))
                 else Some((Payment, Some(MockRef(o.user, o.quest))));
      }
      var next := if found.None? then Failed else MockGrant(o, found.value.0, found.value.1);
      Book(pid, next, input, s);
    }

    /** Settles an order without a charge. Its process ends settled with the grant that
        is stored, or refused, whatever other calls do between its two writes. */
    method MockCheckout(pid: nat, o: Order, listed: Option<int>, world: nat -> seq<Action>, input: nat -> Input)
      returns (reply: Reply)
      requires Valid() && pid in procs && procs[pid] == EnterMock(o, listed)
      requires forall k :: Foreign(world(k), pid)
      modifies this, payments, coupons, grants
      ensures Valid() && Past(old(history), history) && pid in procs && Outcome(procs[pid], o, reply)
    {
      PastOrder();
      hide Past, Apply, Exec, Foreign, Valid;
      var source, ref := Payment, Some(MockRef(o.user, o.quest));
      match o.coupon {
        case BlankCode => return Refused;
        case NoCoupon =>
        case Code(code) =>
          if listed.None? { return Refused; }
          Others(pid, world(0));
          var found := RedeemAtCheckout(pid, o, code, listed.value, input(0));
          if found.None? { return Refused; }
          source, ref := found.value.0, found.value.1;
      }
      Others(pid, world(1));
      var grant, created := GrantNow(pid, o, source, ref, input(1));
      return Granted(grant, created);
    }

    /** Ask the gateway to open the charge, under a token of ours. */
    method OpenCharge(pid: nat, o: Order, held: Option<string>, charge: Charge, input: Input) returns (row: Option<Row>)
      requires Valid() && pid in procs && procs[pid] == Create(o, held, charge)
      modifies this`procs, this`gateway, this`tokens, this`history
      ensures Valid() && history == old(history) + [Step(pid, input)] && Past(old(history), history)
      ensures pid in procs && procs[pid] == if row.None? then Failed else Insert(o, row.value)
    {
      ghost var s := View();
      CreateStep(s, pid, o, held, charge, input);
      MintChargeShape(s, pid, o, held, charge, input);
      hide Apply, Exec, MintCharge;
      if input.token in tokens || input.providerId in gateway {
        Book(pid, Failed, input, s);
        return None;
      }
      tokens := tokens + {input.token};
      gateway := gateway[input.providerId := Remote(Open, charge)];
      if input.url.None? {
        Book(pid, Failed, input, s);
        return None;
      }
      row := Some(Row(input.token, input.providerId, o.user, o.quest, held,
                      charge.amount, charge.price, input.url.value, Pending));
      Book(pid, Insert(o, row.value), input, s);
    }

    method KeepRow(pid: nat, o: Order, row: Row, input: Input)
      requires Valid() && pid in procs && procs[pid] == Insert(o, row)
      modifies this`procs, this`history, payments
      ensures Valid() && history == old(history) + [Step(pid, input)] && Past(old(history), history)
      ensures pid in procs && procs[pid] == Redirected(o, row.id, row.url)
    {
      ghost var s := View();
      InsertStep(s, pid, o, row, input);
      hide Apply, Exec;
      payments.Add(row);
      Book(pid, Redirected(o, row.id, row.url), input, s);
    }

    /** The first half of the redirect path: an open payment is replayed. */
    method Replay(pid: nat, o: Order, listed: Option<int>, input: Input) returns (open: Option<Row>)
      requires Valid() && pid in procs && procs[pid] == FindOpen(o, listed)
      modifies this`procs, this`history
      ensures Valid() && Past(old(history), history) && pid in procs
      ensures procs[pid] == if open.Some? then Redirected(o, open.value.id, open.value.url) else EnterCharge(o, listed)
    {
      hide Apply, Exec, HasOpen, NextStop;
      open := payments.FindPendingFor(o.user, o.quest);
      if open.Some? {
        ghost var id :| IsOpenFor(payments.rows, id, o.user, o.quest) && open.value == payments.rows[id];
        assert open.value.id == id by { assert View() == Exec(START, history); OpenRow(history, id); }
        ReplayStep(View(), o, listed, id, input);
        Move(pid, Redirected(o, open.value.id, open.value.url), input.(pick := open.value.id));
      } else {
        NoReplayStep(View(), o, listed, input);
        Move(pid, EnterCharge(o, listed), input);
      }
    }

    /** Price the charge with a coupon. */
    method PriceCharge(pid: nat, o: Order, code: string, price: int, input: Input)
      returns (quote: Result<(Discount, int), Reject>)
      requires Valid() && pid in procs && procs[pid] == QuoteCharge(o, code, price)
      modifies this`procs, this`history
      ensures Valid() && Past(old(history), history) && pid in procs
      ensures procs[pid] ==
              match quote
              case Err(_) => Failed
              case Ok((discount, saved)) =>
                if saved >= price then EnterMock(o, Some(price))
                else Create(o, Some(code), Charge(price - saved, price, Some(discount)))
    {
      hide Apply, Exec, Quote, Valid;
      quote := coupons.QuoteCoupon(code, o.user, o.quest, price, input.today);
      assert quote == Quote(View(), code, o.user, o.quest, price, input.today);
      Move(pid, NextStop(View(), procs[pid], input), input);
    }

    /** The redirect path: replay an open payment, or price the charge, open it at
        the gateway and keep its row. */
    method YookassaCheckout(pid: nat, o: Order, listed: Option<int>, world: nat -> seq<Action>, input: nat -> Input)
      returns (reply: Reply)
      requires Valid() && pid in procs && procs[pid] == FindOpen(o, listed)
      requires forall k :: Foreign(world(k), pid)
      modifies this, payments, coupons, grants
      ensures Valid() && Past(old(history), history) && pid in procs && Outcome(procs[pid], o, reply)
    {
      PastOrder();
      hide Past, Apply, Exec, Foreign, Valid, View, NextStop;
      Others(pid, world(0));
      var open := Replay(pid, o, listed, input(0));
      if open.Some? { return PayAt(open.value.id, open.value.url); }
      if listed.None? { return Refused; }
      var price := listed.value;
      var held, charge := None, Charge(price, price, None);
      match o.coupon {
        case BlankCode => return Refused;
        case NoCoupon =>
        case Code(code) =>
          Others(pid, world(1));
          var quote := PriceCharge(pid, o, code, price, input(1));
          if quote.Err? { return Refused; }
          var (discount, saved) := quote.value;
          if saved >= price {
            reply := MockCheckout(pid, o, Some(price), Later(world, 2), Later(input, 2));
            return;
          }
          held, charge := Some(code), Charge(price - saved, price, Some(discount));
      }
      reply := Redirect(pid, o, held, charge, Later(world, 2), Later(input, 2));
    }

    method Redirect(pid: nat, o: Order, held: Option<string>, charge: Charge, world: nat -> seq<Action>,
                    input: nat -> Input) returns (reply: Reply)
      requires Valid() && pid in procs && procs[pid] == Create(o, held, charge)
      requires forall k :: Foreign(world(k), pid)
      modifies this, payments, coupons, grants
      ensures Valid() && Past(old(history), history) && pid in procs && Outcome(procs[pid], o, reply)
    {
      PastOrder();
      hide Past, Apply, Exec, Foreign, Valid, View, NextStop;
      Others(pid, world(0));
      var row := OpenCharge(pid, o, held, charge, input(0));
      if row.None? { return Refused; }
      Others(pid, world(1));
      KeepRow(pid, o, row.value, input(1));
      return PayAt(row.value.id, row.value.url);
    }

    /** Does the coupon leave nothing to charge? */
    method CoversThePrice(pid: nat, o: Order, code: string, price: int, input: Input) returns (covered: bool)
      requires Valid() && pid in procs && procs[pid] == QuoteFull(o, code, price)
      modifies this`procs, this`history
      ensures Valid() && Past(old(history), history) && pid in procs
      ensures procs[pid] == if covered then EnterMock(o, Some(price)) else Gate(o, Some(price))
    {
      hide Apply, Exec, Quote, Valid;
      var quote := coupons.QuoteCoupon(code, o.user, o.quest, price, input.today);
      assert quote == Quote(View(), code, o.user, o.quest, price, input.today);
      covered := quote.Ok? && quote.value.1 >= price;
      Move(pid, if covered then EnterMock(o, Some(price)) else Gate(o, Some(price)), input);
    }

    /** The provider's switch, then its credentials. */
    method PassGate(pid: nat, o: Order, listed: Option<int>, input: Input) returns (open: bool)
      requires Valid() && pid in procs && procs[pid] == Gate(o, listed)
      modifies this`procs, this`history
      ensures Valid() && Past(old(history), history) && pid in procs
      ensures procs[pid] == if !open then Failed
                            else if o.provider == Yookassa then FindOpen(o, listed) else EnterMock(o, listed)
    {
      hide Apply, Exec, Valid;
      open := input.featureOn && (o.provider == Yookassa ==> input.configured);
      Move(pid, NextStop(View(), procs[pid], input), input);
    }

    /** Takes a listed order to one of the two ways of paying. An order whose coupon
        covers the listed price never asks whether a provider is on. */
    method Dispatch(pid: nat, o: Order, listed: Option<int>, world: nat -> seq<Action>, input: nat -> Input)
      returns (reply: Reply)
      requires Valid() && pid in procs && procs[pid] == AfterListing(o, listed)
      requires forall k :: Foreign(world(k), pid)
      modifies this, payments, coupons, grants
      ensures Valid() && Past(old(history), history) && pid in procs && Outcome(procs[pid], o, reply)
    {
      PastOrder();
      hide Past, Apply, Exec, Foreign, Valid, View, NextStop;
      if listed.Some? && o.coupon.Code? {
        Others(pid, world(0));
        var covered := CoversThePrice(pid, o, o.coupon.code, listed.value, input(0));
        if covered {
          reply := MockCheckout(pid, o, listed, Later(world, 1), Later(input, 1));
          return;
        }
      }
      Others(pid, world(1));
      var open := PassGate(pid, o, listed, input(1));
      if !open { return Refused; }
      if o.provider == Yookassa {
        reply := YookassaCheckout(pid, o, listed, Later(world, 2), Later(input, 2));
      } else {
        reply := MockCheckout(pid, o, listed, Later(world, 2), Later(input, 2));
      }
    }

    /** Does the player own the quest, and is the provider a known one? */
    method Admit(pid: nat, o: Order, input: Input) returns (owned: bool)
      requires Valid() && pid in procs && procs[pid] == Arrived(o)
      modifies this`procs, this`history
      ensures Valid() && Past(old(history), history) && pid in procs && (o.owned ==> owned)
      ensures procs[pid] == if owned then Owned(o) else if o.provider == UnknownProvider then Failed else Listing(o)
    {
      assert o.owned ==> (o.user, o.quest) in grants.grants by {
        if o.owned { OwnerHolds(history, pid, o); }
      }
      hide Apply, Exec, Valid;
      owned := (o.user, o.quest) in grants.grants;
      Move(pid, NextStop(View(), procs[pid], input), input);
    }

    /** The published price: absent, free, or positive. */
    method ReadListing(pid: nat, o: Order, input: Input) returns (free: bool, listed: Option<int>)
      requires Valid() && pid in procs && procs[pid] == Listing(o)
      modifies this`procs, this`history
      ensures Valid() && Past(old(history), history) && pid in procs
      ensures procs[pid] == if free then Free(o) else AfterListing(o, listed)
      ensures listed.Some? ==> listed.value > 0
    {
      hide Apply, Exec, Valid;
      free, listed := false, None;
      if o.quest in grants.listings {
        listed := grants.listings[o.quest];
        if listed.None? || listed.value <= 0 { free, listed := true, None; }
      }
      Move(pid, NextStop(View(), procs[pid], input), input);
    }

    /** An owned quest answers the stored grant, a free one is granted at once,
        everything else is dispatched. */
    method Serve(pid: nat, o: Order, world: nat -> seq<Action>, input: nat -> Input) returns (reply: Reply)
      requires Valid() && pid in procs && procs[pid] == Arrived(o)
      requires forall k :: Foreign(world(k), pid)
      modifies this, payments, coupons, grants
      ensures Valid() && Past(old(history), history) && pid in procs && Outcome(procs[pid], o, reply)
      ensures o.owned ==> reply.Granted?
    {
      PastOrder();
      hide Past, Apply, Exec, Foreign, Valid, View, NextStop, AfterListing;
      Others(pid, world(0));
      var owned := Admit(pid, o, input(0));
      if !owned && o.provider == UnknownProvider { return Refused; }
      Others(pid, world(1));
      if owned {
        var grant, created := GrantNow(pid, o, Payment, None, input(1));
        return Granted(grant, created);
      }
      var free, listed := ReadListing(pid, o, input(1));
      if free {
        Others(pid, world(2));
        var grant, created := GrantNow(pid, o, FreeQuest, None, input(2));
        return Granted(grant, created);
      }
      reply := Dispatch(pid, o, listed, Later(world, 2), Later(input, 2));
    }

    /** Checkout, whatever else runs meanwhile: a granted order holds the stored
        grant, a redirected one a payment row of its own, and the owner of a quest
        is answered the grant he had, without a new one and without a redemption. A new
        grant, a redirection and a refusal each have their reason in what the checkout
        saw between its arrival and its answer. */
    method Checkout(pid: nat, o: Order, world: nat -> seq<Action>, input: nat -> Input) returns (reply: Reply)
      requires Valid() && pid in procs && procs[pid] == Arrived(o)
      requires forall k :: Foreign(world(k), pid)
      modifies this, payments, coupons, grants
      ensures Valid() && Past(old(history), history) && pid in procs && Outcome(procs[pid], o, reply)
      ensures reply.Granted? ==> (o.user, o.quest) in grants.grants && grants.grants[(o.user, o.quest)] == reply.grant
      ensures reply.PayAt? ==>
                && reply.paymentId in payments.rows && payments.rows[reply.paymentId].user == o.user
                && payments.rows[reply.paymentId].quest == o.quest
      ensures o.owned ==>
                && (o.user, o.quest) in old(grants.grants)
                && reply == Granted(old(grants.grants)[(o.user, o.quest)], false)
      ensures o.owned ==> ByCheckout(o) !in origins
      ensures reply.Granted? && reply.created ==> GrantedFor(history, |old(history)|, pid, o, reply.grant)
      ensures reply.PayAt? ==> SentFor(history, |old(history)|, pid, o, reply.paymentId, reply.url)
      ensures reply.Refused? ==> Refusal(history, |old(history)|, pid)
      ensures forall k :: ReadsAt(history, k, pid, o) && o.quest !in At(history, k).listings ==>
                            UnlistedAnswer(history, k, pid, o, reply)
      ensures forall k :: ReadsAt(history, k, pid, o) && FreeIn(At(history, k), o.quest) ==> FreeAnswer(reply)
    {
      ghost var h := history;
      assert o.owned ==> (o.user, o.quest) in grants.grants by {
        if o.owned { OwnerHolds(history, pid, o); }
      }
      reply := Serve(pid, o, world, input);
      CheckoutPromise(history, pid, o, reply);
      assert history == h + history[|h|..];
      if o.owned { GrantsNeverChange(h, history[|h|..], o.user, o.quest); }
      CheckoutExplained(h, history, pid, o, reply);
      CatalogueDecides(history, pid, o, reply);
    }

    /** Ask the gateway, unless the copy of the row already tells the outcome. */
    method Ask(pid: nat, job: Job, input: Input)
      requires Valid() && pid in procs && procs[pid] == Fetch(job)
      modifies this`procs, this`history
      ensures Valid() && history == old(history) + [Step(pid, input)] && Past(old(history), history)
      ensures procs == old(procs)[pid := FetchRemote(old(View()), job, input)]
      ensures procs[pid] in {PayGrant(job), SettleDone(job, Canceled, None), SettleDone(job, Pending, None), Flip(job),
                             CancelRow(job), Failed}
      ensures procs[pid] != Failed ==>
                && Heading(procs[pid]).Some?
                && AskedAt(history, |old(history)|, pid, job, Heading(procs[pid]).value.1)
    {
      AskStep(View(), pid, job, input);
      AskedNow(history, pid, job, input);
      hide Apply, Exec, AskedAt;
      Book(pid, FetchRemote(View(), job, input), input, View());
    }

    /** Try to win the row. */
    method Win(pid: nat, job: Job, input: Input) returns (won: bool)
      requires Valid() && pid in procs && procs[pid] == Flip(job)
      modifies this`procs, this`history, payments
      ensures Valid() && history == old(history) + [Step(pid, input)] && Past(old(history), history)
      ensures (payments.rows, won) == Payments.SettleSucceeded(old(payments.rows), job.row.id)
      ensures pid in procs && procs[pid] == if won && job.row.coupon.Some? then HeldRedeem(job) else PayGrant(job)
    {
      ghost var s := View();
      WinStep(s, pid, job, input);
      hide Apply, Exec, Payments.SettleSucceeded;
      won := payments.SettleSucceeded(job.row.id);
      Book(pid, if won && job.row.coupon.Some? then HeldRedeem(job) else PayGrant(job), input, s);
    }

    method Withdraw(pid: nat, job: Job, input: Input)
      requires Valid() && pid in procs && procs[pid] == CancelRow(job)
      modifies this`procs, this`history, payments
      ensures Valid() && history == old(history) + [Step(pid, input)] && Past(old(history), history)
      ensures payments.rows == Payments.MarkCanceled(old(payments.rows), job.row.id)
      ensures pid in procs && procs[pid] == SettleDone(job, Canceled, None)
    {
      ghost var s := View();
      WithdrawStep(s, pid, job, input);
      hide Apply, Exec, Payments.MarkCanceled;
      payments.MarkCanceled(job.row.id);
      Book(pid, SettleDone(job, Canceled, None), input, s);
    }

    /** The winner redeems the held coupon; a refusal is only logged. */
    method RedeemHeldCoupon(pid: nat, job: Job, code: string, input: Input)
      requires Valid() && pid in procs && procs[pid] == HeldRedeem(job) && job.row.coupon == Some(code)
      modifies this`procs, this`history, this`origins, this`heldRedeems, coupons`log
      ensures Valid() && history == old(history) + [Step(pid, input)] && Past(old(history), history)
      ensures View() == RedeemHeld(old(View()), pid, job, input)
      ensures pid in procs && procs[pid] == PayGrant(job)
    {
      ghost var s := View();
      HeldStep(s, pid, job, code, input);
      hide Apply, Exec, Coupons.Redeem, RedeemHeld;
      var row := job.row;
      if !input.redeemFails {
        var before := coupons.log;
        var _ := coupons.Redeem(code, row.user, row.quest, row.price, input.today, input.now);
        if coupons.log != before { origins := origins + [BySettlement(row.id)]; }
      }
      heldRedeems := heldRedeems + [row.id];
      Book(pid, PayGrant(job), input, s);
    }

    method GrantPaidQuest(pid: nat, job: Job, input: Input) returns (grant: Grant)
      requires Valid() && pid in procs && procs[pid] == PayGrant(job)
      modifies this`procs, this`history, grants`grants
      ensures Valid() && history == old(history) + [Step(pid, input)] && Past(old(history), history)
      ensures View() == GrantPaid(old(View()), pid, job, input.now)
      ensures pid in procs && procs[pid] == SettleDone(job, Succeeded, Some(grant))
    {
      ghost var s := View();
      PayStep(s, pid, job, input);
      hide Apply, Exec, CreateGrant;
      var created;
      grant, created := grants.CreateGrantIdemp(job.row.user, job.row.quest, Payment, Some(job.row.providerId), input.now);
      Book(pid, SettleDone(job, Succeeded, Some(grant)), input, s);
    }

    /** Settle, from the webhook or the poll, on a copy of the row of any age and
        with anything else running meanwhile: a settlement that answers at all
        answers what the gateway said when it asked. It is "succeeded" if the gateway
        held the money when the call began, and then the player holds the grant
        it returns: the one he had, or a payment grant that names the row's charge. */
    method Settle(pid: nat, job: Job, world: nat -> seq<Action>, input: nat -> Input)
      returns (answer: Option<(RowStatus, Option<Grant>)>)
      requires Valid() && pid in procs && procs[pid] == Fetch(job)
      requires forall k :: Foreign(world(k), pid)
      modifies this, payments, coupons, grants
      ensures Valid() && Past(old(history), history) && pid in procs
      ensures procs[pid] == if answer.None? then Failed else SettleDone(job, answer.value.0, answer.value.1)
      ensures answer.Some? ==> exists i :: |old(history)| <= i && AskedAt(history, i, pid, job, answer.value.0)
      ensures answer.Some? && job.row.providerId in old(gateway) && old(gateway)[job.row.providerId].status == Paid ==>
                answer.value.0 == Succeeded
      ensures answer.Some? && answer.value.0 == Succeeded ==>
                && (job.row.user, job.row.quest) in grants.grants
                && answer.value.1 == Some(grants.grants[(job.row.user, job.row.quest)])
                && job.row.providerId in gateway && gateway[job.row.providerId].status == Paid
      ensures answer.Some? && answer.value.0 == Succeeded ==>
                Grants(history, |old(history)|, pid, job, answer.value.1.value)
      ensures answer.Some? && answer.value.0 != Succeeded ==> answer.value.1.None?
      ensures answer.None? ==> Refusal(history, |old(history)|, pid)
    {
      ghost var start, held := history, gateway;
      assert start[..|start|] == start;
      assert Exec(START, start).gateway == held;
      answer := ServeSettle(pid, job, world, input);
      if answer.Some? {
        if answer.value.0 == Succeeded {
          var _ := CompletedSettlementGrants(history, pid, job, Succeeded, answer.value.1);
          SettlementGranted(start, history, pid, job, answer.value.1.value);
        }
        var _ := CompletedSettlementGrants(history, pid, job, answer.value.0, answer.value.1);
        if job.row.providerId in held && held[job.row.providerId].status == Paid {
          ghost var i :| |start| <= i && AskedAt(history, i, pid, job, answer.value.0);
          PaidAtStart(start, history, i, pid, job, answer.value.0);
        }
      } else {
        assert history[..|start|] == start;
        FailedForAReason(history, |start|, pid);
      }
    }

    /** A settlement told of the money: whoever else settles the row, it goes on to grant. */
    method Claim(pid: nat, job: Job, world: nat -> seq<Action>, input: nat -> Input)
      requires Valid() && pid in procs && procs[pid] == Flip(job)
      requires forall k :: Foreign(world(k), pid)
      modifies this, payments, coupons, grants
      ensures Valid() && Past(old(history), history) && pid in procs && procs[pid] == PayGrant(job)
    {
      PastOrder();
      hide Past, Apply, Exec, Foreign, Valid, View, RedeemHeld;
      Others(pid, world(0));
      var won := Win(pid, job, input(0));
      if won && job.row.coupon.Some? {
        Others(pid, world(1));
        RedeemHeldCoupon(pid, job, job.row.coupon.value, input(1));
      }
    }

    method ServeSettle(pid: nat, job: Job, world: nat -> seq<Action>, input: nat -> Input)
      returns (answer: Option<(RowStatus, Option<Grant>)>)
      requires Valid() && pid in procs && procs[pid] == Fetch(job)
      requires forall k :: Foreign(world(k), pid)
      modifies this, payments, coupons, grants
      ensures Valid() && Past(old(history), history) && pid in procs
      ensures procs[pid] == if answer.None? then Failed else SettleDone(job, answer.value.0, answer.value.1)
      ensures answer.Some? ==> exists i :: |old(history)| <= i && AskedAt(history, i, pid, job, answer.value.0)
    {
      PastOrder();
      hide Past, Apply, Exec, Foreign, Valid, View, AskedAt, FetchRemote, GrantPaid;
      ghost var start := history;
      Others(pid, world(0));
      ghost var i := |history|;
      PastLonger(start, history);
      Ask(pid, job, input(0));
      ghost var asked := history;
      match procs[pid] {
        case Failed => return None;
        case SettleDone(_, status, _) =>
          AskedStays(asked, history, i, pid, job, status);
          return Some((status, None));
        case CancelRow(_) =>
          Others(pid, world(1));
          Withdraw(pid, job, input(1));
          AskedStays(asked, history, i, pid, job, Canceled);
          return Some((Canceled, None));
        case Flip(_) =>
          Claim(pid, job, Later(world, 1), Later(input, 1));
        case PayGrant(_) =>
      }
      Others(pid, world(3));
      var grant := GrantPaidQuest(pid, job, input(3));
      AskedStays(asked, history, i, pid, job, Succeeded);
      return Some((Succeeded, Some(grant)));
    }
  }
}
