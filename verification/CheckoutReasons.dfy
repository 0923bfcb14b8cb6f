/** Why a checkout ends as it ends: what it saw of the catalogue, the coupons, the
    provider's switch and the open payments, and at which step of the run it saw it. */
module CheckoutReasons {
  import opened Prelude
  import opened Coupons
  import opened Payments
  import opened PaymentSafety
  import opened PaymentRuns
  import opened PaymentSteps

  // ---- what a checkout can see --------------------------------------------------------------

  /** What the catalogue says a quest costs. */
  datatype Shown = Unlisted | FreeOfCharge | Priced(price: int)

  function ShownAt(s: State, quest: string): Shown {
    if quest !in s.listings then Unlisted
    else if s.listings[quest].Some? && s.listings[quest].value > 0 then Priced(s.listings[quest].value)
    else FreeOfCharge
  }

  /** The coupon of the code can be used and takes `saved` off. */
  predicate Takes(s: State, code: string, user: string, quest: string, price: int, today: string, c: Coupon, saved: int) {
    && FindCoupon(s.coupons, code) == Some(c)
    && CheckRedeemable(c, quest, UsedTotal(s.log, c.id), UsedBy(s.log, c.id, user), today).Ok?
    && saved == DiscountAmount(c.discount, price)
  }

  /** The code names no coupon, or one that cannot be used. */
  predicate TakesNothing(s: State, code: string, user: string, quest: string, today: string) {
    match FindCoupon(s.coupons, code)
    case None => true
    case Some(c) => CheckRedeemable(c, quest, UsedTotal(s.log, c.id), UsedBy(s.log, c.id, user), today).Err?
  }

  /** The player's redemption of the code for the quest, as recorded or as made now, is
      worth `amount`. */
  predicate Redeems(s: State, code: string, user: string, quest: string, price: int, today: string, amount: int) {
    match FindCoupon(s.coupons, code)
    case None => false
    case Some(c) =>
      match FindRedemption(s.log, c.id, user, quest)
      case Some(r) => amount == r.amount
      case None => Takes(s, code, user, quest, price, today, c, amount)
  }

  /** Something a checkout of order `o` saw at one of its steps. */
  datatype Fact =
    | SwitchedOn
    | Covered(price: int)
    | NotCovered(price: int)
    | Discounted(price: int, discount: Discount, saved: int)
    | Redeemed(price: int, amount: int)
    | Replayed(id: string, url: string)
    | Kept(row: Row)

  /** The action is the checkout's own step, and it sees the fact. */
  ghost predicate Sees(s: State, a: Action, pid: nat, o: Order, fact: Fact) {
    && a.Step? && a.pid == pid && pid in s.procs
    && var (p, i) := (s.procs[pid], a.input);
       match fact
       case SwitchedOn => p.Gate? && i.featureOn && (o.provider == Yookassa ==> i.configured)
       case Covered(price) =>
         && o.coupon.Code? && (p == QuoteFull(o, o.coupon.code, price) || p == QuoteCharge(o, o.coupon.code, price))
         && exists c, saved :: Takes(s, o.coupon.code, o.user, o.quest, price, i.today, c, saved) && saved >= price
       case NotCovered(price) =>
         && o.coupon.Code?
         && forall c, saved :: Takes(s, o.coupon.code, o.user, o.quest, price, i.today, c, saved) ==> saved < price
       case Discounted(price, discount, saved) =>
         && o.coupon.Code?
         && exists c :: Takes(s, o.coupon.code, o.user, o.quest, price, i.today, c, saved) && c.discount == discount
       case Redeemed(price, amount) =>
         o.coupon.Code? && Redeems(s, o.coupon.code, o.user, o.quest, price, i.today, amount)
       case Replayed(id, url) => IsOpenFor(s.rows, id, o.user, o.quest) && s.rows[id].url == url
       case Kept(row) => p == Insert(o, row)
  }

  /** The checkout saw it from step `from` of the run on. */
  ghost predicate Saw(run: seq<Action>, from: nat, pid: nat, o: Order, fact: Fact) {
    exists j :: from <= j < |run| && Sees(At(run, j), run[j], pid, o, fact)
  }

  /** Step `k` is the one in which the checkout reads the catalogue. */
  predicate ReadsAt(run: seq<Action>, k: nat, pid: nat, o: Order) {
    && k < |run| && run[k].Step? && run[k].pid == pid
    && pid in At(run, k).procs && At(run, k).procs[pid] == Listing(o)
  }

  // ---- what each stop of a checkout stands on -----------------------------------------------------

  predicate ListedAs(shown: Shown, listed: Option<int>) {
    match shown
    case Unlisted => listed.None?
    case FreeOfCharge => false
    case Priced(price) => listed == Some(price)
  }

  /** The reference of a grant without a charge. */
  function MockReference(o: Order): string { "mock-pay-" + o.user + "-" + o.quest }

  /** The provider's switch was seen on. */
  ghost predicate SeenOn(run: seq<Action>, k: nat, pid: nat, o: Order) { Saw(run, k, pid, o, SwitchedOn) }

  /** A redirect order, past the switch, at the price shown. */
  ghost predicate Charging(run: seq<Action>, k: nat, pid: nat, o: Order, price: int)
    requires k <= |run|
  {
    o.provider == Yookassa && SeenOn(run, k, pid, o) && ShownAt(At(run, k), o.quest) == Priced(price)
  }

  /** The payer is asked for the shown price, less what the order's coupon was seen to
      take off. */
  ghost predicate Terms(run: seq<Action>, k: nat, pid: nat, o: Order, held: Option<string>, amount: int, price: int)
    requires k <= |run|
  {
    match o.coupon
    case NoCoupon => held.None? && amount == price
    case BlankCode => false
    case Code(code) =>
      && held == Some(code)
      && exists d, saved :: Saw(run, k, pid, o, Discounted(price, d, saved)) && saved < price && amount == price - saved
  }

  /** Without a charge: by a coupon seen to cover the price, or by a provider other than
      the redirect one, past its switch. */
  ghost predicate Chargeless(run: seq<Action>, k: nat, pid: nat, o: Order)
    requires k <= |run|
  {
    || (exists price :: ShownAt(At(run, k), o.quest) == Priced(price) && Saw(run, k, pid, o, Covered(price)))
    || (o.provider != Yookassa && SeenOn(run, k, pid, o))
  }

  /** What a grant without a charge is made of: a redemption that covers the price, or
      the mock reference. */
  ghost predicate GrantTerms(run: seq<Action>, k: nat, pid: nat, o: Order, source: GrantSource, ref: Option<string>)
    requires k <= |run|
  {
    && Chargeless(run, k, pid, o)
    && match o.coupon
       case NoCoupon =>
         ShownAt(At(run, k), o.quest) != FreeOfCharge && source == Payment && ref == Some(MockReference(o))
       case BlankCode => false
       case Code(code) =>
         && ShownAt(At(run, k), o.quest).Priced?
         && var price := ShownAt(At(run, k), o.quest).price;
            exists amount ::
              && Saw(run, k, pid, o, Redeemed(price, amount))
              && source == (if amount >= price then CouponRedemption else Payment)
              && ref == if amount >= price then None else Some(MockReference(o))
  }

  /** What the grant of the order is to say: a free quest, if the catalogue showed it so. */
  ghost predicate Deserves(run: seq<Action>, k: nat, pid: nat, o: Order, source: GrantSource, ref: Option<string>)
    requires k <= |run|
  {
    if ShownAt(At(run, k), o.quest) == FreeOfCharge then source == FreeQuest && ref.None?
    else GrantTerms(run, k, pid, o, source, ref)
  }

  /** What a checkout that read the catalogue at step `k` has seen when it stands at `p`. */
  ghost predicate Explained(run: seq<Action>, k: nat, pid: nat, o: Order, p: Proc) {
    && k <= |run| && IsCheckout(p) && p.o == o
    && var shown := ShownAt(At(run, k), o.quest);
       match p
       case Free(_) => shown == FreeOfCharge
       case QuoteFull(_, code, price) => o.coupon == Code(code) && shown == Priced(price)
       case Gate(_, listed) =>
         ListedAs(shown, listed) && (listed.Some? && o.coupon.Code? ==> Saw(run, k, pid, o, NotCovered(listed.value)))
       case FindOpen(_, listed) => ListedAs(shown, listed) && o.provider == Yookassa && SeenOn(run, k, pid, o)
       case QuoteCharge(_, code, price) => o.coupon == Code(code) && Charging(run, k, pid, o, price)
       case Create(_, held, charge) =>
         Charging(run, k, pid, o, charge.price) && Terms(run, k, pid, o, held, charge.amount, charge.price)
       case Insert(_, row) =>
         && row.user == o.user && row.quest == o.quest && row.status == Pending
         && Charging(run, k, pid, o, row.price) && Terms(run, k, pid, o, row.coupon, row.amount, row.price)
       case Redirected(_, id, url) =>
         && o.provider == Yookassa && SeenOn(run, k, pid, o) && shown != FreeOfCharge
         && (Saw(run, k, pid, o, Replayed(id, url)) || KeptRow(run, k, pid, o, id, url))
       case MockRedeem(_, code, price) => o.coupon == Code(code) && shown == Priced(price) && Chargeless(run, k, pid, o)
       case MockGrant(_, source, ref) => GrantTerms(run, k, pid, o, source, ref)
       case Settled(_, g, created) =>
         exists source, ref ::
           && Deserves(run, k, pid, o, source, ref)
           && (created ==> g == Grant(o.user, o.quest, source, ref, g.at))
       case _ => false
  }

  /** The row it redirects to is one it kept itself, on the terms it saw. */
  ghost predicate KeptRow(run: seq<Action>, k: nat, pid: nat, o: Order, id: string, url: string)
    requires k <= |run|
  {
    exists row ::
      && Saw(run, k, pid, o, Kept(row)) && row.id == id && row.url == url && row.user == o.user && row.quest == o.quest
      && Charging(run, k, pid, o, row.price) && Terms(run, k, pid, o, row.coupon, row.amount, row.price)
  }

  // ---- facts stay --------------------------------------------------------------------------------

  lemma SawBefore(run: seq<Action>, n: nat, from: nat, pid: nat, o: Order, fact: Fact)
    requires n <= |run| && Saw(run[..n], from, pid, o, fact)
    ensures Saw(run, from, pid, o, fact)
  {
    hide Sees, Exec;
    var j :| from <= j < n && Sees(At(run[..n], j), run[..n][j], pid, o, fact);
    AtPrefix(run, n, j);
    assert Sees(At(run, j), run[j], pid, o, fact);
  }

  lemma SeenNow(run: seq<Action>, from: nat, pid: nat, o: Order, fact: Fact)
    requires from < |run| && Sees(At(run, |run| - 1), run[|run| - 1], pid, o, fact)
    ensures Saw(run, from, pid, o, fact)
  {
    hide Sees, Exec;
  }

  lemma SeenOnBefore(run: seq<Action>, n: nat, k: nat, pid: nat, o: Order)
    requires k <= n <= |run|
    ensures At(run[..n], k) == At(run, k) && (SeenOn(run[..n], k, pid, o) ==> SeenOn(run, k, pid, o))
    ensures forall price :: Charging(run[..n], k, pid, o, price) ==> Charging(run, k, pid, o, price)
  {
    hide Saw, Exec;
    AtPrefix(run, n, k);
    if SeenOn(run[..n], k, pid, o) { SawBefore(run, n, k, pid, o, SwitchedOn); }
  }

  lemma TermsBefore(run: seq<Action>, n: nat, k: nat, pid: nat, o: Order, held: Option<string>, amount: int, price: int)
    requires k <= n <= |run| && Terms(run[..n], k, pid, o, held, amount, price)
    ensures Terms(run, k, pid, o, held, amount, price)
  {
    hide Saw;
    if o.coupon.Code? {
      var d, saved :| Saw(run[..n], k, pid, o, Discounted(price, d, saved)) && saved < price && amount == price - saved;
      SawBefore(run, n, k, pid, o, Discounted(price, d, saved));
    }
  }

  lemma ChargelessBefore(run: seq<Action>, n: nat, k: nat, pid: nat, o: Order)
    requires k <= n <= |run| && Chargeless(run[..n], k, pid, o)
    ensures Chargeless(run, k, pid, o)
  {
    hide Saw, Exec, SeenOn;
    SeenOnBefore(run, n, k, pid, o);
    if price :| ShownAt(At(run[..n], k), o.quest) == Priced(price) && Saw(run[..n], k, pid, o, Covered(price)) {
      SawBefore(run, n, k, pid, o, Covered(price));
    }
  }

  lemma GrantTermsBefore(run: seq<Action>, n: nat, k: nat, pid: nat, o: Order, source: GrantSource, ref: Option<string>)
    requires k <= n <= |run| && GrantTerms(run[..n], k, pid, o, source, ref)
    ensures GrantTerms(run, k, pid, o, source, ref)
  {
    hide Saw, Exec, Chargeless;
    ChargelessBefore(run, n, k, pid, o);
    AtPrefix(run, n, k);
    if o.coupon.Code? {
      var price := ShownAt(At(run, k), o.quest).price;
      var amount :| Saw(run[..n], k, pid, o, Redeemed(price, amount))
                    && source == (if amount >= price then CouponRedemption else Payment)
                    && ref == if amount >= price then None else Some(MockReference(o));
      SawBefore(run, n, k, pid, o, Redeemed(price, amount));
    }
  }

  lemma KeptBefore(run: seq<Action>, n: nat, k: nat, pid: nat, o: Order, id: string, url: string)
    requires k <= n <= |run| && KeptRow(run[..n], k, pid, o, id, url)
    ensures KeptRow(run, k, pid, o, id, url)
  {
    hide Saw, Exec, Charging, Terms;
    SeenOnBefore(run, n, k, pid, o);
    var row :|
      && Saw(run[..n], k, pid, o, Kept(row)) && row.id == id && row.url == url && row.user == o.user && row.quest == o.quest
      && Charging(run[..n], k, pid, o, row.price) && Terms(run[..n], k, pid, o, row.coupon, row.amount, row.price);
    SawBefore(run, n, k, pid, o, Kept(row));
    TermsBefore(run, n, k, pid, o, row.coupon, row.amount, row.price);
  }

  lemma DeservesBefore(run: seq<Action>, n: nat, k: nat, pid: nat, o: Order, source: GrantSource, ref: Option<string>)
    requires k <= n <= |run| && Deserves(run[..n], k, pid, o, source, ref)
    ensures Deserves(run, k, pid, o, source, ref)
  {
    hide Exec, GrantTerms;
    AtPrefix(run, n, k);
    if ShownAt(At(run, k), o.quest) != FreeOfCharge { GrantTermsBefore(run, n, k, pid, o, source, ref); }
  }

  lemma ExplainedBefore(run: seq<Action>, n: nat, k: nat, pid: nat, o: Order, p: Proc)
    requires k <= n <= |run| && Explained(run[..n], k, pid, o, p)
    ensures Explained(run, k, pid, o, p)
  {
    hide Saw, Exec, SeenOn, Charging, Terms, Chargeless, GrantTerms, KeptRow, Deserves;
    SeenOnBefore(run, n, k, pid, o);
    match p {
      case Gate(_, listed) =>
        if listed.Some? && o.coupon.Code? { SawBefore(run, n, k, pid, o, NotCovered(listed.value)); }
      case Create(_, held, charge) => TermsBefore(run, n, k, pid, o, held, charge.amount, charge.price);
      case Insert(_, row) => TermsBefore(run, n, k, pid, o, row.coupon, row.amount, row.price);
      case Redirected(_, id, url) =>
        if KeptRow(run[..n], k, pid, o, id, url) { KeptBefore(run, n, k, pid, o, id, url); }
        if Saw(run[..n], k, pid, o, Replayed(id, url)) { SawBefore(run, n, k, pid, o, Replayed(id, url)); }
      case MockRedeem(_, _, _) => ChargelessBefore(run, n, k, pid, o);
      case MockGrant(_, source, ref) => GrantTermsBefore(run, n, k, pid, o, source, ref);
      case Settled(_, g, created) =>
        var source, ref :| Deserves(run[..n], k, pid, o, source, ref)
                           && (created ==> g == Grant(o.user, o.quest, source, ref, g.at));
        DeservesBefore(run, n, k, pid, o, source, ref);
      case _ =>
    }
  }

  // ---- one step of a checkout -----------------------------------------------------------------

  /** The last action of the run is a step of the checkout, which stood at `p`. */
  ghost predicate Last(run: seq<Action>, k: nat, pid: nat, o: Order, p: Proc) {
    && k < |run|
    && var (s, a) := (At(run, |run| - 1), run[|run| - 1]);
       a.Step? && a.pid == pid && pid in s.procs && s.procs[pid] == p && IsCheckout(p) && p.o == o
  }

  ghost predicate Goes(run: seq<Action>, k: nat, pid: nat, o: Order, q: Proc) {
    q == Failed || Explained(run, k, pid, o, q)
  }

  /** The catalogue is read, and the first stop depends on what it shows. */
  lemma AfterReading(run: seq<Action>, k: nat, pid: nat, o: Order)
    requires Last(run, k, pid, o, Listing(o)) && k == |run| - 1
    ensures Goes(run, k, pid, o, NextStop(At(run, k), Listing(o), run[k].input))
  {
    hide Exec, Saw;
  }

  lemma AfterQuoteFull(run: seq<Action>, k: nat, pid: nat, o: Order, code: string, price: int)
    requires Last(run, k, pid, o, QuoteFull(o, code, price)) && Explained(run, k, pid, o, QuoteFull(o, code, price))
    ensures var (s, i) := (At(run, |run| - 1), run[|run| - 1].input);
            Goes(run, k, pid, o, NextStop(s, QuoteFull(o, code, price), i))
  {
    hide Exec, Saw, CheckRedeemable, DiscountAmount;
    var (s, a) := (At(run, |run| - 1), run[|run| - 1]);
    var quote := Quote(s, code, o.user, o.quest, price, a.input.today);
    if quote.Ok? && quote.value.1 >= price {
      assert Takes(s, code, o.user, o.quest, price, a.input.today, FindCoupon(s.coupons, code).value, quote.value.1);
      SeenNow(run, k, pid, o, Covered(price));
    } else {
      SeenNow(run, k, pid, o, NotCovered(price));
    }
  }

  lemma AfterGate(run: seq<Action>, k: nat, pid: nat, o: Order, listed: Option<int>)
    requires Last(run, k, pid, o, Gate(o, listed)) && Explained(run, k, pid, o, Gate(o, listed))
    ensures var (s, i) := (At(run, |run| - 1), run[|run| - 1].input);
            Goes(run, k, pid, o, NextStop(s, Gate(o, listed), i))
  {
    hide Exec, Saw;
    var i := run[|run| - 1].input;
    if i.featureOn && (o.provider == Yookassa ==> i.configured) { SeenNow(run, k, pid, o, SwitchedOn); }
  }

  lemma AfterFindOpen(run: seq<Action>, k: nat, pid: nat, o: Order, listed: Option<int>)
    requires Last(run, k, pid, o, FindOpen(o, listed)) && Explained(run, k, pid, o, FindOpen(o, listed))
    ensures var (s, i) := (At(run, |run| - 1), run[|run| - 1].input);
            Goes(run, k, pid, o, NextStop(s, FindOpen(o, listed), i))
  {
    hide Exec, Saw, HasOpen;
    var (s, i) := (At(run, |run| - 1), run[|run| - 1].input);
    if IsOpenFor(s.rows, i.pick, o.user, o.quest) { SeenNow(run, k, pid, o, Replayed(i.pick, s.rows[i.pick].url)); }
  }

  lemma AfterQuoteCharge(run: seq<Action>, k: nat, pid: nat, o: Order, code: string, price: int)
    requires Last(run, k, pid, o, QuoteCharge(o, code, price)) && Explained(run, k, pid, o, QuoteCharge(o, code, price))
    ensures var (s, i) := (At(run, |run| - 1), run[|run| - 1].input);
            Goes(run, k, pid, o, NextStop(s, QuoteCharge(o, code, price), i))
  {
    hide Exec, Saw, CheckRedeemable, DiscountAmount;
    var (s, i) := (At(run, |run| - 1), run[|run| - 1].input);
    var quote := Quote(s, code, o.user, o.quest, price, i.today);
    if quote.Ok? {
      var (discount, saved) := quote.value;
      assert Takes(s, code, o.user, o.quest, price, i.today, FindCoupon(s.coupons, code).value, saved);
      if saved >= price {
        SeenNow(run, k, pid, o, Covered(price));
      } else {
        SeenNow(run, k, pid, o, Discounted(price, discount, saved));
      }
    }
  }

  lemma AfterMockRedeem(run: seq<Action>, k: nat, pid: nat, o: Order, code: string, price: int)
    requires Last(run, k, pid, o, MockRedeem(o, code, price)) && Explained(run, k, pid, o, MockRedeem(o, code, price))
    ensures var (s, i) := (At(run, |run| - 1), run[|run| - 1].input);
            var t := RedeemNow(s, pid, o, code, price, i);
            pid in t.procs && Goes(run, k, pid, o, t.procs[pid])
  {
    hide Exec, Saw, CheckRedeemable, DiscountAmount, Chargeless;
    var (s, i) := (At(run, |run| - 1), run[|run| - 1].input);
    RedeemNowShape(s, pid, o, code, price, i);
    hide RedeemNow;
    var r := Redeem(s.coupons, s.log, code, o.user, o.quest, price, i.today, i.now);
    if r.Ok? {
      assert Redeems(s, code, o.user, o.quest, price, i.today, r.value.0.amount);
      SeenNow(run, k, pid, o, Redeemed(price, r.value.0.amount));
    }
  }

  lemma AfterGranting(run: seq<Action>, k: nat, pid: nat, o: Order, source: GrantSource, ref: Option<string>)
    requires k <= |run|
    requires Deserves(run, k, pid, o, source, ref)
    ensures forall s: State, now ::
              var t := PutGrant(s, pid, o, source, ref, now); pid in t.procs && Explained(run, k, pid, o, t.procs[pid])
  {
    hide Exec, Deserves;
  }

  lemma AfterCreate(run: seq<Action>, k: nat, pid: nat, o: Order, held: Option<string>, charge: Charge)
    requires Last(run, k, pid, o, Create(o, held, charge)) && Explained(run, k, pid, o, Create(o, held, charge))
    ensures var (s, i) := (At(run, |run| - 1), run[|run| - 1].input);
            var t := MintCharge(s, pid, o, held, charge, i);
            pid in t.procs && Goes(run, k, pid, o, t.procs[pid])
  {
    hide Exec, Charging, Terms;
    var (s, i) := (At(run, |run| - 1), run[|run| - 1].input);
    MintChargeShape(s, pid, o, held, charge, i);
    hide MintCharge;
  }

  lemma AfterInsert(run: seq<Action>, k: nat, pid: nat, o: Order, row: Row)
    requires Last(run, k, pid, o, Insert(o, row)) && Explained(run, k, pid, o, Insert(o, row))
    ensures Explained(run, k, pid, o, Redirected(o, row.id, row.url))
  {
    hide Exec, Terms, Saw;
    SeenNow(run, k, pid, o, Kept(row));
  }

  /** Whatever stop the step leads to is explained by what the checkout has seen by then. */
  lemma OneStepOn(run: seq<Action>, k: nat, pid: nat, o: Order, p: Proc)
    requires Last(run, k, pid, o, p) && (p == Listing(o) ==> k == |run| - 1)
    requires p != Listing(o) ==> Explained(run, k, pid, o, p)
    ensures var t := CheckoutStep(At(run, |run| - 1), pid, p, run[|run| - 1].input);
            pid in t.procs && Goes(run, k, pid, o, t.procs[pid])
  {
    var (s, i) := (At(run, |run| - 1), run[|run| - 1].input);
    match p {
      case Listing(_) => AfterReading(run, k, pid, o);
      case QuoteFull(_, code, price) => AfterQuoteFull(run, k, pid, o, code, price);
      case Gate(_, listed) => AfterGate(run, k, pid, o, listed);
      case FindOpen(_, listed) => AfterFindOpen(run, k, pid, o, listed);
      case QuoteCharge(_, code, price) => AfterQuoteCharge(run, k, pid, o, code, price);
      case MockRedeem(_, code, price) => AfterMockRedeem(run, k, pid, o, code, price);
      case Free(_) => AfterGranting(run, k, pid, o, FreeQuest, None);
      case MockGrant(_, source, ref) =>
        assert ShownAt(At(run, k), o.quest) != FreeOfCharge;
        AfterGranting(run, k, pid, o, source, ref);
      case Create(_, held, charge) => AfterCreate(run, k, pid, o, held, charge);
      case Insert(_, row) => AfterInsert(run, k, pid, o, row);
      case _ =>
    }
    hide Exec, Last, Saw, NextStop, RedeemNow, PutGrant, MintCharge, Charging, Terms, GrantTerms, KeptRow, SeenOn;
  }

  // ---- whole runs -------------------------------------------------------------------------------

  /** Once a checkout has read the catalogue, every stop of it is explained by what the
      catalogue showed then and what it has seen since. */
  lemma {:induction false} SinceReading(run: seq<Action>, k: nat, pid: nat, o: Order)
    requires ReadsAt(run, k, pid, o)
    ensures pid in Exec(START, run).procs && Goes(run, k, pid, o, Exec(START, run).procs[pid])
    decreases |run|
  {
    hide Apply, Explained, CheckoutStep;
    var n := |run| - 1;
    var (s, a) := (At(run, n), run[n]);
    AtPrefix(run, n, if k < n then k else n);
    if k == n {
      OneStepOn(run, k, pid, o, Listing(o));
      CheckoutMoves(s, pid, a.input);
    } else {
      assert run[..n][k] == run[k];
      SinceReading(run[..n], k, pid, o);
      var p := s.procs[pid];
      if p != Failed { ExplainedBefore(run, n, k, pid, o, p); }
      SinceStep(run, k, pid, o, p);
    }
  }

  lemma SinceStep(run: seq<Action>, k: nat, pid: nat, o: Order, p: Proc)
    requires k < |run| - 1
    requires pid in At(run, |run| - 1).procs && At(run, |run| - 1).procs[pid] == p && Goes(run, k, pid, o, p)
    ensures var t := Apply(At(run, |run| - 1), run[|run| - 1]); pid in t.procs && Goes(run, k, pid, o, t.procs[pid])
  {
    hide CheckoutStep, Exec;
    var (s, a) := (At(run, |run| - 1), run[|run| - 1]);
    if a.Step? && a.pid == pid {
      if p != Failed {
        assert IsCheckout(p) && p != Listing(o) && p.o == o;
        hide Explained;
        CheckoutMoves(s, pid, a.input);
        OneStepOn(run, k, pid, o, p);
      }
    } else if !(a.Crash? && a.pid == pid) {
      hide Explained, Apply;
      OtherMoves(s, a, pid);
    }
  }

  lemma CheckoutMoves(s: State, pid: nat, input: Input)
    requires pid in s.procs && IsCheckout(s.procs[pid])
    ensures Apply(s, Step(pid, input)) == CheckoutStep(s, pid, s.procs[pid], input)
  {
    hide CheckoutStep;
  }

  /** A process that has granted nothing and seen no catalogue yet. */
  predicate Early(p: Proc) { p.Arrived? || p.Owned? || p.Listing? || !IsCheckout(p) || (p.Settled? && !p.created) }

  ghost predicate HasRead(run: seq<Action>, from: nat, pid: nat, o: Order) {
    exists k :: from <= k && ReadsAt(run, k, pid, o)
  }

  lemma HasReadBefore(run: seq<Action>, n: nat, from: nat, pid: nat, o: Order)
    requires n <= |run| && HasRead(run[..n], from, pid, o)
    ensures HasRead(run, from, pid, o)
  {
    hide Exec;
    var k :| from <= k && ReadsAt(run[..n], k, pid, o);
    AtPrefix(run, n, k);
    assert ReadsAt(run, k, pid, o);
  }

  /** An early stop leads to an early one, unless the step reads the catalogue. */
  lemma EarlyStep(s: State, a: Action, pid: nat)
    requires Inv(s) && pid in Apply(s, a).procs && (pid in s.procs ==> Early(s.procs[pid]))
    ensures var q := Apply(s, a).procs[pid];
            || Early(q)
            || (a.Step? && a.pid == pid && pid in s.procs && IsCheckout(q) && s.procs[pid] == Listing(q.o))
  {
    hide MaySave, Saved, CheckoutStep, SettleStep, Inv;
    if pid in s.procs && ((a.Step? || a.Crash?) ==> a.pid != pid) {
      OtherMoves(s, a, pid);
    } else if a.Step? && a.pid in s.procs {
      if a.pid == pid { EarlyMoves(s, pid, a.input); } else { OwnStep(s, a.pid, a.input); }
    }
  }

  lemma EarlyMoves(s: State, pid: nat, input: Input)
    requires Inv(s) && pid in s.procs && Early(s.procs[pid])
    ensures var t := Apply(s, Step(pid, input));
            && pid in t.procs
            && (Early(t.procs[pid]) || (IsCheckout(t.procs[pid]) && s.procs[pid] == Listing(t.procs[pid].o)))
  {
    var p := s.procs[pid];
    if IsCheckout(p) {
      if p.Owned? {
        assert ProcOk(s, p) && GrantsOk(s);
        hide Inv;
      } else {
        hide Inv, CreateGrant;
        ReadingKeepsOrder(s, p, input);
      }
    } else {
      hide Inv;
      StaysSettling(s, pid, input);
    }
  }

  lemma ReadingKeepsOrder(s: State, p: Proc, input: Input)
    requires p.Arrived? || p.Listing? || p.Settled?
    ensures var q := NextStop(s, p, input); q == Failed || (IsCheckout(q) && q.o == p.o)
    ensures !p.Listing? ==> Early(NextStop(s, p, input)) || NextStop(s, p, input) == p
  {}

  lemma StaysSettling(s: State, pid: nat, input: Input)
    requires pid in s.procs && !IsCheckout(s.procs[pid])
    ensures var t := SettleStep(s, pid, s.procs[pid], input); pid in t.procs && !IsCheckout(t.procs[pid])
  {
    hide Redeem, CreateGrant, SettleSucceeded, MarkCanceled, FetchRemote;
    if s.procs[pid].Fetch? { FetchSettles(s, s.procs[pid].job, input); }
  }

  lemma FetchSettles(s: State, job: Job, input: Input)
    ensures !IsCheckout(FetchRemote(s, job, input))
  {}

  /** A checkout that got further has read the catalogue on the way. */
  lemma {:induction false} ReadOnTheWay(run: seq<Action>, from: nat, pid: nat)
    requires from <= |run| && pid in Exec(START, run).procs
    requires pid in At(run, from).procs ==> Early(At(run, from).procs[pid])
    ensures var p := Exec(START, run).procs[pid]; Early(p) || HasRead(run, from, pid, p.o)
    decreases |run|
  {
    hide Apply, Early;
    assert run[..|run|] == run;
    if from < |run| {
      var n := |run| - 1;
      var s := At(run, n);
      AtPrefix(run, n, from);
      EveryRunKeeps(run[..n]);
      if pid in s.procs { ReadOnTheWay(run[..n], from, pid); }
      if pid in s.procs && !Early(s.procs[pid]) {
        var o := LateOrder(s.procs[pid]);
        HasReadBefore(run, n, from, pid, o);
        var k :| from <= k && ReadsAt(run, k, pid, o);
        SinceReading(run, k, pid, o);
        LateStays(run, k, pid, o);
      } else {
        EarlyStep(s, run[n], pid);
        if !Early(Exec(START, run).procs[pid]) {
          assert ReadsAt(run, n, pid, LateOrder(Exec(START, run).procs[pid])) by { LateChecksOut(Exec(START, run).procs[pid]); }
        }
      }
    }
  }

  function LateOrder(p: Proc): Order
    requires !Early(p)
  {
    p.o
  }

  lemma LateChecksOut(p: Proc)
    requires !Early(p)
    ensures IsCheckout(p)
  {}

  lemma LateStays(run: seq<Action>, k: nat, pid: nat, o: Order)
    requires pid in Exec(START, run).procs && Goes(run, k, pid, o, Exec(START, run).procs[pid])
    ensures var p := Exec(START, run).procs[pid]; Early(p) || p.o == o
  {}

  // ---- where every grant comes from ---------------------------------------------------------------

  /** In step `k` the process puts the grant into the store, where the player had none. */
  predicate MadeAt(run: seq<Action>, k: nat, pid: nat, g: Grant) {
    && k < |run| && run[k].Step? && run[k].pid == pid && pid in At(run, k).procs
    && (g.user, g.quest) !in At(run, k).grants
    && (g.user, g.quest) in At(run, k + 1).grants && At(run, k + 1).grants[(g.user, g.quest)] == g
  }

  /** A settlement makes a payment grant that names the charge of its row, whose money is
      taken. */
  predicate SettlementGrant(run: seq<Action>, k: nat, pid: nat, g: Grant)
    requires MadeAt(run, k, pid, g)
  {
    var (s, p) := (At(run, k), At(run, k).procs[pid]);
    && p.PayGrant? && g.user == p.job.row.user && g.quest == p.job.row.quest
    && g.source == Payment && g.sourceRef == Some(p.job.row.providerId)
    && p.job.row.id in s.rows && s.rows[p.job.row.id].status == Succeeded
    && p.job.row.providerId in s.gateway && s.gateway[p.job.row.providerId].status == Paid
  }

  /** A checkout that read the catalogue at step `r` makes a free grant if the quest was
      published there at no price, and otherwise one that is paid for without a charge. */
  ghost predicate CheckoutGrant(run: seq<Action>, r: nat, pid: nat, o: Order, g: Grant) {
    && ReadsAt(run, r, pid, o) && g.user == o.user && g.quest == o.quest
    && if FreeIn(At(run, r), o.quest) then g.source == FreeQuest && g.sourceRef.None?
       else GrantTerms(run, r, pid, o, g.source, g.sourceRef)
  }

  /** The quest is published, with no price or none above zero. */
  predicate FreeIn(s: State, quest: string) {
    quest in s.listings && (s.listings[quest].None? || s.listings[quest].value <= 0)
  }

  ghost predicate HasReason(run: seq<Action>, k: nat, pid: nat, g: Grant) {
    && MadeAt(run, k, pid, g)
    && (SettlementGrant(run, k, pid, g) || exists r: nat, o :: r <= k && CheckoutGrant(run, r, pid, o, g))
  }

  /** Every grant ever stored was made in one step, by a settlement whose charge it names,
      or by a checkout that saw the quest published at no price, or by one that was paid
      without a charge. */
  lemma {:induction false} EveryGrantHasItsReason(run: seq<Action>, user: string, quest: string) returns (k: nat, pid: nat)
    requires (user, quest) in Exec(START, run).grants
    ensures HasReason(run, k, pid, Exec(START, run).grants[(user, quest)])
    decreases |run|
  {
    hide Apply, HasReason, Inv;
    assert run[..|run|] == run;
    var n := |run| - 1;
    var (s, t) := (At(run, n), Exec(START, run));
    EveryRunKeeps(run);
    GrantKey(t, user, quest);
    if (user, quest) in s.grants {
      GrantsNeverChange(run[..n], run[n..], user, quest);
      assert run[..n] + run[n..] == run;
      k, pid := EveryGrantHasItsReason(run[..n], user, quest);
      ReasonBefore(run, n, k, pid, t.grants[(user, quest)]);
    } else {
      EveryRunKeeps(run[..n]);
      k := n;
      pid := MakerOf(s, run[n], user, quest);
      AtNext(run, n);
      ReasonNow(run, pid, t.grants[(user, quest)]);
    }
  }

  lemma GrantKey(s: State, user: string, quest: string)
    requires Inv(s) && (user, quest) in s.grants
    ensures s.grants[(user, quest)].user == user && s.grants[(user, quest)].quest == quest
  {}

  lemma ReasonBefore(run: seq<Action>, n: nat, k: nat, pid: nat, g: Grant)
    requires n <= |run| && HasReason(run[..n], k, pid, g)
    ensures HasReason(run, k, pid, g)
  {
    hide Exec, GrantTerms;
    AtPrefix(run, n, k);
    AtPrefix(run, n, k + 1);
    if r: nat, o :| r <= k && CheckoutGrant(run[..n], r, pid, o, g) {
      AtPrefix(run, n, r);
      if ShownAt(At(run, r), o.quest) != FreeOfCharge { GrantTermsBefore(run, n, r, pid, o, g.source, g.sourceRef); }
      assert CheckoutGrant(run, r, pid, o, g);
    }
  }

  /** Only a granting step of a checkout or a settlement adds a grant. */
  lemma MakerOf(s: State, a: Action, user: string, quest: string) returns (pid: nat)
    requires Inv(s) && (user, quest) !in s.grants && (user, quest) in Apply(s, a).grants
    ensures a.Step? && a.pid == pid && pid in s.procs
    ensures var p := s.procs[pid];
            && (p.Free? || p.MockGrant? || p.PayGrant?)
            && (IsCheckout(p) ==>
                  && Apply(s, a).procs == s.procs[pid := Apply(s, a).procs[pid]]
                  && Apply(s, a).procs[pid] == Settled(p.o, Apply(s, a).grants[(user, quest)], true))
            && (p.PayGrant? ==>
                  && p.job.row.user == user && p.job.row.quest == quest
                  && Apply(s, a).grants[(user, quest)].source == Payment
                  && Apply(s, a).grants[(user, quest)].sourceRef == Some(p.job.row.providerId))
  {
    hide MaySave, Saved;
    pid := a.pid;
    var p := s.procs[pid];
    if IsCheckout(p) {
      assert p.Owned? ==> ProcOk(s, p);
      hide Inv;
      GrantsByCheckout(s, pid, a.input);
    } else {
      hide Inv;
      GrantsBySettlement(s, pid, a.input);
    }
  }

  lemma GrantsByCheckout(s: State, pid: nat, input: Input)
    requires pid in s.procs && IsCheckout(s.procs[pid])
    ensures var (p, t) := (s.procs[pid], CheckoutStep(s, pid, s.procs[pid], input));
            && pid in t.procs && t.procs == s.procs[pid := t.procs[pid]]
            && (t.grants == s.grants
                || ((p.Free? || p.MockGrant? || p.Owned?)
                    && exists g :: t.grants == s.grants[(p.o.user, p.o.quest) := g] && t.procs[pid] == Settled(p.o, g, true)))
  {
    hide NextStop, RedeemNow, MintCharge;
    var p := s.procs[pid];
    if p.MockRedeem? { RedeemNowShape(s, pid, p.o, p.code, p.price, input); }
    if p.Create? { MintChargeShape(s, pid, p.o, p.held, p.charge, input); }
  }

  lemma GrantsBySettlement(s: State, pid: nat, input: Input)
    requires pid in s.procs && !IsCheckout(s.procs[pid])
    ensures var (p, t) := (s.procs[pid], SettleStep(s, pid, s.procs[pid], input));
            || t.grants == s.grants
            || (p.PayGrant?
                && t.grants == s.grants[(p.job.row.user, p.job.row.quest) :=
                     Grant(p.job.row.user, p.job.row.quest, Payment, Some(p.job.row.providerId), input.now)])
  {
    hide Redeem, SettleSucceeded, MarkCanceled, FetchRemote;
  }

  lemma ReasonNow(run: seq<Action>, pid: nat, g: Grant)
    requires run != [] && MadeAt(run, |run| - 1, pid, g) && Inv(At(run, |run| - 1))
    ensures HasReason(run, |run| - 1, pid, g)
  {
    var n := |run| - 1;
    var (s, a) := (At(run, n), run[n]);
    AtNext(run, n);
    hide Apply, Inv, Exec;
    var maker := MakerOf(s, a, g.user, g.quest);
    var p := s.procs[pid];
    if p.PayGrant? {
      PaidFor(s, pid, p.job);
    } else {
      CheckoutReason(run, pid, p, g);
    }
  }

  lemma PaidFor(s: State, pid: nat, job: Job)
    requires Inv(s) && pid in s.procs && s.procs[pid] == PayGrant(job)
    ensures job.row.id in s.rows && s.rows[job.row.id].status == Succeeded
    ensures job.row.providerId in s.gateway && s.gateway[job.row.providerId].status == Paid
  {
    assert ProcOk(s, s.procs[pid]) && RowOk(s, s.rows[job.row.id]);
  }

  lemma CheckoutReason(run: seq<Action>, pid: nat, p: Proc, g: Grant)
    requires run != [] && pid in At(run, |run| - 1).procs && At(run, |run| - 1).procs[pid] == p && (p.Free? || p.MockGrant?)
    requires var t := At(run, |run|); pid in t.procs && t.procs[pid] == Settled(p.o, g, true)
    ensures exists r: nat, o :: r <= |run| - 1 && CheckoutGrant(run, r, pid, o, g)
  {
    hide Apply, Inv;
    GrantingHasRead(run, pid, p);
    var r: nat :| ReadsAt(run, r, pid, p.o);
    assert run[..|run|] == run;
    SinceReading(run, r, pid, p.o);
    hide ReadsAt, Explained, CheckoutGrant, Exec;
    ExplainedGrant(run, r, pid, p.o, g);
  }

  lemma GrantingHasRead(run: seq<Action>, pid: nat, p: Proc)
    requires run != [] && pid in At(run, |run| - 1).procs && At(run, |run| - 1).procs[pid] == p && (p.Free? || p.MockGrant?)
    ensures HasRead(run, 0, pid, p.o)
  {
    hide Apply;
    var n := |run| - 1;
    assert run[..n][..0] == [];
    ReadOnTheWay(run[..n], 0, pid);
    HasReadBefore(run, n, 0, pid, p.o);
  }

  /** A free grant was made for a quest that its checkout saw published at no price. */
  lemma FreeGrantsWereFree(run: seq<Action>, user: string, quest: string) returns (r: nat, pid: nat, o: Order)
    requires (user, quest) in Exec(START, run).grants && Exec(START, run).grants[(user, quest)].source == FreeQuest
    ensures ReadsAt(run, r, pid, o) && o.user == user && o.quest == quest && FreeIn(At(run, r), quest)
  {
    var g := Exec(START, run).grants[(user, quest)];
    GrantKeyIn(run, user, quest);
    var k;
    k, pid := EveryGrantHasItsReason(run, user, quest);
    hide ReadsAt, Exec, Chargeless, Saw, MadeAt;
    var r', o' :| 0 <= r' <= k && CheckoutGrant(run, r', pid, o', g);
    r, o := r', o';
  }

  lemma GrantKeyIn(run: seq<Action>, user: string, quest: string)
    requires (user, quest) in Exec(START, run).grants
    ensures var g := Exec(START, run).grants[(user, quest)]; g.user == user && g.quest == quest
  {
    EveryRunKeeps(run);
    GrantKey(Exec(START, run), user, quest);
  }

  // ---- what a checkout answers --------------------------------------------------------------------

  /** An order for a quest the catalogue did not show: a redirect order is refused or sent
      back to an open payment; any other is refused, or granted under the mock reference. */
  ghost predicate UnlistedAnswer(run: seq<Action>, k: nat, pid: nat, o: Order, reply: Reply) {
    || reply.Refused?
    || (o.provider == Yookassa && reply.PayAt? && Saw(run, k, pid, o, Replayed(reply.paymentId, reply.url)))
    || (o.provider != Yookassa && o.coupon == NoCoupon && SeenOn(run, k, pid, o) && reply.Granted?
        && (reply.created ==> reply.grant.source == Payment && reply.grant.sourceRef == Some(MockReference(o))))
  }

  lemma UnlistedIsRefusedOrReplayed(run: seq<Action>, k: nat, pid: nat, o: Order, reply: Reply)
    requires ReadsAt(run, k, pid, o) && o.quest !in At(run, k).listings
    requires var t := Exec(START, run); pid in t.procs && Outcome(t.procs[pid], o, reply)
    ensures UnlistedAnswer(run, k, pid, o, reply)
  {
    SinceReading(run, k, pid, o);
    hide ReadsAt, Saw, Exec, SeenOn;
  }

  /** A published free quest is granted as a free quest, unless the checkout dies. */
  predicate FreeAnswer(reply: Reply) {
    || reply.Refused?
    || (reply.Granted? && (reply.created ==> reply.grant.source == FreeQuest && reply.grant.sourceRef.None?))
  }

  lemma FreeIsGranted(run: seq<Action>, k: nat, pid: nat, o: Order, reply: Reply)
    requires ReadsAt(run, k, pid, o) && FreeIn(At(run, k), o.quest)
    requires var t := Exec(START, run); pid in t.procs && Outcome(t.procs[pid], o, reply)
    ensures FreeAnswer(reply)
  {
    SinceReading(run, k, pid, o);
    hide ReadsAt, Saw, Exec, SeenOn, KeptRow, GrantTerms, Terms, Charging, Chargeless;
  }

  lemma CatalogueDecides(run: seq<Action>, pid: nat, o: Order, reply: Reply)
    requires var t := Exec(START, run); pid in t.procs && Outcome(t.procs[pid], o, reply)
    ensures forall k :: ReadsAt(run, k, pid, o) && o.quest !in At(run, k).listings ==> UnlistedAnswer(run, k, pid, o, reply)
    ensures forall k :: ReadsAt(run, k, pid, o) && FreeIn(At(run, k), o.quest) ==> FreeAnswer(reply)
  {
    hide Exec, UnlistedAnswer, FreeAnswer, FreeIn, Outcome;
    forall k | ReadsAt(run, k, pid, o) && o.quest !in At(run, k).listings ensures UnlistedAnswer(run, k, pid, o, reply) {
      UnlistedIsRefusedOrReplayed(run, k, pid, o, reply);
    }
    forall k | ReadsAt(run, k, pid, o) && FreeIn(At(run, k), o.quest) ensures FreeAnswer(reply) {
      FreeIsGranted(run, k, pid, o, reply);
    }
  }

  /** The grant is one this checkout may make: free if it saw the quest published at no
      price, and otherwise on terms it saw. */
  ghost predicate GrantedFor(run: seq<Action>, from: nat, pid: nat, o: Order, g: Grant) {
    exists k :: from <= k && CheckoutGrant(run, k, pid, o, g)
  }

  /** It redirects to an open payment it found, or to one it kept on terms it saw. */
  ghost predicate SentFor(run: seq<Action>, from: nat, pid: nat, o: Order, id: string, url: string) {
    exists k :: from <= k && ReadsAt(run, k, pid, o) && Explained(run, k, pid, o, Redirected(o, id, url))
  }

  lemma CheckoutExplained(h: seq<Action>, run: seq<Action>, pid: nat, o: Order, reply: Reply)
    requires Past(h, run) && pid in Exec(START, h).procs && Exec(START, h).procs[pid] == Arrived(o)
    requires var t := Exec(START, run); pid in t.procs && Outcome(t.procs[pid], o, reply)
    ensures reply.Granted? && reply.created ==> GrantedFor(run, |h|, pid, o, reply.grant)
    ensures reply.PayAt? ==> SentFor(run, |h|, pid, o, reply.paymentId, reply.url)
    ensures reply.Refused? ==> Refusal(run, |h|, pid)
  {
    hide Exec, ReadsAt, Explained, CheckoutGrant;
    assert run[..|h|] == h;
    if reply.Refused? {
      FailedForAReason(run, |h|, pid);
    } else if reply.PayAt? || reply.created {
      ReadOnTheWay(run, |h|, pid);
      var k :| |h| <= k && ReadsAt(run, k, pid, o);
      SinceReading(run, k, pid, o);
      if reply.Granted? { ExplainedGrant(run, k, pid, o, reply.grant); }
    }
  }

  lemma ExplainedGrant(run: seq<Action>, k: nat, pid: nat, o: Order, g: Grant)
    requires ReadsAt(run, k, pid, o) && Explained(run, k, pid, o, Settled(o, g, true))
    ensures CheckoutGrant(run, k, pid, o, g)
  {
    hide ReadsAt, GrantTerms, Exec;
    var source, ref :| Deserves(run, k, pid, o, source, ref) && g == Grant(o.user, o.quest, source, ref, g.at);
  }

  // ---- why a process fails ------------------------------------------------------------------------

  /** The action ends the process without an answer: it is killed, or its own step finds a
      reason to refuse. */
  predicate RefusedAt(s: State, a: Action, pid: nat) {
    && pid in s.procs
    && ((a.Crash? && a.pid == pid && !Finished(s.procs[pid]))
        || (a.Step? && a.pid == pid
            && match s.procs[pid]
               case Arrived(o) => o.provider == UnknownProvider && (o.user, o.quest) !in s.grants
               case Gate(o, listed) =>
                 || !a.input.featureOn
                 || (o.provider == Yookassa && !a.input.configured)
                 || (o.provider != Yookassa && (o.coupon.BlankCode? || (o.coupon.Code? && listed.None?)))
               case FindOpen(o, listed) => !HasOpen(s.rows, o.user, o.quest) && (listed.None? || o.coupon.BlankCode?)
               case QuoteCharge(o, code, price) => TakesNothing(s, code, o.user, o.quest, a.input.today)
               case MockRedeem(o, code, price) => NoRedemption(s, code, o.user, o.quest, a.input.today)
               case Create(o, _, _) => a.input.token in s.tokens || a.input.providerId in s.gateway || a.input.url.None?
               case Fetch(job) =>
                 job.row.status == Pending && (!a.input.configured || job.row.providerId !in s.gateway)
               case _ => false))
  }

  /** The code cannot be redeemed: it is not recorded for the quest, and takes nothing. */
  predicate NoRedemption(s: State, code: string, user: string, quest: string, today: string) {
    && TakesNothing(s, code, user, quest, today)
    && (FindCoupon(s.coupons, code).Some? ==>
          FindRedemption(s.log, FindCoupon(s.coupons, code).value.id, user, quest).None?)
  }

  /** A stop priced with a coupon belongs to an order with that code. */
  predicate Coherent(p: Proc) {
    && (p.QuoteFull? ==> p.o.coupon == Code(p.code))
    && (p.QuoteCharge? ==> p.o.coupon == Code(p.code))
  }

  /** A process fails in an action exactly for one of these reasons. */
  lemma FailsExactly(s: State, a: Action, pid: nat)
    requires pid in s.procs && !s.procs[pid].Failed? && Coherent(s.procs[pid])
    ensures pid in Apply(s, a).procs && (Apply(s, a).procs[pid] == Failed <==> RefusedAt(s, a, pid))
  {
    hide MaySave, Saved, CheckoutStep, SettleStep;
    if (a.Step? || a.Crash?) ==> a.pid != pid {
      OtherMoves(s, a, pid);
    } else if a.Step? {
      if IsCheckout(s.procs[pid]) {
        CheckoutFails(s, a, pid);
      } else {
        SettleFails(s, a, pid);
      }
    }
  }

  lemma CheckoutFails(s: State, a: Action, pid: nat)
    requires pid in s.procs && a.Step? && a.pid == pid && IsCheckout(s.procs[pid]) && Coherent(s.procs[pid])
    ensures var t := CheckoutStep(s, pid, s.procs[pid], a.input);
            pid in t.procs && (t.procs[pid] == Failed <==> RefusedAt(s, a, pid))
  {
    hide HasOpen, IsOpenFor, CreateGrant, RedeemNow, MintCharge, CheckRedeemable, NextStop;
    var p := s.procs[pid];
    if p.MockRedeem? {
      RedeemFails(s, pid, p.o, p.code, p.price, a.input);
    } else if p.Create? {
      MintChargeShape(s, pid, p.o, p.held, p.charge, a.input);
    } else if !p.Owned? && !p.Free? && !p.MockGrant? && !p.Insert? {
      ReadingFails(s, a, pid);
    }
  }

  lemma RedeemFails(s: State, pid: nat, o: Order, code: string, price: int, input: Input)
    ensures var t := RedeemNow(s, pid, o, code, price, input);
            pid in t.procs && (t.procs[pid] == Failed <==> NoRedemption(s, code, o.user, o.quest, input.today))
  {
    hide CheckRedeemable;
    RedeemNowShape(s, pid, o, code, price, input);
    hide RedeemNow;
  }

  lemma ReadingFails(s: State, a: Action, pid: nat)
    requires pid in s.procs && a.Step? && a.pid == pid && IsCheckout(s.procs[pid]) && Coherent(s.procs[pid])
    requires var p := s.procs[pid]; Reads(p) || p.Settled? || p.Redirected?
    ensures NextStop(s, s.procs[pid], a.input) == Failed <==> RefusedAt(s, a, pid)
  {
    hide HasOpen, IsOpenFor, CheckRedeemable;
  }

  lemma SettleFails(s: State, a: Action, pid: nat)
    requires pid in s.procs && a.Step? && a.pid == pid && !IsCheckout(s.procs[pid]) && !s.procs[pid].Failed?
    ensures var t := SettleStep(s, pid, s.procs[pid], a.input);
            pid in t.procs && (t.procs[pid] == Failed <==> RefusedAt(s, a, pid))
  {
    hide CreateGrant, FlipRow, WithdrawRow, RedeemHeld, FetchRemote;
    match s.procs[pid] {
      case Fetch(job) => AskFails(s, job, a.input);
      case Flip(job) => NeverFails(s, pid, job, a.input);
      case CancelRow(job) => NeverFails(s, pid, job, a.input);
      case HeldRedeem(job) => NeverFails(s, pid, job, a.input);
      case _ =>
    }
  }

  lemma AskFails(s: State, job: Job, input: Input)
    ensures FetchRemote(s, job, input) == Failed <==>
            job.row.status == Pending && (!input.configured || job.row.providerId !in s.gateway)
  {}

  lemma NeverFails(s: State, pid: nat, job: Job, input: Input)
    ensures forall t :: t in {FlipRow(s, pid, job), WithdrawRow(s, pid, job), RedeemHeld(s, pid, job, input)} ==>
              pid in t.procs && t.procs[pid] != Failed
  {
    hide Redeem, SettleSucceeded, MarkCanceled;
    RedeemingStays(s, pid, job, input);
    hide RedeemHeld;
  }

  /** Every stop of a checkout fits its order. */
  lemma {:induction false} AlwaysCoherent(run: seq<Action>, pid: nat)
    requires pid in Exec(START, run).procs
    ensures Coherent(Exec(START, run).procs[pid])
    decreases |run|
  {
    hide Apply;
    assert run[..0] == [] && run[..|run|] == run;
    EmptyStart(pid);
    ReadOnTheWay(run, 0, pid);
    var p := Exec(START, run).procs[pid];
    if !Early(p) {
      var k: nat :| ReadsAt(run, k, pid, LateOrder(p));
      SinceReading(run, k, pid, LateOrder(p));
      hide ReadsAt;
    }
  }

  lemma EmptyStart(pid: nat)
    ensures pid !in Exec(START, []).procs
  {}

  ghost predicate Refusal(run: seq<Action>, from: nat, pid: nat) {
    exists j :: from <= j < |run| && RefusedAt(At(run, j), run[j], pid)
  }

  /** A process that fails was refused, for one of those reasons, at one of the steps of
      the run. */
  lemma {:induction false} FailedForAReason(run: seq<Action>, from: nat, pid: nat)
    requires from <= |run| && pid in At(run, from).procs && !At(run, from).procs[pid].Failed?
    ensures pid in Exec(START, run).procs
    ensures Exec(START, run).procs[pid] == Failed ==> Refusal(run, from, pid)
    decreases |run|
  {
    hide Apply, RefusedAt;
    assert run[..|run|] == run;
    if from < |run| {
      var n := |run| - 1;
      AtPrefix(run, n, from);
      FailedForAReason(run[..n], from, pid);
      if At(run, n).procs[pid] == Failed {
        RefusalBefore(run, n, from, pid);
        FailedStays(At(run, n), run[n], pid);
      } else {
        AlwaysCoherent(run[..n], pid);
        FailsExactly(At(run, n), run[n], pid);
      }
    }
  }

  lemma RefusalBefore(run: seq<Action>, n: nat, from: nat, pid: nat)
    requires n <= |run| && Refusal(run[..n], from, pid)
    ensures Refusal(run, from, pid)
  {
    hide RefusedAt, Exec;
    var j :| from <= j < n && RefusedAt(At(run[..n], j), run[..n][j], pid);
    AtPrefix(run, n, j);
    assert RefusedAt(At(run, j), run[j], pid);
  }

  lemma FailedStays(s: State, a: Action, pid: nat)
    requires pid in s.procs && s.procs[pid] == Failed
    ensures pid in Apply(s, a).procs && Apply(s, a).procs[pid] == Failed
  {
    hide CheckoutStep, MaySave, Saved;
    if (a.Step? || a.Crash?) ==> a.pid != pid {
      hide Apply;
      OtherMoves(s, a, pid);
    }
  }

  // ---- the grant of a settlement --------------------------------------------------------------------

  /** The settlement's step that answers: the player's grant, a new one if he had none. */
  predicate GrantsAt(run: seq<Action>, i: nat, pid: nat, job: Job, g: Grant) {
    && i < |run| && run[i].Step? && run[i].pid == pid
    && pid in At(run, i).procs && At(run, i).procs[pid] == PayGrant(job)
    && var key := (job.row.user, job.row.quest);
       if key in At(run, i).grants then g == At(run, i).grants[key]
       else g == Grant(job.row.user, job.row.quest, Payment, Some(job.row.providerId), run[i].input.now)
  }

  ghost predicate Grants(run: seq<Action>, from: nat, pid: nat, job: Job, g: Grant) {
    exists i :: from <= i && GrantsAt(run, i, pid, job, g)
  }

  lemma GrantsBefore(run: seq<Action>, n: nat, from: nat, pid: nat, job: Job, g: Grant)
    requires n <= |run| && Grants(run[..n], from, pid, job, g)
    ensures Grants(run, from, pid, job, g)
  {
    hide Exec;
    var i :| from <= i && GrantsAt(run[..n], i, pid, job, g);
    AtPrefix(run, n, i);
    assert GrantsAt(run, i, pid, job, g);
  }

  predicate Succeeds(p: Proc) { p.SettleDone? && p.granted.Some? }

  /** A settlement that answers with a grant made it in one of its steps, or found it there. */
  lemma {:induction false} GrantedInAStep(run: seq<Action>, from: nat, pid: nat)
    requires from <= |run| && pid in At(run, from).procs && !Succeeds(At(run, from).procs[pid])
    ensures pid in Exec(START, run).procs
    ensures var p := Exec(START, run).procs[pid]; Succeeds(p) ==> Grants(run, from, pid, p.job, p.granted.value)
    decreases |run|
  {
    hide Apply, Inv;
    assert run[..|run|] == run;
    if from < |run| {
      var n := |run| - 1;
      AtPrefix(run, n, from);
      GrantedInAStep(run[..n], from, pid);
      EveryRunKeeps(run[..n]);
      var p := At(run, n).procs[pid];
      if Succeeds(p) {
        GrantsBefore(run, n, from, pid, p.job, p.granted.value);
        DoneStays(At(run, n), run[n], pid);
      } else {
        GrantingStep(At(run, n), run[n], pid);
        var q := Exec(START, run).procs[pid];
        if Succeeds(q) { assert GrantsAt(run, n, pid, q.job, q.granted.value); }
      }
    }
  }

  lemma SettlementGranted(h: seq<Action>, run: seq<Action>, pid: nat, job: Job, g: Grant)
    requires Past(h, run) && pid in Exec(START, h).procs && Exec(START, h).procs[pid] == Fetch(job)
    requires pid in Exec(START, run).procs && Exec(START, run).procs[pid] == SettleDone(job, Succeeded, Some(g))
    ensures Grants(run, |h|, pid, job, g)
  {
    hide Exec, GrantsAt;
    assert run[..|h|] == h;
    GrantedInAStep(run, |h|, pid);
  }

  lemma DoneStays(s: State, a: Action, pid: nat)
    requires pid in s.procs && Succeeds(s.procs[pid])
    ensures pid in Apply(s, a).procs && Apply(s, a).procs[pid] == s.procs[pid]
  {
    hide CheckoutStep, MaySave, Saved;
    if (a.Step? || a.Crash?) ==> a.pid != pid {
      hide Apply;
      OtherMoves(s, a, pid);
    }
  }

  lemma GrantingStep(s: State, a: Action, pid: nat)
    requires Inv(s) && pid in s.procs && !Succeeds(s.procs[pid])
    ensures pid in Apply(s, a).procs
    ensures var q := Apply(s, a).procs[pid];
            Succeeds(q) ==>
              && a.Step? && a.pid == pid && s.procs[pid] == PayGrant(q.job)
              && var key := (q.job.row.user, q.job.row.quest);
                 q.granted == Some(if key in s.grants then s.grants[key]
                                   else Grant(key.0, key.1, Payment, Some(q.job.row.providerId), a.input.now))
  {
    hide CheckoutStep, SettleStep, MaySave, Saved, Inv;
    if (a.Step? || a.Crash?) ==> a.pid != pid {
      OtherMoves(s, a, pid);
    } else if a.Step? {
      if IsCheckout(s.procs[pid]) {
        CheckoutSettlesNothing(s, pid, a.input);
      } else {
        SettleGrants(s, pid, a.input);
      }
    }
  }

  lemma CheckoutSettlesNothing(s: State, pid: nat, input: Input)
    requires pid in s.procs && IsCheckout(s.procs[pid])
    ensures var t := CheckoutStep(s, pid, s.procs[pid], input); pid in t.procs && !Succeeds(t.procs[pid])
  {
    hide NextStop, RedeemNow, MintCharge, CreateGrant;
    var p := s.procs[pid];
    if p.MockRedeem? {
      RedeemNowShape(s, pid, p.o, p.code, p.price, input);
    } else if p.Create? {
      MintChargeShape(s, pid, p.o, p.held, p.charge, input);
    } else {
      ReadingSettlesNothing(s, p, input);
    }
  }

  lemma ReadingSettlesNothing(s: State, p: Proc, input: Input)
    requires IsCheckout(p)
    ensures !Succeeds(NextStop(s, p, input))
  {
    hide Quote, HasOpen, IsOpenFor;
  }

  lemma SettleGrants(s: State, pid: nat, input: Input)
    requires Inv(s) && pid in s.procs && !IsCheckout(s.procs[pid]) && !Succeeds(s.procs[pid])
    ensures var t := SettleStep(s, pid, s.procs[pid], input);
            && pid in t.procs
            && (Succeeds(t.procs[pid]) ==>
                  && s.procs[pid] == PayGrant(t.procs[pid].job)
                  && var job := t.procs[pid].job;
                     t.procs[pid].granted ==
                     Some(if (job.row.user, job.row.quest) in s.grants then s.grants[(job.row.user, job.row.quest)]
                          else Grant(job.row.user, job.row.quest, Payment, Some(job.row.providerId), input.now)))
  {
    hide Redeem, SettleSucceeded, MarkCanceled;
    if s.procs[pid].PayGrant? && (s.procs[pid].job.row.user, s.procs[pid].job.row.quest) in s.grants {
      GrantKey(s, s.procs[pid].job.row.user, s.procs[pid].job.row.quest);
    }
    hide Inv;
  }
}
