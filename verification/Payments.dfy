/** The payment protocol as a state machine. Any number of checkouts and
    settlements run at once over the payment rows, the grants, the redemption log
    and the remote gateway; every `await` of the code is a step boundary, any
    process may die between two steps, and the gateway, the catalogue and the
    coupon registry change underneath. A run is any sequence of actions. */
module Payments {
  import opened Prelude
  import opened Coupons

  // ---- records ---------------------------------------------------------------------

  datatype RowStatus = Pending | Succeeded | Canceled

  /** A payment row as persisted between checkout and settlement. */
  datatype Row = Row(id: string, providerId: string, user: string, quest: string, coupon: Option<string>,
                     amount: int, price: int, url: string, status: RowStatus)

  datatype RemoteStatus = Open | WaitingForCapture | Paid | Void

  /** A charge at the gateway: what the payer is asked for, the price it was cut
      from and the discount it was cut by. */
  datatype Charge = Charge(amount: int, price: int, discount: Option<Discount>)

  datatype Remote = Remote(status: RemoteStatus, charge: Charge)

  datatype GrantSource = Payment | CouponRedemption | FreeQuest | Admin

  datatype Grant = Grant(user: string, quest: string, source: GrantSource, sourceRef: Option<string>, at: string)

  datatype CouponField = NoCoupon | BlankCode | Code(code: string)

  datatype Provider = Mock | Yookassa | UnknownProvider

  /** A checkout request; `owned` records whether the player held the quest when
      the request arrived. */
  datatype Order = Order(user: string, quest: string, coupon: CouponField, provider: Provider, owned: bool)

  /** A settlement of the row read as `row`, possibly long ago. */
  datatype Job = Job(row: Row)

  /** Where a process stands: the next call it is about to make. */
  datatype Proc =
    | Arrived(o: Order)
    | Owned(o: Order)
    | Listing(o: Order)
    | Free(o: Order)
    | QuoteFull(o: Order, code: string, price: int)
    | Gate(o: Order, listed: Option<int>)
    | MockRedeem(o: Order, code: string, price: int)
    | MockGrant(o: Order, source: GrantSource, ref: Option<string>)
    | FindOpen(o: Order, listed: Option<int>)
    | QuoteCharge(o: Order, code: string, price: int)
    | Create(o: Order, held: Option<string>, charge: Charge)
    | Insert(o: Order, row: Row)
    | Settled(o: Order, grant: Grant, created: bool)
    | Redirected(o: Order, rowId: string, url: string)
    | Fetch(job: Job)
    | Flip(job: Job)
    | CancelRow(job: Job)
    | HeldRedeem(job: Job)
    | PayGrant(job: Job)
    | SettleDone(job: Job, status: RowStatus, granted: Option<Grant>)
    | Failed

  /** Who recorded a redemption. */
  datatype Origin = ByCheckout(o: Order) | BySettlement(rowId: string)

  datatype State = State(
    rows: map<string, Row>,
    grants: map<(string, string), Grant>,
    coupons: seq<Coupon>,
    log: seq<Redemption>,
    origins: seq<Origin>,
    gateway: map<string, Remote>,
    listings: map<string, Option<int>>,
    tokens: set<string>,
    heldRedeems: seq<string>,
    procs: map<nat, Proc>)

  /** What the outside world answers during a step: the clock, the feature
      toggles, the credentials, fresh identifiers and failures. */
  datatype Input = Input(today: string, now: string, featureOn: bool, configured: bool,
                         token: string, providerId: string, url: Option<string>, pick: string, redeemFails: bool)

  datatype Action =
    | Arrive(pid: nat, user: string, quest: string, coupon: CouponField, provider: Provider)
    | Settle(pid: nat, rowId: string)
    | Step(pid: nat, input: Input)
    | Crash(pid: nat)
    | GatewayMoves(providerId: string, remote: RemoteStatus)
    | Publish(quest: string, price: Option<int>)
    | Withdraw(quest: string)
    | SaveCoupon(saved: Coupon)

  // ---- the stores ---------------------------------------------------------------------

  /** The idempotent grant: an existing record for the pair is returned unchanged. */
  function GrantFor(existing: Option<Grant>, user: string, quest: string, source: GrantSource,
                    ref: Option<string>, at: string): (Grant, bool)
  {
    if existing.Some? && existing.value.user == user && existing.value.quest == quest
    then (existing.value, false)
    else (Grant(user, quest, source, ref, at), true)
  }

  function CreateGrant(grants: map<(string, string), Grant>, user: string, quest: string, source: GrantSource,
                       ref: Option<string>, at: string): (map<(string, string), Grant>, Grant, bool)
  {
    var key := (user, quest);
    var (g, created) := GrantFor(if key in grants then Some(grants[key]) else None, user, quest, source, ref, at);
    (if created then grants[key := g] else grants, g, created)
  }

  predicate IsOpenFor(rows: map<string, Row>, id: string, user: string, quest: string) {
    id in rows && rows[id].status == Pending && rows[id].user == user && rows[id].quest == quest
  }

  predicate HasOpen(rows: map<string, Row>, user: string, quest: string) {
    exists id :: id in rows && IsOpenFor(rows, id, user, quest)
  }

  /** Compare-and-set `Pending -> Succeeded`; says whether this call won. */
  function SettleSucceeded(rows: map<string, Row>, id: string): (map<string, Row>, bool) {
    if id in rows && rows[id].status == Pending
    then (rows[id := rows[id].(status := Succeeded)], true)
    else (rows, false)
  }

  function MarkCanceled(rows: map<string, Row>, id: string): map<string, Row> {
    if id in rows && rows[id].status == Pending then rows[id := rows[id].(status := Canceled)] else rows
  }

  /** Price a coupon without consuming it. */
  function Quote(s: State, code: string, user: string, quest: string, price: int, today: string):
    Result<(Discount, int), Reject>
  {
    match FindCoupon(s.coupons, code)
    case None => Err(NotFound)
    case Some(c) =>
      match CheckRedeemable(c, quest, UsedTotal(s.log, c.id), UsedBy(s.log, c.id, user), today)
      case Err(reject) => Err(reject)
      case Ok(_) => Ok((c.discount, DiscountAmount(c.discount, price)))
  }

  // ---- the processes ---------------------------------------------------------------------

  function MockRef(user: string, quest: string): string { "mock-pay-" + user + "-" + quest }

  /** Entering the synchronous path with the caller's price. */
  function EnterMock(o: Order, listed: Option<int>): Proc {
    match o.coupon
    case NoCoupon => MockGrant(o, Payment, Some(MockRef(o.user, o.quest)))
    case BlankCode => Failed
    case Code(code) => if listed.None? then Failed else MockRedeem(o, code, listed.value)
  }

  function AfterListing(o: Order, listed: Option<int>): Proc {
    if listed.Some? && o.coupon.Code? then QuoteFull(o, o.coupon.code, listed.value) else Gate(o, listed)
  }

  /** Past the open-payment check: price the charge. */
  function EnterCharge(o: Order, listed: Option<int>): Proc {
    match listed
    case None => Failed
    case Some(price) =>
      match o.coupon
      case NoCoupon => Create(o, None, Charge(price, price, None))
      case BlankCode => Failed
      case Code(code) => QuoteCharge(o, code, price)
  }

  function Put(s: State, pid: nat, p: Proc): State { s.(procs := s.procs[pid := p]) }

  function PutGrant(s: State, pid: nat, o: Order, source: GrantSource, ref: Option<string>, now: string): State {
    var (grants, g, created) := CreateGrant(s.grants, o.user, o.quest, source, ref, now);
    Put(s.(grants := grants), pid, Settled(o, g, created))
  }

  /** The steps of a checkout that only read: where it stands afterwards. */
  function NextStop(s: State, p: Proc, input: Input): Proc {
    match p
    case Arrived(o) =>
      if (o.user, o.quest) in s.grants then Owned(o)
      else if o.provider == UnknownProvider then Failed
      else Listing(o)
    case Listing(o) =>
      if o.quest !in s.listings then AfterListing(o, None)
      else if s.listings[o.quest].Some? && s.listings[o.quest].value > 0 then AfterListing(o, s.listings[o.quest])
      else Free(o)
    case QuoteFull(o, code, price) =>
      var quote := Quote(s, code, o.user, o.quest, price, input.today);
      if quote.Ok? && quote.value.1 >= price then EnterMock(o, Some(price)) else Gate(o, Some(price))
    case Gate(o, listed) =>
      if !input.featureOn then Failed
      else if o.provider != Yookassa then EnterMock(o, listed)
      else if input.configured then FindOpen(o, listed)
      else Failed
    case FindOpen(o, listed) =>
      if !HasOpen(s.rows, o.user, o.quest) then EnterCharge(o, listed)
      else if IsOpenFor(s.rows, input.pick, o.user, o.quest) then Redirected(o, input.pick, s.rows[input.pick].url)
      else p
    case QuoteCharge(o, code, price) =>
      (match Quote(s, code, o.user, o.quest, price, input.today)
       case Err(_) => Failed
       case Ok((discount, saved)) =>
         if saved >= price then EnterMock(o, Some(price))
         else Create(o, Some(code), Charge(price - saved, price, Some(discount))))
    case _ => p
  }

  /** Redeem at checkout; a coupon that covers the price leaves nothing to pay. */
  function RedeemNow(s: State, pid: nat, o: Order, code: string, price: int, input: Input): State {
    match Redeem(s.coupons, s.log, code, o.user, o.quest, price, input.today, input.now)
    case Err(_) => Put(s, pid, Failed)
    case Ok((entry, log)) =>
      var origins := if log == s.log then s.origins else s.origins + [ByCheckout(o)];
      Put(s.(log := log, origins := origins), pid,
          if entry.amount >= price then MockGrant(o, CouponRedemption, None)
          else MockGrant(o, Payment, Some(MockRef(o.user, o.quest))))
  }

  /** Open the charge at the gateway under a fresh token of ours; a repeated token
      or charge id ends the checkout, so neither is ever used twice. */
  function MintCharge(s: State, pid: nat, o: Order, held: Option<string>, charge: Charge, input: Input): State {
    if input.token in s.tokens || input.providerId in s.gateway then Put(s, pid, Failed)
    else
      var s' := s.(tokens := s.tokens + {input.token}, gateway := s.gateway[input.providerId := Remote(Open, charge)]);
      Put(s', pid, if input.url.None? then Failed
                   else Insert(o, Row(input.token, input.providerId, o.user, o.quest, held,
                                      charge.amount, charge.price, input.url.value, Pending)))
  }

  function InsertRow(s: State, pid: nat, o: Order, row: Row): State {
    Put(s.(rows := s.rows[row.id := row]), pid, Redirected(o, row.id, row.url))
  }

  function CheckoutStep(s: State, pid: nat, p: Proc, input: Input): State {
    match p
    case Owned(o) => PutGrant(s, pid, o, Payment, None, input.now)
    case Free(o) => PutGrant(s, pid, o, FreeQuest, None, input.now)
    case MockRedeem(o, code, price) => RedeemNow(s, pid, o, code, price, input)
    case MockGrant(o, source, ref) => PutGrant(s, pid, o, source, ref, input.now)
    case Create(o, held, charge) => MintCharge(s, pid, o, held, charge, input)
    case Insert(o, row) => InsertRow(s, pid, o, row)
    case _ => Put(s, pid, NextStop(s, p, input))
  }

  /** Ask the gateway, unless the copy already tells the outcome. */
  function FetchRemote(s: State, job: Job, input: Input): Proc {
    if job.row.status == Succeeded then PayGrant(job)
    else if job.row.status == Canceled then SettleDone(job, Canceled, None)
    else if !input.configured || job.row.providerId !in s.gateway then Failed
    else
      match s.gateway[job.row.providerId].status
      case Paid => Flip(job)
      case Void => CancelRow(job)
      case _ => SettleDone(job, Pending, None)
  }

  function FlipRow(s: State, pid: nat, job: Job): State {
    var (rows, won) := SettleSucceeded(s.rows, job.row.id);
    Put(s.(rows := rows), pid, if won && job.row.coupon.Some? then HeldRedeem(job) else PayGrant(job))
  }

  function WithdrawRow(s: State, pid: nat, job: Job): State {
    Put(s.(rows := MarkCanceled(s.rows, job.row.id)), pid, SettleDone(job, Canceled, None))
  }

  /** The winner redeems the held coupon; a refusal or a failure is only logged. */
  function RedeemHeld(s: State, pid: nat, job: Job, input: Input): State {
    var row := job.row;
    var s' := Put(s.(heldRedeems := s.heldRedeems + [row.id]), pid, PayGrant(job));
    if input.redeemFails || row.coupon.None? then s'
    else
      match Redeem(s.coupons, s.log, row.coupon.value, row.user, row.quest, row.price, input.today, input.now)
      case Err(_) => s'
      case Ok((_, log)) =>
        s'.(log := log, origins := if log == s.log then s.origins else s.origins + [BySettlement(row.id)])
  }

  function GrantPaid(s: State, pid: nat, job: Job, now: string): State {
    var row := job.row;
    var (grants, g, _) := CreateGrant(s.grants, row.user, row.quest, Payment, Some(row.providerId), now);
    Put(s.(grants := grants), pid, SettleDone(job, Succeeded, Some(g)))
  }

  function SettleStep(s: State, pid: nat, p: Proc, input: Input): State {
    match p
    case Fetch(job) => Put(s, pid, FetchRemote(s, job, input))
    case Flip(job) => FlipRow(s, pid, job)
    case CancelRow(job) => WithdrawRow(s, pid, job)
    case HeldRedeem(job) => RedeemHeld(s, pid, job, input)
    case PayGrant(job) => GrantPaid(s, pid, job, input.now)
    case _ => s
  }

  predicate IsCheckout(p: Proc) {
    p.Arrived? || p.Owned? || p.Listing? || p.Free? || p.QuoteFull? || p.Gate? || p.MockRedeem? || p.MockGrant?
    || p.FindOpen? || p.QuoteCharge? || p.Create? || p.Insert? || p.Settled? || p.Redirected?
  }

  predicate Finished(p: Proc) { p.Settled? || p.Redirected? || p.SettleDone? || p.Failed? }

  /** An admin save keeps the caps and the identity of a coupon it replaces. */
  predicate MaySave(coupons: seq<Coupon>, c: Coupon) {
    && ValidDiscount(c.discount)
    && (forall d :: d in coupons && d.id != c.id ==> d.code != c.code)
    && (forall d :: d in coupons && d.id == c.id ==>
          d.maxRedemptions == c.maxRedemptions && d.perUserLimit == c.perUserLimit)
  }

  function Saved(coupons: seq<Coupon>, c: Coupon): seq<Coupon> {
    if exists i :: 0 <= i < |coupons| && coupons[i].id == c.id
    then seq(|coupons|, i requires 0 <= i < |coupons| => if coupons[i].id == c.id then c else coupons[i])
    else coupons + [c]
  }

  /** One atomic step; an action that is not possible changes nothing. */
  function Apply(s: State, a: Action): State {
    match a
    case Arrive(pid, user, quest, coupon, provider) =>
      if pid in s.procs then s
      else Put(s, pid, Arrived(Order(user, quest, coupon, provider, (user, quest) in s.grants)))
    case Settle(pid, rowId) =>
      if pid in s.procs || rowId !in s.rows then s
      else Put(s, pid, Fetch(Job(s.rows[rowId])))
    case Step(pid, input) =>
      if pid !in s.procs then s
      else if IsCheckout(s.procs[pid]) then CheckoutStep(s, pid, s.procs[pid], input)
      else SettleStep(s, pid, s.procs[pid], input)
    case Crash(pid) =>
      if pid in s.procs && !Finished(s.procs[pid]) then Put(s, pid, Failed) else s
    case GatewayMoves(id, remote) =>
      if id in s.gateway && s.gateway[id].status !in {Paid, Void}
      then s.(gateway := s.gateway[id := s.gateway[id].(status := remote)])
      else s
    case Publish(quest, price) => s.(listings := s.listings[quest := price])
    case Withdraw(quest) => s.(listings := s.listings - {quest})
    case SaveCoupon(c) => if MaySave(s.coupons, c) then s.(coupons := Saved(s.coupons, c)) else s
  }

  function Exec(s: State, run: seq<Action>): State
    decreases |run|
  {
    if run == [] then s else Apply(Exec(s, run[..|run| - 1]), run[|run| - 1])
  }

  const START := State(map[], map[], [], [], [], map[], map[], {}, [], map[])
}
