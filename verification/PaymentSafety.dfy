/** What the payment protocol keeps over every run. */
module PaymentSafety {
  import opened Prelude
  import opened Coupons
  import opened Payments

  // ---- the invariant ------------------------------------------------------------------

  predicate ChargeOk(c: Charge) {
    && 0 < c.amount <= c.price
    && c.amount == c.price - (if c.discount.Some? then DiscountAmount(c.discount.value, c.price) else 0)
  }

  ghost predicate ChargesOk(s: State) {
    forall id :: id in s.gateway ==> ChargeOk(s.gateway[id].charge)
  }

  predicate RowOk(s: State, row: Row) {
    && row.id in s.tokens
    && row.providerId in s.gateway
    && s.gateway[row.providerId].charge.amount == row.amount
    && s.gateway[row.providerId].charge.price == row.price
    && (row.status == Succeeded ==> s.gateway[row.providerId].status == Paid)
    && (row.status == Canceled ==> s.gateway[row.providerId].status == Void)
  }

  ghost predicate RowsOk(s: State) {
    forall id :: id in s.rows ==> s.rows[id].id == id && RowOk(s, s.rows[id])
  }

  /** What stands behind a grant: a recorded redemption, the mock's reference, or
      a charge the gateway holds the money of. */
  ghost predicate Backed(s: State, user: string, quest: string, source: GrantSource, ref: Option<string>) {
    match source
    case FreeQuest => true
    case CouponRedemption => exists r :: r in s.log && r.user == user && r.quest == quest
    case Payment =>
      ref.Some? && (ref.value == MockRef(user, quest) || (ref.value in s.gateway && s.gateway[ref.value].status == Paid))
    case Admin => false
  }

  ghost predicate GrantsOk(s: State) {
    forall k :: k in s.grants ==>
      var g := s.grants[k];
      g.user == k.0 && g.quest == k.1 && Backed(s, g.user, g.quest, g.source, g.sourceRef)
  }

  ghost predicate CouponsOk(s: State) {
    && DistinctCoupons(s.coupons)
    && (forall c :: c in s.coupons ==> ValidDiscount(c.discount))
    && (forall r :: r in s.log ==> exists c :: c in s.coupons && c.id == r.couponId)
    && UniqueTriples(s.log)
    && WithinCaps(s.coupons, s.log)
  }

  predicate PaidRow(s: State, id: string) {
    id in s.rows && s.rows[id].status == Succeeded && s.rows[id].coupon.Some?
  }

  predicate OriginOk(s: State, o: Origin, r: Redemption) {
    match o
    case ByCheckout(o) => !o.owned && o.user == r.user && o.quest == r.quest
    case BySettlement(id) => id in s.heldRedeems && id in s.rows && s.rows[id].user == r.user && s.rows[id].quest == r.quest
  }

  /** Every row redeems its held coupon at most once, and only once it is paid. */
  ghost predicate HeldOk(s: State) {
    && (forall id :: id in s.heldRedeems ==> PaidRow(s, id))
    && (forall i, j :: 0 <= i < j < |s.heldRedeems| ==> s.heldRedeems[i] != s.heldRedeems[j])
    && |s.origins| == |s.log|
    && (forall i :: 0 <= i < |s.log| ==> OriginOk(s, s.origins[i], s.log[i]))
    && (forall i, j :: 0 <= i < j < |s.origins| && s.origins[i].BySettlement? ==> s.origins[i] != s.origins[j])
  }

  predicate SameRow(a: Row, b: Row) { a.(status := b.status) == b }

  /** The copy a settlement works on is a past value of its row. */
  predicate JobOk(s: State, job: Job) {
    var row := job.row;
    && row.id in s.rows && SameRow(row, s.rows[row.id]) && row.providerId in s.gateway
    && (row.status != Pending ==> s.rows[row.id].status == row.status)
  }

  ghost predicate ProcOk(s: State, p: Proc) {
    match p
    case Arrived(o) => o.owned ==> (o.user, o.quest) in s.grants
    case Owned(o) => (o.user, o.quest) in s.grants
    case QuoteFull(o, _, price) => !o.owned && price > 0
    case Gate(o, listed) => !o.owned && (listed.Some? ==> listed.value > 0)
    case FindOpen(o, listed) => !o.owned && (listed.Some? ==> listed.value > 0)
    case MockRedeem(o, _, price) => !o.owned && price > 0
    case QuoteCharge(o, _, price) => !o.owned && price > 0
    case Create(o, _, charge) => !o.owned && ChargeOk(charge)
    case Insert(o, row) =>
      !o.owned && row.user == o.user && row.quest == o.quest && row.status == Pending && RowOk(s, row) && row.id !in s.rows
    case Settled(o, g, created) =>
      (o.user, o.quest) in s.grants && s.grants[(o.user, o.quest)] == g && (o.owned ==> !created)
    case Redirected(o, id, _) => !o.owned && id in s.rows && s.rows[id].user == o.user && s.rows[id].quest == o.quest
    case Listing(o) => !o.owned
    case Free(o) => !o.owned
    case MockGrant(o, source, ref) => !o.owned && Backed(s, o.user, o.quest, source, ref)
    case Fetch(job) => JobOk(s, job)
    case Flip(job) => JobOk(s, job) && s.gateway[job.row.providerId].status == Paid
    case CancelRow(job) => JobOk(s, job) && s.gateway[job.row.providerId].status == Void
    case HeldRedeem(job) => JobOk(s, job) && PaidRow(s, job.row.id) && job.row.id !in s.heldRedeems
    case PayGrant(job) => JobOk(s, job) && s.rows[job.row.id].status == Succeeded
    case SettleDone(job, status, granted) =>
      && JobOk(s, job)
      && (status == Pending ==> granted.None?)
      && (status == Canceled ==> granted.None? && s.rows[job.row.id].status == Canceled)
      && (status == Succeeded ==>
            && s.rows[job.row.id].status == Succeeded
            && (job.row.user, job.row.quest) in s.grants
            && granted == Some(s.grants[(job.row.user, job.row.quest)]))
    case Failed => true
  }

  ghost predicate ProcsOk(s: State) {
    forall pid :: pid in s.procs ==> ProcOk(s, s.procs[pid])
  }

  /** Between winning the flip and redeeming, a process holds its row alone; so
      does a checkout between minting its token and inserting its row. */
  ghost predicate Exclusive(s: State) {
    forall p, q :: p in s.procs && q in s.procs && p != q ==>
      && (s.procs[p].HeldRedeem? && s.procs[q].HeldRedeem? ==> s.procs[p].job.row.id != s.procs[q].job.row.id)
      && (s.procs[p].Insert? && s.procs[q].Insert? ==> s.procs[p].row.id != s.procs[q].row.id)
  }

  ghost predicate Inv(s: State) {
    ChargesOk(s) && RowsOk(s) && GrantsOk(s) && CouponsOk(s) && HeldOk(s) && ProcsOk(s) && Exclusive(s)
  }

  // ---- what no action undoes -----------------------------------------------------------

  predicate OneWay(a: RowStatus, b: RowStatus) { a == b || a == Pending }

  /** Grants and rows stay, rows and the gateway only move forward, the logs only
      grow at the end. */
  ghost predicate Grows(s: State, t: State) {
    && (forall k :: k in s.grants ==> k in t.grants && t.grants[k] == s.grants[k])
    && (forall id :: id in s.rows ==>
          id in t.rows && SameRow(s.rows[id], t.rows[id]) && OneWay(s.rows[id].status, t.rows[id].status))
    && (forall id :: id in s.gateway ==>
          && id in t.gateway && t.gateway[id].charge == s.gateway[id].charge
          && (s.gateway[id].status in {Paid, Void} ==> t.gateway[id].status == s.gateway[id].status))
    && s.tokens <= t.tokens
    && s.log <= t.log && s.origins <= t.origins && s.heldRedeems <= t.heldRedeems
  }

  lemma GrowsTransitive(s: State, t: State, u: State)
    requires Grows(s, t) && Grows(t, u)
    ensures Grows(s, u)
  {}

  // ---- one step at a time ------------------------------------------------------------------

  lemma PutGrows(s: State, pid: nat, p: Proc)
    ensures Grows(s, Put(s, pid, p)) && Grows(s, s)
  {}

  /** What holds of a process goes on holding while others move. */
  lemma ProcStable(s: State, t: State, p: Proc)
    requires ProcOk(s, p) && Grows(s, t)
    requires p.HeldRedeem? ==> p.job.row.id !in t.heldRedeems
    requires p.Insert? ==> p.row.id !in t.rows
    ensures ProcOk(t, p)
  {}

  /** No other process stands where `p` stands alone. */
  ghost predicate Alone(s: State, t: State, pid: nat, p: Proc) {
    forall q :: q in s.procs && q != pid ==>
      && (s.procs[q].HeldRedeem? ==>
            s.procs[q].job.row.id !in t.heldRedeems && (p.HeldRedeem? ==> p.job.row.id != s.procs[q].job.row.id))
      && (s.procs[q].Insert? ==>
            s.procs[q].row.id !in t.rows && (p.Insert? ==> p.row.id != s.procs[q].row.id))
  }

  /** The five store-wide parts of the invariant. */
  ghost predicate StoresOk(s: State) {
    ChargesOk(s) && RowsOk(s) && GrantsOk(s) && CouponsOk(s) && HeldOk(s)
  }

  lemma Assemble(s: State, t: State, pid: nat, p: Proc)
    requires Inv(s) && Grows(s, t) && StoresOk(t)
    requires t.procs == s.procs[pid := p] && ProcOk(t, p) && Alone(s, t, pid, p)
    ensures Inv(t)
  {
    hide Grows, ProcOk, ChargesOk, RowsOk, GrantsOk, CouponsOk, HeldOk;
    forall q | q in t.procs ensures ProcOk(t, t.procs[q]) {
      if q != pid { ProcStable(s, t, s.procs[q]); }
    }
  }

  /** The other stores look neither at the process table nor at the grants. */
  lemma SameStores(s: State, t: State)
    requires StoresOk(s) && t == s.(procs := t.procs, grants := t.grants) && GrantsOk(t)
    ensures StoresOk(t)
  {
    hide UniqueTriples, WithinCaps, DistinctCoupons;
    assert forall i :: 0 <= i < |t.log| ==> OriginOk(s, s.origins[i], s.log[i]);
  }

  lemma StillAlone(s: State, t: State, pid: nat, p: Proc)
    requires ProcsOk(s) && t.heldRedeems == s.heldRedeems && t.rows.Keys == s.rows.Keys && !p.HeldRedeem? && !p.Insert?
    ensures Alone(s, t, pid, p)
  {
    forall q | q in s.procs ensures ProcOk(s, s.procs[q]) {}
  }

  /** A step that only moves its process. */
  lemma MoveKeeps(s: State, pid: nat, p: Proc)
    requires Inv(s) && ProcOk(s, p) && !p.HeldRedeem? && !p.Insert?
    ensures Inv(Put(s, pid, p)) && Grows(s, Put(s, pid, p))
  {
    hide ChargesOk, RowsOk, CouponsOk, HeldOk, ProcOk, Grows, Exclusive, Alone;
    var t := Put(s, pid, p);
    PutGrows(s, pid, p);
    SameStores(s, t);
    ProcStable(s, t, p);
    StillAlone(s, t, pid, p);
    Assemble(s, t, pid, p);
  }

  /** Minting or returning a grant, whoever does it. */
  lemma GrantKeeps(s: State, t: State, pid: nat, p: Proc, user: string, quest: string, source: GrantSource,
                   ref: Option<string>, now: string)
    requires Inv(s) && t == Put(s.(grants := CreateGrant(s.grants, user, quest, source, ref, now).0), pid, p)
    requires !p.HeldRedeem? && !p.Insert? && ProcOk(t, p)
    requires (user, quest) in s.grants || Backed(s, user, quest, source, ref)
    ensures Inv(t) && Grows(s, t)
  {
    hide ChargesOk, RowsOk, CouponsOk, HeldOk, ProcOk, Exclusive, Alone, Backed, Grows, GrantsOk;
    GrantMinted(s, t, user, quest, source, ref, now);
    SameStores(s, t);
    StillAlone(s, t, pid, p);
    Assemble(s, t, pid, p);
  }

  lemma GrantMinted(s: State, t: State, user: string, quest: string, source: GrantSource, ref: Option<string>, now: string)
    requires GrantsOk(s) && t == s.(procs := t.procs, grants := CreateGrant(s.grants, user, quest, source, ref, now).0)
    requires (user, quest) in s.grants || Backed(s, user, quest, source, ref)
    ensures GrantsOk(t) && Grows(s, t)
  {
    forall k | k in t.grants
      ensures var g := t.grants[k]; g.user == k.0 && g.quest == k.1 && Backed(t, g.user, g.quest, g.source, g.sourceRef)
    {
      var g := t.grants[k];
      if k in s.grants && s.grants[k] == g { assert Backed(s, g.user, g.quest, g.source, g.sourceRef); }
    }
  }

  lemma PutGrantKeeps(s: State, pid: nat, o: Order, source: GrantSource, ref: Option<string>, now: string)
    requires Inv(s) && ((o.user, o.quest) in s.grants || (!o.owned && Backed(s, o.user, o.quest, source, ref)))
    ensures Inv(PutGrant(s, pid, o, source, ref, now)) && Grows(s, PutGrant(s, pid, o, source, ref, now))
  {
    var t := PutGrant(s, pid, o, source, ref, now);
    assert (o.user, o.quest) in s.grants ==> !t.procs[pid].created by { assert GrantsOk(s); }
    hide Inv, Backed;
    var (grants, g, created) := CreateGrant(s.grants, o.user, o.quest, source, ref, now);
    GrantKeeps(s, t, pid, Settled(o, g, created), o.user, o.quest, source, ref, now);
  }

  lemma GrantPaidKeeps(s: State, pid: nat, job: Job, now: string)
    requires Inv(s) && ProcOk(s, PayGrant(job))
    ensures Inv(GrantPaid(s, pid, job, now)) && Grows(s, GrantPaid(s, pid, job, now))
  {
    var t := GrantPaid(s, pid, job, now);
    var row := job.row;
    PaidBacks(s, job);
    hide Inv, Backed, OneWay, RowOk, Grows;
    var (grants, g, created) := CreateGrant(s.grants, row.user, row.quest, Payment, Some(row.providerId), now);
    GrantKeeps(s, t, pid, SettleDone(job, Succeeded, Some(g)), row.user, row.quest, Payment, Some(row.providerId), now);
  }

  lemma PaidBacks(s: State, job: Job)
    requires RowsOk(s) && ProcOk(s, PayGrant(job))
    ensures Backed(s, job.row.user, job.row.quest, Payment, Some(job.row.providerId))
  {
    assert RowOk(s, s.rows[job.row.id]);
  }

  // Steps that move one row: `t` differs from `s` in that row and the process table.

  lemma SameRegistries(s: State, t: State)
    requires CouponsOk(s) && ChargesOk(s) && GrantsOk(s)
    requires t.coupons == s.coupons && t.log == s.log && t.gateway == s.gateway && t.grants == s.grants
    ensures CouponsOk(t) && ChargesOk(t) && GrantsOk(t)
  {
    hide UniqueTriples, WithinCaps, DistinctCoupons;
  }

  ghost predicate RowMoved(s: State, t: State, id: string) {
    && t == s.(procs := t.procs, rows := t.rows)
    && id in t.rows && t.rows == s.rows[id := t.rows[id]] && t.rows[id].id == id && RowOk(t, t.rows[id])
    && (id in s.rows ==> SameRow(s.rows[id], t.rows[id]) && OneWay(s.rows[id].status, t.rows[id].status))
  }

  lemma RowMovedKeeps(s: State, t: State, pid: nat, p: Proc, id: string)
    requires Inv(s) && RowMoved(s, t, id) && t.procs == s.procs[pid := p] && ProcOk(t, p) && Alone(s, t, pid, p)
    ensures Inv(t) && Grows(s, t)
  {
    hide GrantsOk, CouponsOk, ChargesOk, ProcOk, Alone, ProcsOk, Exclusive;
    SameRegistries(s, t);
    RowMovedStores(s, t, id);
    hide RowMoved, RowsOk, HeldOk, Grows;
    Assemble(s, t, pid, p);
  }

  lemma RowMovedStores(s: State, t: State, id: string)
    requires RowsOk(s) && HeldOk(s) && RowMoved(s, t, id)
    ensures RowsOk(t) && HeldOk(t) && Grows(s, t)
  {
    forall i | 0 <= i < |t.log| ensures OriginOk(t, t.origins[i], t.log[i]) {
      assert OriginOk(s, s.origins[i], s.log[i]);
    }
  }

  /** Winning the flip: the row is paid, and its coupon is still to redeem. */
  lemma FlipKeeps(s: State, pid: nat, job: Job)
    requires Inv(s) && ProcOk(s, Flip(job))
    ensures Inv(FlipRow(s, pid, job)) && Grows(s, FlipRow(s, pid, job))
  {
    var t := FlipRow(s, pid, job);
    assert RowMoved(s, t, job.row.id) && ProcOk(t, t.procs[pid]) by { FlipMoves(s, pid, job); }
    assert Alone(s, t, pid, t.procs[pid]) by { FlipAlone(s, pid, job); }
    hide RowMoved, Inv, Grows, ProcOk;
    RowMovedKeeps(s, t, pid, t.procs[pid], job.row.id);
  }

  lemma FlipMoves(s: State, pid: nat, job: Job)
    requires RowsOk(s) && HeldOk(s) && ProcOk(s, Flip(job))
    ensures var t := FlipRow(s, pid, job); RowMoved(s, t, job.row.id) && ProcOk(t, t.procs[pid])
  {
    var t := FlipRow(s, pid, job);
    var id := job.row.id;
    assert t.rows == s.rows[id := t.rows[id]];
  }

  lemma FlipAlone(s: State, pid: nat, job: Job)
    requires ProcsOk(s) && ProcOk(s, Flip(job))
    ensures var t := FlipRow(s, pid, job); Alone(s, t, pid, t.procs[pid])
  {
    hide JobOk, RowOk;
    forall q | q in s.procs ensures ProcOk(s, s.procs[q]) {}
  }

  lemma CancelKeeps(s: State, pid: nat, job: Job)
    requires Inv(s) && ProcOk(s, CancelRow(job))
    ensures Inv(WithdrawRow(s, pid, job)) && Grows(s, WithdrawRow(s, pid, job))
  {
    var t := WithdrawRow(s, pid, job);
    assert RowMoved(s, t, job.row.id) && ProcOk(t, t.procs[pid]) by { CancelMoves(s, pid, job); }
    assert Alone(s, t, pid, t.procs[pid]) by { StillAlone(s, t, pid, t.procs[pid]); }
    hide RowMoved, Inv, Grows, ProcOk;
    RowMovedKeeps(s, t, pid, t.procs[pid], job.row.id);
  }

  lemma CancelMoves(s: State, pid: nat, job: Job)
    requires RowsOk(s) && ProcOk(s, CancelRow(job))
    ensures var t := WithdrawRow(s, pid, job); RowMoved(s, t, job.row.id) && ProcOk(t, t.procs[pid])
    ensures WithdrawRow(s, pid, job).rows.Keys == s.rows.Keys
  {
    var t := WithdrawRow(s, pid, job);
    var id := job.row.id;
    assert t.rows == s.rows[id := t.rows[id]];
  }

  /** The checkout that minted a token inserts its row under it. */
  lemma InsertKeeps(s: State, pid: nat, o: Order, row: Row)
    requires Inv(s) && pid in s.procs && s.procs[pid] == Insert(o, row)
    ensures Inv(InsertRow(s, pid, o, row)) && Grows(s, InsertRow(s, pid, o, row))
  {
    hide CouponsOk, ChargesOk, GrantsOk, HeldOk, RowsOk, Grows;
    var t := InsertRow(s, pid, o, row);
    assert ProcOk(s, s.procs[pid]);
    assert RowMoved(s, t, row.id);
    assert Alone(s, t, pid, t.procs[pid]) by {
      forall q | q in s.procs ensures ProcOk(s, s.procs[q]) {}
    }
    hide RowMoved, Exclusive;
    RowMovedKeeps(s, t, pid, t.procs[pid], row.id);
  }

  /** A fresh charge under a fresh token disturbs nobody. */
  lemma MintKeeps(s: State, pid: nat, o: Order, held: Option<string>, charge: Charge, input: Input)
    requires Inv(s) && ProcOk(s, Create(o, held, charge))
    ensures Inv(MintCharge(s, pid, o, held, charge, input)) && Grows(s, MintCharge(s, pid, o, held, charge, input))
  {
    hide CouponsOk, RowsOk, HeldOk, Grows, GrantsOk, ChargesOk, ProcsOk, Exclusive, Alone;
    var t := MintCharge(s, pid, o, held, charge, input);
    if input.token !in s.tokens && input.providerId !in s.gateway {
      assert StoresOk(t) && Grows(s, t) by { MintStores(s, pid, o, held, charge, input); }
      MintAlone(s, pid, o, held, charge, input);
      assert ProcOk(t, t.procs[pid]) && t.procs == s.procs[pid := t.procs[pid]] by {
        MintMoves(s, pid, o, held, charge, input);
      }
      hide ProcOk;
      Assemble(s, t, pid, t.procs[pid]);
    } else {
      MoveKeeps(s, pid, Failed);
    }
  }

  lemma MintMoves(s: State, pid: nat, o: Order, held: Option<string>, charge: Charge, input: Input)
    requires RowsOk(s) && ProcOk(s, Create(o, held, charge)) && input.token !in s.tokens && input.providerId !in s.gateway
    ensures var t := MintCharge(s, pid, o, held, charge, input);
            ProcOk(t, t.procs[pid]) && t.procs == s.procs[pid := t.procs[pid]]
  {}

  lemma MintAlone(s: State, pid: nat, o: Order, held: Option<string>, charge: Charge, input: Input)
    requires ProcsOk(s) && input.token !in s.tokens && input.providerId !in s.gateway
    ensures var t := MintCharge(s, pid, o, held, charge, input); Alone(s, t, pid, t.procs[pid])
  {
    var t := MintCharge(s, pid, o, held, charge, input);
    forall q | q in s.procs && q != pid
      ensures s.procs[q].HeldRedeem? ==> s.procs[q].job.row.id !in t.heldRedeems
      ensures s.procs[q].Insert? ==>
                s.procs[q].row.id !in t.rows && (t.procs[pid].Insert? ==> t.procs[pid].row.id != s.procs[q].row.id)
    {
      assert ProcOk(s, s.procs[q]);
    }
  }

  lemma MintStores(s: State, pid: nat, o: Order, held: Option<string>, charge: Charge, input: Input)
    requires StoresOk(s) && ChargeOk(charge)
    ensures var t := MintCharge(s, pid, o, held, charge, input); StoresOk(t) && Grows(s, t)
  {
    hide CouponsOk, RowsOk, ChargesOk, GrantsOk, HeldOk, Grows;
    var t := MintCharge(s, pid, o, held, charge, input);
    SameCoupons(s, t);
    MintRows(s, pid, o, held, charge, input);
    MintGrows(s, pid, o, held, charge, input);
    assert GrantsOk(t) by { SameGrants(s, t); }
    assert HeldOk(t) by { SameHeld(s, t); }
  }

  lemma MintRows(s: State, pid: nat, o: Order, held: Option<string>, charge: Charge, input: Input)
    requires RowsOk(s) && ChargesOk(s) && ChargeOk(charge)
    ensures var t := MintCharge(s, pid, o, held, charge, input); RowsOk(t) && ChargesOk(t)
  {}

  lemma MintGrows(s: State, pid: nat, o: Order, held: Option<string>, charge: Charge, input: Input)
    ensures Grows(s, MintCharge(s, pid, o, held, charge, input))
  {}

  /** The backing of a grant is never withdrawn. */
  lemma SameGrants(s: State, t: State)
    requires GrantsOk(s) && t.grants == s.grants && Grows(s, t)
    ensures GrantsOk(t)
  {
    forall k | k in t.grants
      ensures Backed(t, t.grants[k].user, t.grants[k].quest, t.grants[k].source, t.grants[k].sourceRef)
    {
      BackedStable(s, t, s.grants[k].user, s.grants[k].quest, s.grants[k].source, s.grants[k].sourceRef);
    }
  }

  lemma BackedStable(s: State, t: State, user: string, quest: string, source: GrantSource, ref: Option<string>)
    requires Backed(s, user, quest, source, ref) && Grows(s, t)
    ensures Backed(t, user, quest, source, ref)
  {
    if source == CouponRedemption {
      var r :| r in s.log && r.user == user && r.quest == quest;
      assert r in t.log;
    }
  }

  lemma SameHeld(s: State, t: State)
    requires HeldOk(s) && t.heldRedeems == s.heldRedeems && t.rows == s.rows && t.log == s.log && t.origins == s.origins
    ensures HeldOk(t)
  {
    forall i | 0 <= i < |t.log| ensures OriginOk(t, t.origins[i], t.log[i]) {
      assert OriginOk(s, s.origins[i], s.log[i]);
    }
  }

  lemma SameCoupons(s: State, t: State)
    requires CouponsOk(s) && t.coupons == s.coupons && t.log == s.log
    ensures CouponsOk(t)
  {
    hide UniqueTriples, WithinCaps, DistinctCoupons;
  }

  // Steps that redeem: the log grows by at most one entry, signed by its origin.

  lemma RedeemNowKeeps(s: State, pid: nat, o: Order, code: string, price: int, input: Input)
    requires Inv(s) && !o.owned
    ensures Inv(RedeemNow(s, pid, o, code, price, input)) && Grows(s, RedeemNow(s, pid, o, code, price, input))
  {
    hide CouponsOk, RowsOk, HeldOk, Grows, GrantsOk, ChargesOk, ProcsOk, Exclusive, Alone, ProcOk, RedeemNow;
    var t := RedeemNow(s, pid, o, code, price, input);
    RedeemNowStores(s, pid, o, code, price, input);
    RedeemNowMoves(s, pid, o, code, price, input);
    var p := t.procs[pid];
    StillAlone(s, t, pid, p);
    Assemble(s, t, pid, p);
  }

  lemma RedeemNowMoves(s: State, pid: nat, o: Order, code: string, price: int, input: Input)
    requires !o.owned && CouponsOk(s)
    ensures var t := RedeemNow(s, pid, o, code, price, input);
            && pid in t.procs && t.procs == s.procs[pid := t.procs[pid]]
            && (t.procs[pid].MockGrant? || t.procs[pid].Failed?) && ProcOk(t, t.procs[pid])
            && t.rows == s.rows && t.heldRedeems == s.heldRedeems
  {
    hide Redeem, UniqueTriples, WithinCaps, DistinctCoupons;
    RedeemKeeps(s.coupons, s.log, code, o.user, o.quest, price, input.today, input.now);
  }

  lemma RedeemNowStores(s: State, pid: nat, o: Order, code: string, price: int, input: Input)
    requires StoresOk(s) && !o.owned
    ensures var t := RedeemNow(s, pid, o, code, price, input); StoresOk(t) && Grows(s, t)
  {
    hide Redeem, ChargesOk, RowsOk, GrantsOk, CouponsOk, HeldOk;
    var t := RedeemNow(s, pid, o, code, price, input);
    Redeemed(s, t, code, o.user, o.quest, price, input.today, input.now, ByCheckout(o));
  }

  /** The stores after a redemption: the log and its origins in step. */
  lemma Redeemed(s: State, t: State, code: string, user: string, quest: string, price: int, today: string, now: string,
                 origin: Origin)
    requires StoresOk(s)
    requires t == s.(procs := t.procs, log := t.log, origins := t.origins)
    requires var r := Redeem(s.coupons, s.log, code, user, quest, price, today, now);
             && t.log == (if r.Ok? then r.value.1 else s.log)
             && t.origins == (if t.log == s.log then s.origins else s.origins + [origin])
    requires forall entry: Redemption :: entry.user == user && entry.quest == quest ==> OriginOk(s, origin, entry)
    requires origin.BySettlement? ==> origin !in s.origins
    ensures StoresOk(t) && Grows(s, t)
  {
    hide Redeem, UniqueTriples, WithinCaps, DistinctCoupons, ValidDiscount;
    RedeemKeeps(s.coupons, s.log, code, user, quest, price, today, now);
    RedeemedKnown(s.coupons, s.log, code, user, quest, price, today, now);
    if t.log == s.log {
      assert forall i :: 0 <= i < |t.log| ==> OriginOk(s, s.origins[i], s.log[i]);
    } else {
      LogExtended(s, t, origin);
    }
  }

  lemma RedeemedKnown(coupons: seq<Coupon>, log: seq<Redemption>, code: string, user: string, quest: string, price: int,
                      today: string, now: string)
    requires forall r :: r in log ==> exists c :: c in coupons && c.id == r.couponId
    ensures var r := Redeem(coupons, log, code, user, quest, price, today, now);
            r.Ok? ==> forall e :: e in r.value.1 ==> exists c :: c in coupons && c.id == e.couponId
  {}

  lemma LogExtended(s: State, t: State, origin: Origin)
    requires ChargesOk(s) && RowsOk(s) && GrantsOk(s) && HeldOk(s) && |t.log| == |s.log| + 1 && t.log[..|s.log|] == s.log
    requires t == s.(procs := t.procs, log := t.log, origins := s.origins + [origin])
    requires OriginOk(s, origin, t.log[|s.log|])
    requires origin.BySettlement? ==> origin !in s.origins
    ensures ChargesOk(t) && RowsOk(t) && GrantsOk(t) && HeldOk(t) && Grows(s, t)
  {
    forall i | 0 <= i < |t.log| ensures OriginOk(t, t.origins[i], t.log[i]) {
      if i < |s.log| { assert OriginOk(s, s.origins[i], s.log[i]); }
    }
    assert Grows(s, t);
    SameGrants(s, t);
  }

  lemma RedeemHeldKeeps(s: State, pid: nat, job: Job, input: Input)
    requires Inv(s) && pid in s.procs && s.procs[pid] == HeldRedeem(job)
    ensures Inv(RedeemHeld(s, pid, job, input)) && Grows(s, RedeemHeld(s, pid, job, input))
  {
    hide CouponsOk, RowsOk, HeldOk, Grows, GrantsOk, ChargesOk, ProcsOk, Exclusive, Alone, RedeemHeld, ProcOk;
    var t := RedeemHeld(s, pid, job, input);
    assert ProcOk(s, HeldRedeem(job)) by { HeldHolder(s, pid, job); }
    RedeemHeldStores(s, pid, job, input);
    RedeemHeldMoves(s, pid, job, input);
    RedeemHeldAlone(s, t, pid, job);
    Assemble(s, t, pid, PayGrant(job));
  }

  lemma HeldHolder(s: State, pid: nat, job: Job)
    requires ProcsOk(s) && pid in s.procs && s.procs[pid] == HeldRedeem(job)
    ensures ProcOk(s, HeldRedeem(job))
  {
    assert ProcOk(s, s.procs[pid]);
  }

  lemma RedeemHeldMoves(s: State, pid: nat, job: Job, input: Input)
    requires ProcOk(s, HeldRedeem(job))
    ensures var t := RedeemHeld(s, pid, job, input);
            && t.procs == s.procs[pid := PayGrant(job)] && ProcOk(t, PayGrant(job))
            && t.rows == s.rows && t.heldRedeems == s.heldRedeems + [job.row.id]
  {
    hide Redeem;
  }

  lemma RedeemHeldAlone(s: State, t: State, pid: nat, job: Job)
    requires ProcsOk(s) && Exclusive(s) && pid in s.procs && s.procs[pid] == HeldRedeem(job)
    requires t.rows == s.rows && t.heldRedeems == s.heldRedeems + [job.row.id]
    ensures Alone(s, t, pid, PayGrant(job))
  {
    hide JobOk, PaidRow, RowOk, Backed;
    forall q | q in s.procs ensures ProcOk(s, s.procs[q]) {}
  }

  lemma RedeemHeldStores(s: State, pid: nat, job: Job, input: Input)
    requires StoresOk(s) && ProcOk(s, HeldRedeem(job))
    ensures StoresOk(RedeemHeld(s, pid, job, input)) && Grows(s, RedeemHeld(s, pid, job, input))
  {
    hide Redeem, CouponsOk, ChargesOk, GrantsOk, RowsOk, HeldOk;
    var row := job.row;
    var s1 := s.(heldRedeems := s.heldRedeems + [row.id]);
    var t := RedeemHeld(s, pid, job, input);
    HeldSigned(s, s1, row.id);
    if input.redeemFails || row.coupon.None? {
      hide Grows;
      HeldSigned(s, t, row.id);
    } else {
      assert OriginsFresh(s, row.id) by { HeldFresh(s, row.id); }
      Redeemed(s1, t, row.coupon.value, row.user, row.quest, row.price, input.today, input.now, BySettlement(row.id));
      GrowsTransitive(s, s1, t);
    }
  }

  ghost predicate OriginsFresh(s: State, id: string) { BySettlement(id) !in s.origins }

  lemma HeldFresh(s: State, id: string)
    requires HeldOk(s) && id !in s.heldRedeems
    ensures OriginsFresh(s, id)
  {
    forall i | 0 <= i < |s.origins| ensures s.origins[i] != BySettlement(id) {
      assert OriginOk(s, s.origins[i], s.log[i]);
    }
  }

  lemma HeldSigned(s: State, t: State, id: string)
    requires StoresOk(s) && PaidRow(s, id) && id !in s.heldRedeems
    requires t == s.(procs := t.procs, heldRedeems := s.heldRedeems + [id])
    ensures StoresOk(t) && Grows(s, t)
  {
    hide UniqueTriples, WithinCaps, DistinctCoupons;
    forall i | 0 <= i < |t.log| ensures OriginOk(t, t.origins[i], t.log[i]) {
      assert OriginOk(s, s.origins[i], s.log[i]);
    }
  }

  // ---- every action ---------------------------------------------------------------------------

  /** A coupon that leaves something to pay leaves a sound charge. */
  lemma QuoteSound(s: State, code: string, user: string, quest: string, price: int, today: string)
    requires CouponsOk(s) && price > 0
    ensures var q := Quote(s, code, user, quest, price, today);
            q.Ok? ==> q.value.1 == DiscountAmount(q.value.0, price) && 0 <= q.value.1 <= price
  {
    hide UniqueTriples, WithinCaps, DistinctCoupons, DiscountAmount, CheckRedeemable, UsedTotal, UsedBy;
    var c := FindCoupon(s.coupons, code);
    if c.Some? { DiscountBounds(c.value.discount, price); }
  }

  lemma NextStopOk(s: State, p: Proc, input: Input)
    requires CouponsOk(s) && RowsOk(s) && ProcOk(s, p) && IsCheckout(p) && !p.Insert?
    ensures var n := NextStop(s, p, input); ProcOk(s, n) && !n.HeldRedeem? && !n.Insert?
  {
    hide Quote, RowsOk, CouponsOk, HasOpen, JobOk, RowOk, DiscountAmount;
    if p.QuoteCharge? {
      QuoteSound(s, p.code, p.o.user, p.o.quest, p.price, input.today);
    }
  }

  lemma CheckoutKeeps(s: State, pid: nat, input: Input)
    requires Inv(s) && pid in s.procs && IsCheckout(s.procs[pid])
    ensures var t := CheckoutStep(s, pid, s.procs[pid], input); Inv(t) && Grows(s, t)
  {
    hide Inv, Grows, RedeemNow, MintCharge, InsertRow, PutGrant, NextStop, Put;
    var p := s.procs[pid];
    ProcHolds(s, pid);
    match p {
      case Owned(o) => PutGrantKeeps(s, pid, o, Payment, None, input.now);
      case Free(o) => PutGrantKeeps(s, pid, o, FreeQuest, None, input.now);
      case MockGrant(o, source, ref) => PutGrantKeeps(s, pid, o, source, ref, input.now);
      case MockRedeem(o, code, price) => RedeemNowKeeps(s, pid, o, code, price, input);
      case Create(o, held, charge) => MintKeeps(s, pid, o, held, charge, input);
      case Insert(o, row) => InsertKeeps(s, pid, o, row);
      case _ =>
        NextStopOk(s, p, input);
        MoveKeeps(s, pid, NextStop(s, p, input));
    }
  }

  lemma ProcHolds(s: State, pid: nat)
    requires Inv(s) && pid in s.procs
    ensures ProcOk(s, s.procs[pid]) && CouponsOk(s) && RowsOk(s)
  {}

  lemma SettleKeeps(s: State, pid: nat, input: Input)
    requires Inv(s) && pid in s.procs && !IsCheckout(s.procs[pid])
    ensures var t := SettleStep(s, pid, s.procs[pid], input); Inv(t) && Grows(s, t)
  {
    hide Inv, Grows, FlipRow, WithdrawRow, RedeemHeld, GrantPaid, FetchRemote, Put;
    var p := s.procs[pid];
    ProcHolds(s, pid);
    match p {
      case Fetch(job) =>
        FetchOk(s, job, input);
        MoveKeeps(s, pid, FetchRemote(s, job, input));
      case Flip(job) => FlipKeeps(s, pid, job);
      case CancelRow(job) => CancelKeeps(s, pid, job);
      case HeldRedeem(job) => RedeemHeldKeeps(s, pid, job, input);
      case PayGrant(job) => GrantPaidKeeps(s, pid, job, input.now);
      case _ => PutGrows(s, pid, p);
    }
  }

  lemma FetchOk(s: State, job: Job, input: Input)
    requires RowsOk(s) && ProcOk(s, Fetch(job))
    ensures var n := FetchRemote(s, job, input); ProcOk(s, n) && !n.HeldRedeem? && !n.Insert?
  {}

  lemma GatewayKeeps(s: State, id: string, remote: RemoteStatus)
    requires Inv(s) && id in s.gateway && s.gateway[id].status !in {Paid, Void}
    ensures var t := s.(gateway := s.gateway[id := s.gateway[id].(status := remote)]); Inv(t) && Grows(s, t)
  {
    hide CouponsOk, GrantsOk;
    var t := s.(gateway := s.gateway[id := s.gateway[id].(status := remote)]);
    assert Grows(s, t) && ChargesOk(t) && RowsOk(t);
    SameCoupons(s, t);
    SameGrants(s, t);
    assert HeldOk(t) by { SameHeld(s, t); }
    hide HeldOk, RowsOk, ChargesOk;
    EnvironmentKeeps(s, t);
  }

  /** The environment moves no process. */
  lemma EnvironmentKeeps(s: State, t: State)
    requires Inv(s) && Grows(s, t) && t.procs == s.procs && t.heldRedeems == s.heldRedeems && t.rows == s.rows
    requires t.grants == s.grants && ChargesOk(t) && RowsOk(t) && CouponsOk(t) && HeldOk(t)
    ensures Inv(t)
  {
    SameGrants(s, t);
    hide Grows, CouponsOk, GrantsOk, Backed, ChargesOk, HeldOk, RowsOk, RowOk, JobOk;
    forall q | q in t.procs ensures ProcOk(t, t.procs[q]) {
      ProcStable(s, t, s.procs[q]);
    }
  }

  lemma SaveKeeps(s: State, c: Coupon)
    requires Inv(s) && MaySave(s.coupons, c)
    ensures var t := s.(coupons := Saved(s.coupons, c)); Inv(t) && Grows(s, t)
  {
    var t := s.(coupons := Saved(s.coupons, c));
    SavedCoupons(s, t, c);
    hide CouponsOk, Saved, MaySave;
    assert Grows(s, t);
    assert HeldOk(t) by { SameHeld(s, t); }
    EnvironmentKeeps(s, t);
  }

  /** A save keeps the registry sound: an edit keeps its caps, and a new coupon
      has no redemption yet. */
  lemma SavedCoupons(s: State, t: State, c: Coupon)
    requires CouponsOk(s) && MaySave(s.coupons, c) && t == s.(coupons := Saved(s.coupons, c))
    ensures CouponsOk(t)
  {
    hide UniqueTriples;
    if i :| 0 <= i < |s.coupons| && s.coupons[i].id == c.id {
      assert s.coupons[i] in s.coupons;
      forall r | r in t.log ensures exists d :: d in t.coupons && d.id == r.couponId {
        var d :| d in s.coupons && d.id == r.couponId;
        var j :| 0 <= j < |s.coupons| && s.coupons[j] == d;
        assert t.coupons[j] in t.coupons && t.coupons[j].id == d.id;
      }
      assert DistinctCoupons(t.coupons) by {
        forall j | 0 <= j < |s.coupons| ensures s.coupons[j] in s.coupons {}
      }
      assert forall d :: d in t.coupons ==> d in s.coupons || d == c;
    } else {
      assert t.coupons == s.coupons + [c];
      assert c in t.coupons && forall d :: d in t.coupons ==> d in s.coupons || d == c;
      forall r | r in s.log ensures r.couponId != c.id {
        var d :| d in s.coupons && d.id == r.couponId;
        var j :| 0 <= j < |s.coupons| && s.coupons[j] == d;
      }
      forall r | r in t.log ensures exists d :: d in t.coupons && d.id == r.couponId {
        var d :| d in s.coupons && d.id == r.couponId;
        assert d in t.coupons;
      }
      NewCouponWithinCaps(s.coupons, s.log, c);
      assert DistinctCoupons(t.coupons) by {
        forall j | 0 <= j < |s.coupons| ensures s.coupons[j] in s.coupons {}
      }
    }
  }

  lemma NewCouponWithinCaps(coupons: seq<Coupon>, log: seq<Redemption>, c: Coupon)
    requires WithinCaps(coupons, log) && forall r :: r in log ==> r.couponId != c.id
    ensures WithinCaps(coupons + [c], log)
  {
    forall d | d in coupons + [c]
      ensures d.maxRedemptions.Some? ==> UsedTotal(log, d.id) <= d.maxRedemptions.value
      ensures d.perUserLimit.Some? ==> forall u :: UsedBy(log, d.id, u) <= d.perUserLimit.value
    {
      if d !in coupons {
        NeverUsed(log, d.id, "");
        forall u ensures UsedBy(log, d.id, u) == 0 {
          NeverUsed(log, d.id, u);
        }
      }
    }
  }

  lemma {:induction false} NeverUsed(log: seq<Redemption>, id: string, user: string)
    requires forall r :: r in log ==> r.couponId != id
    ensures UsedTotal(log, id) == 0 && UsedBy(log, id, user) == 0
  {
    if log != [] {
      NeverUsed(log[..|log| - 1], id, user);
    }
  }

  lemma ArriveKeeps(s: State, pid: nat, user: string, quest: string, coupon: CouponField, provider: Provider)
    requires Inv(s) && pid !in s.procs
    ensures var t := Apply(s, Arrive(pid, user, quest, coupon, provider)); Inv(t) && Grows(s, t)
  {
    hide Inv, Grows, Put;
    MoveKeeps(s, pid, Arrived(Order(user, quest, coupon, provider, (user, quest) in s.grants)));
  }

  lemma SettleStarts(s: State, pid: nat, rowId: string)
    requires Inv(s) && pid !in s.procs && rowId in s.rows
    ensures var t := Apply(s, Settle(pid, rowId)); Inv(t) && Grows(s, t)
  {
    var row := s.rows[rowId];
    var p := Fetch(Job(row));
    assert ProcOk(s, p);
    hide Inv, Grows, Put;
    MoveKeeps(s, pid, p);
  }

  lemma ListingsKeep(s: State, listings: map<string, Option<int>>)
    requires Inv(s)
    ensures var t := s.(listings := listings); Inv(t) && Grows(s, t)
  {
    hide UniqueTriples, WithinCaps, DistinctCoupons;
    var t := s.(listings := listings);
    forall i | 0 <= i < |t.log| ensures OriginOk(t, t.origins[i], t.log[i]) {
      assert OriginOk(s, s.origins[i], s.log[i]);
    }
    EnvironmentKeeps(s, t);
  }

  /** Every action keeps the invariant, and nothing it does is taken back. */
  lemma ApplyKeeps(s: State, a: Action)
    requires Inv(s)
    ensures Inv(Apply(s, a)) && Grows(s, Apply(s, a))
  {
    hide Inv, Grows, CheckoutStep, SettleStep, MaySave, Saved, IsCheckout;
    PutGrows(s, 0, Failed);
    match a {
      case Arrive(pid, user, quest, coupon, provider) =>
        if pid !in s.procs { ArriveKeeps(s, pid, user, quest, coupon, provider); }
      case Settle(pid, rowId) =>
        if pid !in s.procs && rowId in s.rows { SettleStarts(s, pid, rowId); }
      case Step(pid, input) =>
        if pid in s.procs {
          if IsCheckout(s.procs[pid]) { CheckoutKeeps(s, pid, input); } else { SettleKeeps(s, pid, input); }
        }
      case Crash(pid) => MoveKeeps(s, pid, Failed);
      case GatewayMoves(id, remote) =>
        if id in s.gateway && s.gateway[id].status !in {Paid, Void} { GatewayKeeps(s, id, remote); }
      case Publish(quest, price) => ListingsKeep(s, s.listings[quest := price]);
      case Withdraw(quest) => ListingsKeep(s, s.listings - {quest});
      case SaveCoupon(c) => if MaySave(s.coupons, c) { SaveKeeps(s, c); }
    }
  }
}
