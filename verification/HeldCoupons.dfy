/** What becomes of the coupon a redirect payment holds: exactly when a paid row's coupon
    is never redeemed. */
module HeldCoupons {
  import opened Prelude
  import opened Coupons
  import opened Payments
  import opened PaymentSafety
  import opened PaymentRuns
  import opened PaymentSteps
  import opened OpenPayments

  /** The process won the row and is about to redeem its coupon. */
  predicate Holds(s: State, pid: nat, id: string) {
    pid in s.procs && s.procs[pid].HeldRedeem? && s.procs[pid].job.row.id == id
  }

  ghost predicate IsHeld(s: State, id: string) { exists pid :: Holds(s, pid, id) }

  /** The row is paid and holds a coupon that no settlement tried to redeem and none is
      going to. */
  ghost predicate Missed(s: State, id: string) {
    PaidRow(s, id) && id !in s.heldRedeems && !IsHeld(s, id)
  }

  /** The action is the death of the process that won the row, before it redeemed. */
  predicate WinnerDies(s: State, a: Action, id: string) { a.Crash? && Holds(s, a.pid, id) }

  // ---- one action ------------------------------------------------------------------------

  /** Nothing the row's coupon depends on has moved. */
  ghost predicate SameFate(s: State, t: State, id: string) {
    && (PaidRow(t, id) <==> PaidRow(s, id)) && t.heldRedeems == s.heldRedeems
    && (forall pid :: Holds(t, pid, id) <==> Holds(s, pid, id))
  }

  lemma SameMissed(s: State, t: State, id: string)
    requires SameFate(s, t, id)
    ensures Missed(t, id) <==> Missed(s, id)
  {
    hide Holds, PaidRow;
  }

  /** Only processes past the compare-and-set hold a row. */
  lemma NotHolding(s: State, t: State, pid: nat, id: string)
    requires pid in t.procs && t.procs == s.procs[pid := t.procs[pid]]
    requires !t.procs[pid].HeldRedeem? && (pid in s.procs ==> !s.procs[pid].HeldRedeem?)
    ensures forall q :: Holds(t, q, id) <==> Holds(s, q, id)
  {}

  lemma CheckoutSame(s: State, pid: nat, input: Input, id: string)
    requires Inv(s) && pid in s.procs && IsCheckout(s.procs[pid])
    ensures SameFate(s, CheckoutStep(s, pid, s.procs[pid], input), id)
  {
    var (p, t) := (s.procs[pid], CheckoutStep(s, pid, s.procs[pid], input));
    if p.Insert? {
      assert ProcOk(s, p);
      hide Inv;
      NotHolding(s, t, pid, id);
    } else {
      hide Inv;
      StaysInPlace(s, pid, input);
      CheckoutHoldsNothing(s, pid, input);
      NotHolding(s, t, pid, id);
      hide CheckoutStep, Holds;
    }
  }

  lemma CheckoutHoldsNothing(s: State, pid: nat, input: Input)
    requires pid in s.procs && IsCheckout(s.procs[pid]) && !s.procs[pid].Insert?
    ensures var t := CheckoutStep(s, pid, s.procs[pid], input);
            t.heldRedeems == s.heldRedeems && pid in t.procs && !t.procs[pid].HeldRedeem?
  {
    hide NextStop, RedeemNow, CreateGrant;
    var p := s.procs[pid];
    if p.MockRedeem? {
      RedeemNowShape(s, pid, p.o, p.code, p.price, input);
      RedeemNowHolds(s, pid, p.o, p.code, p.price, input);
    } else if !p.Owned? && !p.Free? && !p.MockGrant? && !p.Create? {
      ReadingHoldsNothing(s, p, input);
    }
  }

  lemma RedeemNowHolds(s: State, pid: nat, o: Order, code: string, price: int, input: Input)
    ensures var t := RedeemNow(s, pid, o, code, price, input);
            t.heldRedeems == s.heldRedeems && pid in t.procs && !t.procs[pid].HeldRedeem?
  {
    hide Redeem;
  }

  lemma ReadingHoldsNothing(s: State, p: Proc, input: Input)
    requires IsCheckout(p)
    ensures !NextStop(s, p, input).HeldRedeem?
  {
    hide Quote, HasOpen, IsOpenFor;
  }

  /** Winning the row makes a holder of it, and no coupon is missed by that. */
  lemma FlipMisses(s: State, pid: nat, job: Job, id: string)
    requires Inv(s) && pid in s.procs && s.procs[pid] == Flip(job)
    ensures Missed(FlipRow(s, pid, job), id) <==> Missed(s, id)
  {
    var t := FlipRow(s, pid, job);
    assert ProcOk(s, s.procs[pid]);
    hide Inv;
    if id == job.row.id && s.rows[id].status == Pending && job.row.coupon.Some? {
      assert Holds(t, pid, id);
    } else {
      assert t.procs[pid].HeldRedeem? ==> job.row.id != id;
      assert SameFate(s, t, id);
      SameMissed(s, t, id);
    }
  }

  lemma WithdrawMisses(s: State, pid: nat, job: Job, id: string)
    requires pid in s.procs && s.procs[pid] == CancelRow(job)
    ensures Missed(WithdrawRow(s, pid, job), id) <==> Missed(s, id)
  {
    var t := WithdrawRow(s, pid, job);
    NotHolding(s, t, pid, id);
    assert PaidRow(t, id) <==> PaidRow(s, id);
    SameMissed(s, t, id);
  }

  lemma RedeemMisses(s: State, pid: nat, job: Job, input: Input, id: string)
    requires Inv(s) && pid in s.procs && s.procs[pid] == HeldRedeem(job)
    ensures Missed(RedeemHeld(s, pid, job, input), id) <==> Missed(s, id)
  {
    var t := RedeemHeld(s, pid, job, input);
    RedeemHeldShape(s, pid, job, input);
    hide RedeemHeld, Inv;
    if id == job.row.id {
      assert Holds(s, pid, id);
    } else {
      assert id in t.heldRedeems <==> id in s.heldRedeems;
      OtherHolders(s, t, pid, id);
    }
  }

  lemma OtherHolders(s: State, t: State, pid: nat, id: string)
    requires t.rows == s.rows && pid in t.procs && t.procs == s.procs[pid := t.procs[pid]]
    requires !Holds(s, pid, id) && !Holds(t, pid, id) && (id in t.heldRedeems <==> id in s.heldRedeems)
    ensures Missed(t, id) <==> Missed(s, id)
  {
    assert forall q :: Holds(t, q, id) <==> Holds(s, q, id);
    hide Holds;
  }

  lemma RedeemHeldShape(s: State, pid: nat, job: Job, input: Input)
    ensures var t := RedeemHeld(s, pid, job, input);
            t.rows == s.rows && t.procs == s.procs[pid := PayGrant(job)] && t.heldRedeems == s.heldRedeems + [job.row.id]
  {
    hide Redeem;
  }

  lemma SettleMisses(s: State, pid: nat, input: Input, id: string)
    requires Inv(s) && pid in s.procs && !IsCheckout(s.procs[pid])
    ensures Missed(SettleStep(s, pid, s.procs[pid], input), id) <==> Missed(s, id)
  {
    hide Inv, CreateGrant, RedeemHeld, FlipRow, WithdrawRow, FetchRemote, Missed;
    var p := s.procs[pid];
    match p {
      case Flip(job) => FlipMisses(s, pid, job, id);
      case CancelRow(job) => WithdrawMisses(s, pid, job, id);
      case HeldRedeem(job) => RedeemMisses(s, pid, job, input, id);
      case Fetch(job) =>
        AsksOnly(s, job, input);
        Passing(s, SettleStep(s, pid, p, input), pid, id);
      case PayGrant(job) => Passing(s, SettleStep(s, pid, p, input), pid, id);
      case _ =>
    }
  }

  lemma AsksOnly(s: State, job: Job, input: Input)
    ensures !FetchRemote(s, job, input).HeldRedeem?
  {}

  lemma Passing(s: State, t: State, pid: nat, id: string)
    requires t.rows == s.rows && t.heldRedeems == s.heldRedeems && pid in t.procs && t.procs == s.procs[pid := t.procs[pid]]
    requires !t.procs[pid].HeldRedeem? && (pid in s.procs ==> !s.procs[pid].HeldRedeem?)
    ensures Missed(t, id) <==> Missed(s, id)
  {
    NotHolding(s, t, pid, id);
    SameMissed(s, t, id);
  }

  /** A holder is alone, so with it the coupon is gone. */
  lemma CrashMisses(s: State, pid: nat, id: string)
    requires Inv(s)
    ensures Missed(Apply(s, Crash(pid)), id) <==> Missed(s, id) || Holds(s, pid, id)
  {
    var t := Apply(s, Crash(pid));
    if Holds(s, pid, id) {
      assert ProcOk(s, s.procs[pid]);
      assert Exclusive(s);
      assert forall q :: Holds(t, q, id) ==> q != pid && Holds(s, q, id);
    } else if t != s {
      hide Inv;
      OtherHolders(s, t, pid, id);
    }
  }

  /** One action leaves a paid row's coupon behind exactly when it kills the winner. */
  lemma OneMiss(s: State, a: Action, id: string)
    requires Inv(s)
    ensures Missed(Apply(s, a), id) <==> Missed(s, id) || WinnerDies(s, a, id)
  {
    hide Inv, CheckoutStep, SettleStep, MaySave, Saved, Missed;
    match a {
      case Crash(pid) => CrashMisses(s, pid, id);
      case Step(pid, input) =>
        if pid in s.procs {
          if IsCheckout(s.procs[pid]) {
            CheckoutSame(s, pid, input, id);
            SameMissed(s, CheckoutStep(s, pid, s.procs[pid], input), id);
          } else {
            SettleMisses(s, pid, input, id);
          }
        }
      case Arrive(pid, _, _, _, _) => if pid !in s.procs { Passing(s, Apply(s, a), pid, id); }
      case Settle(pid, _) => if Apply(s, a) != s { Passing(s, Apply(s, a), pid, id); }
      case _ => SameProcs(s, Apply(s, a), id);
    }
  }

  lemma SameProcs(s: State, t: State, id: string)
    requires t.rows == s.rows && t.heldRedeems == s.heldRedeems && t.procs == s.procs
    ensures Missed(t, id) <==> Missed(s, id)
  {
    SameMissed(s, t, id);
  }

  // ---- whole runs ----------------------------------------------------------------------------

  /** Somewhere in the run the process that won the row died before it redeemed. */
  ghost predicate WinnerDied(run: seq<Action>, id: string) {
    exists k :: 0 <= k < |run| && WinnerDies(At(run, k), run[k], id)
  }

  /** Over every run: a paid row's held coupon is left behind, never tried and with nobody
      about to try it, if and only if the process that won the row died in between. */
  lemma {:induction false} MissedExactly(run: seq<Action>, id: string)
    ensures Missed(Exec(START, run), id) <==> WinnerDied(run, id)
    decreases |run|
  {
    hide Apply, Missed, WinnerDies;
    if run == [] {
      NothingAtStart(id);
    } else {
      var n := |run| - 1;
      MissedExactly(run[..n], id);
      EveryRunKeeps(run[..n]);
      OneMiss(At(run, n), run[n], id);
      DiedBefore(run, id);
    }
  }

  lemma NothingAtStart(id: string)
    ensures !Missed(START, id)
  {
    assert !PaidRow(START, id);
  }

  lemma DiedBefore(run: seq<Action>, id: string)
    requires run != []
    ensures var n := |run| - 1;
            WinnerDied(run, id) <==> WinnerDied(run[..n], id) || WinnerDies(At(run, n), run[n], id)
  {
    hide Exec, WinnerDies;
    var n := |run| - 1;
    forall k | 0 <= k < n ensures At(run[..n], k) == At(run, k) && run[..n][k] == run[k] { AtPrefix(run, n, k); }
    if WinnerDied(run, id) {
      var k :| 0 <= k < |run| && WinnerDies(At(run, k), run[k], id);
      if k < n { assert WinnerDies(At(run[..n], k), run[..n][k], id); }
    }
    if WinnerDied(run[..n], id) {
      var k :| 0 <= k < n && WinnerDies(At(run[..n], k), run[..n][k], id);
      assert WinnerDies(At(run, k), run[k], id);
    }
  }

  /** So a paid row with a coupon is in exactly one of three ways: a settlement tried the
      coupon, the winner is about to, or the winner died. */
  lemma PaidCouponFate(run: seq<Action>, id: string)
    requires PaidRow(Exec(START, run), id)
    ensures var s := Exec(START, run);
            && (id in s.heldRedeems ==> !IsHeld(s, id) && !WinnerDied(run, id))
            && (IsHeld(s, id) ==> !WinnerDied(run, id))
            && (id in s.heldRedeems || IsHeld(s, id) || WinnerDied(run, id))
  {
    MissedExactly(run, id);
    EveryRunKeeps(run);
    hide Exec;
    var s := Exec(START, run);
    if IsHeld(s, id) {
      var pid :| Holds(s, pid, id);
      assert ProcOk(s, s.procs[pid]);
    }
  }

  // ---- a coupon that is lost ------------------------------------------------------------------

  const HALF := Coupon("c", "C", Percent(50), None, None, None, None, false)

  const WITH_COUPON := Order("u", "q", Code("C"), Yookassa, false)

  const HALF_PRICE := Charge(50, 100, Some(Percent(50)))

  const KEPT := Row("t", "t", "u", "q", Some("C"), 50, 100, "", Pending)

  /** A server that sells one quest and knows one coupon, with its one checkout at `p`. */
  function Selling(p: Proc): State {
    START.(coupons := [HALF], listings := map["q" := Some(100)], procs := map[0 := p])
  }

  /** The same with the charge opened. */
  function Charged(p: Proc): State {
    Selling(p).(tokens := {"t"}, gateway := map["t" := Remote(Open, HALF_PRICE)])
  }

  /** The same with the row kept and the money taken; a settlement stands at `p`. */
  function Taken(status: RowStatus, p: Proc): State {
    START.(coupons := [HALF], listings := map["q" := Some(100)], tokens := {"t"},
           gateway := map["t" := Remote(Paid, HALF_PRICE)], rows := map["t" := KEPT.(status := status)],
           procs := map[0 := Redirected(WITH_COUPON, "t", ""), 1 := p])
  }

  function Setup(): seq<Action> {
    [Publish("q", Some(100)), SaveCoupon(HALF), Arrive(0, "u", "q", Code("C"), Yookassa)]
  }

  function Buying(): seq<Action> { Repeated(Step(0, Answers("t")), 8) }

  function Settling(): seq<Action> {
    [GatewayMoves("t", Paid), Settle(1, "t"), Step(1, Answers("")), Step(1, Answers("")), Crash(1)]
  }

  lemma SetUp()
    ensures Exec(START, Setup()) == Selling(Arrived(WITH_COUPON))
  {
    var r := Setup();
    assert r[..2][..1][..0] == [] && r[..2][..1] == [r[0]] && r[..2] == [r[0], r[1]];
    assert Exec(START, []) == START;
    assert Exec(START, [r[0]]) == Apply(START, r[0]);
    assert Exec(START, r[..2]) == Apply(Apply(START, r[0]), r[1]);
    assert Saved([], HALF) == [HALF];
  }

  lemma QuotedHalf(p: Proc)
    ensures Quote(Selling(p), "C", "u", "q", 100, "") == Ok((Percent(50), 50))
    ensures !HasOpen(Selling(p).rows, "u", "q")
  {
    assert FindCoupon([HALF], "C") == Some(HALF);
  }

  /** One reading step of the checkout. */
  lemma Onward(p: Proc, q: Proc)
    requires Reads(p) && NextStop(Selling(p), p, Answers("t")) == q
    ensures Apply(Selling(p), Step(0, Answers("t"))) == Selling(q)
  {
    hide NextStop;
    assert map[0 := p][0 := q] == map[0 := q];
  }

  lemma Priced()
    ensures var a := Step(0, Answers("t"));
            Apply(Apply(Apply(Apply(Apply(Apply(Selling(Arrived(WITH_COUPON)), a), a), a), a), a), a) ==
            Selling(Create(WITH_COUPON, Some("C"), HALF_PRICE))
  {
    hide Apply, NextStop, Selling;
    var (o, listed) := (WITH_COUPON, Some(100));
    ListedStops();
    PricedStops();
    Onward(Arrived(o), Listing(o));
    Onward(Listing(o), QuoteFull(o, "C", 100));
    Onward(QuoteFull(o, "C", 100), Gate(o, listed));
    Onward(Gate(o, listed), FindOpen(o, listed));
    Onward(FindOpen(o, listed), QuoteCharge(o, "C", 100));
    Onward(QuoteCharge(o, "C", 100), Create(o, Some("C"), HALF_PRICE));
  }

  lemma ListedStops()
    ensures var (o, i) := (WITH_COUPON, Answers("t"));
            && NextStop(Selling(Arrived(o)), Arrived(o), i) == Listing(o)
            && NextStop(Selling(Listing(o)), Listing(o), i) == QuoteFull(o, "C", 100)
            && NextStop(Selling(Gate(o, Some(100))), Gate(o, Some(100)), i) == FindOpen(o, Some(100))
  {
    hide Quote, HasOpen, IsOpenFor;
  }

  lemma PricedStops()
    ensures var (o, i) := (WITH_COUPON, Answers("t"));
            var (full, open, charge) := (QuoteFull(o, "C", 100), FindOpen(o, Some(100)), QuoteCharge(o, "C", 100));
            && NextStop(Selling(full), full, i) == Gate(o, Some(100))
            && NextStop(Selling(open), open, i) == charge
            && NextStop(Selling(charge), charge, i) == Create(o, Some("C"), HALF_PRICE)
  {
    var (o, listed) := (WITH_COUPON, Some(100));
    QuotedHalf(QuoteFull(o, "C", 100));
    QuotedHalf(FindOpen(o, listed));
    QuotedHalf(QuoteCharge(o, "C", 100));
    hide Quote, HasOpen, IsOpenFor, Selling;
  }

  lemma Bought()
    ensures var a := Step(0, Answers("t"));
            Apply(Apply(Selling(Create(WITH_COUPON, Some("C"), HALF_PRICE)), a), a) ==
            Charged(Redirected(WITH_COUPON, "t", "")).(rows := map["t" := KEPT])
  {
    hide Apply, Selling, Charged;
    Minted();
    Inserted();
  }

  lemma Minted()
    ensures Apply(Selling(Create(WITH_COUPON, Some("C"), HALF_PRICE)), Step(0, Answers("t"))) ==
            Charged(Insert(WITH_COUPON, KEPT))
  {
    var p := Create(WITH_COUPON, Some("C"), HALF_PRICE);
    CreateStep(Selling(p), 0, WITH_COUPON, Some("C"), HALF_PRICE, Answers("t"));
    hide Apply;
    assert map[0 := p][0 := Insert(WITH_COUPON, KEPT)] == map[0 := Insert(WITH_COUPON, KEPT)];
  }

  lemma Inserted()
    ensures Apply(Charged(Insert(WITH_COUPON, KEPT)), Step(0, Answers("t"))) ==
            Charged(Redirected(WITH_COUPON, "t", "")).(rows := map["t" := KEPT])
  {
    var (p, q) := (Insert(WITH_COUPON, KEPT), Redirected(WITH_COUPON, "t", ""));
    InsertStep(Charged(p), 0, WITH_COUPON, KEPT, Answers("t"));
    hide Apply;
    assert map[0 := p][0 := q] == map[0 := q] && map[]["t" := KEPT] == map["t" := KEPT];
  }

  lemma EightSteps(s: State)
    ensures var a := Step(0, Answers("t"));
            Exec(s, Buying()) == Apply(Apply(Apply(Apply(Apply(Apply(Apply(Apply(s, a), a), a), a), a), a), a), a)
  {
    var a := Step(0, Answers("t"));
    assert Exec(s, Repeated(a, 0)) == s;
    hide Apply, Answers, Exec, Repeated;
    OnceMore(s, a, 0);
    OnceMore(s, a, 1);
    OnceMore(s, a, 2);
    OnceMore(s, a, 3);
    OnceMore(s, a, 4);
    OnceMore(s, a, 5);
    OnceMore(s, a, 6);
    OnceMore(s, a, 7);
  }

  /** The second process moves and nothing else. */
  lemma Moves(status: RowStatus, p: Proc, q: Proc)
    ensures Put(Taken(status, p), 1, q) == Taken(status, q)
  {
    var d := Redirected(WITH_COUPON, "t", "");
    assert map[0 := d, 1 := p][1 := q] == map[0 := d, 1 := q];
  }

  lemma MoneyIn()
    ensures var s := Charged(Redirected(WITH_COUPON, "t", "")).(rows := map["t" := KEPT]);
            Apply(Apply(s, GatewayMoves("t", Paid)), Settle(1, "t")) == Taken(Pending, Fetch(Job(KEPT)))
  {
    var d := Redirected(WITH_COUPON, "t", "");
    var s := Charged(d).(rows := map["t" := KEPT]);
    assert s.gateway["t" := Remote(Paid, HALF_PRICE)] == map["t" := Remote(Paid, HALF_PRICE)];
    assert map[0 := d][1 := Fetch(Job(KEPT))] == map[0 := d, 1 := Fetch(Job(KEPT))];
  }

  lemma Answered()
    ensures Apply(Taken(Pending, Fetch(Job(KEPT))), Step(1, Answers(""))) == Taken(Pending, Flip(Job(KEPT)))
  {
    var job := Job(KEPT);
    AskStep(Taken(Pending, Fetch(job)), 1, job, Answers(""));
    hide Apply;
    Moves(Pending, Fetch(job), Flip(job));
  }

  lemma Won()
    ensures Apply(Taken(Pending, Flip(Job(KEPT))), Step(1, Answers(""))) == Taken(Succeeded, HeldRedeem(Job(KEPT)))
  {
    var job := Job(KEPT);
    WinStep(Taken(Pending, Flip(job)), 1, job, Answers(""));
    hide Apply;
    Moves(Succeeded, Flip(job), HeldRedeem(job));
    assert map["t" := KEPT]["t" := KEPT.(status := Succeeded)] == map["t" := KEPT.(status := Succeeded)];
  }

  lemma Died()
    ensures Apply(Taken(Succeeded, HeldRedeem(Job(KEPT))), Crash(1)) == Taken(Succeeded, Failed)
  {
    Moves(Succeeded, HeldRedeem(Job(KEPT)), Failed);
  }

  lemma LeftBehind()
    ensures Missed(Taken(Succeeded, Failed), "t")
  {}

  /** The money for half a price is taken, the settlement that won the row dies, and the
      coupon is redeemed by nobody. */
  lemma WinnerDiesCouponLost()
    ensures Missed(Exec(START, Setup() + Buying() + Settling()), "t")
  {
    hide Apply, Exec, Missed, Selling, Charged, Taken, Setup, Buying, Answers;
    SetUp();
    ExecConcat(START, Setup(), Buying());
    EightSteps(Selling(Arrived(WITH_COUPON)));
    Priced();
    Bought();
    MoneyIn();
    Answered();
    Won();
    Died();
    LeftBehind();
    FiveMore(Exec(START, Setup() + Buying()), Settling());
    ExecConcat(START, Setup() + Buying(), Settling());
  }

  lemma FiveMore(s: State, run: seq<Action>)
    requires |run| == 5
    ensures Exec(s, run) == Apply(Apply(Apply(Apply(Apply(s, run[0]), run[1]), run[2]), run[3]), run[4])
  {
    assert Exec(s, run[..0]) == s;
    hide Apply, Exec;
    assert run[..5] == run;
    LastStep(s, run, 0);
    LastStep(s, run, 1);
    LastStep(s, run, 2);
    LastStep(s, run, 3);
    LastStep(s, run, 4);
  }

  lemma LastStep(s: State, run: seq<Action>, k: nat)
    requires k < |run|
    ensures Exec(s, run[..k + 1]) == Apply(Exec(s, run[..k]), run[k])
  {
    hide Apply, Exec;
    assert run[..k + 1] == run[..k] + [run[k]];
    Then(s, run[..k], run[k]);
  }
}
