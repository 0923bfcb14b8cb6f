/** The protocol's steps one by one, as the code takes them: what a process reads,
    what it writes, and what the steps of others leave alone. */
module PaymentSteps {
  import opened Prelude
  import opened Coupons
  import opened Payments
  import opened PaymentSafety
  import opened PaymentRuns

  datatype Reply = Granted(grant: Grant, created: bool) | PayAt(paymentId: string, url: string) | Refused

  /** What has happened stays the beginning of what happens. */
  predicate Past(before: seq<Action>, after: seq<Action>) { before <= after }

  lemma PastOrder()
    ensures forall a: seq<Action> :: Past(a, a)
    ensures forall a, b, c :: Past(a, b) && Past(b, c) ==> Past(a, c)
  {}

  /** None of these actions moves or stops the process. */
  predicate Foreign(world: seq<Action>, pid: nat) {
    forall a :: a in world ==> (a.Step? || a.Crash?) ==> a.pid != pid
  }

  lemma {:induction false} ForeignKeeps(s: State, world: seq<Action>, pid: nat)
    requires Foreign(world, pid) && pid in s.procs
    ensures pid in Exec(s, world).procs && Exec(s, world).procs[pid] == s.procs[pid]
    decreases |world|
  {
    hide Apply;
    if world != [] {
      var n := |world| - 1;
      ForeignKeeps(s, world[..n], pid);
      assert world[n] in world;
      OtherMoves(Exec(s, world[..n]), world[n], pid);
    }
  }

  lemma OtherMoves(s: State, a: Action, pid: nat)
    requires pid in s.procs && ((a.Step? || a.Crash?) ==> a.pid != pid)
    ensures pid in Apply(s, a).procs && Apply(s, a).procs[pid] == s.procs[pid]
  {
    hide MaySave, Saved, CheckoutStep, SettleStep;
    if a.Step? && a.pid in s.procs {
      OwnStep(s, a.pid, a.input);
    }
  }

  lemma InsertStep(s: State, pid: nat, o: Order, row: Row, input: Input)
    requires pid in s.procs && s.procs[pid] == Insert(o, row)
    ensures Apply(s, Step(pid, input)) == InsertRow(s, pid, o, row)
  {
    hide InsertRow;
  }

  lemma Then(s: State, run: seq<Action>, a: Action)
    ensures Exec(s, run + [a]) == Apply(Exec(s, run), a)
  {
    assert (run + [a])[..|run|] == run;
  }

  lemma {:induction false} ExecConcat(s: State, a: seq<Action>, b: seq<Action>)
    ensures Exec(s, a + b) == Exec(Exec(s, a), b)
    decreases |b|
  {
    if b == [] {
      assert a + b == a;
    } else {
      assert (a + b)[..|a + b| - 1] == a + b[..|b| - 1];
      ExecConcat(s, a, b[..|b| - 1]);
    }
  }

  /** The state after the first `k` actions of the run. */
  function At(run: seq<Action>, k: nat): State
    requires k <= |run|
  {
    Exec(START, run[..k])
  }

  lemma AtPrefix(run: seq<Action>, k: nat, j: nat)
    requires j <= k <= |run|
    ensures At(run[..k], j) == At(run, j)
  {
    assert run[..k][..j] == run[..j];
  }

  lemma AtNext(run: seq<Action>, k: nat)
    requires k < |run|
    ensures At(run, k + 1) == Apply(At(run, k), run[k])
  {
    hide Apply;
    assert run[..k + 1] == run[..k] + [run[k]];
    Then(START, run[..k], run[k]);
  }

  lemma StaysInPlace(s: State, pid: nat, input: Input)
    requires pid in s.procs && IsCheckout(s.procs[pid]) && !s.procs[pid].Insert?
    ensures var t := CheckoutStep(s, pid, s.procs[pid], input);
            t.rows == s.rows && pid in t.procs && t.procs == s.procs[pid := t.procs[pid]]
  {
    hide NextStop, RedeemNow, CreateGrant, MintCharge;
    var p := s.procs[pid];
    if p.MockRedeem? { RedeemNowShape(s, pid, p.o, p.code, p.price, input); }
    if p.Create? { MintChargeShape(s, pid, p.o, p.held, p.charge, input); }
  }

  /** At most its own process moved. */
  predicate OnlyMoved(s: State, t: State, pid: nat) {
    t == s || (pid in t.procs && t.procs == s.procs[pid := t.procs[pid]])
  }

  lemma RowsStay(s: State, pid: nat, input: Input)
    requires pid in s.procs && !IsCheckout(s.procs[pid]) && !s.procs[pid].Flip? && !s.procs[pid].CancelRow?
    ensures var t := SettleStep(s, pid, s.procs[pid], input);
            t.rows == s.rows && OnlyMoved(s, t, pid)
  {
    hide RedeemHeld, CreateGrant, FetchRemote;
    if s.procs[pid].HeldRedeem? { RedeemingStays(s, pid, s.procs[pid].job, input); }
  }

  lemma RedeemingStays(s: State, pid: nat, job: Job, input: Input)
    ensures var t := RedeemHeld(s, pid, job, input);
            t.rows == s.rows && t.procs == s.procs[pid := PayGrant(job)]
  {
    hide Coupons.Redeem;
  }

  lemma RowCloses(s: State, pid: nat, job: Job)
    ensures forall t :: t in {FlipRow(s, pid, job), WithdrawRow(s, pid, job)} ==>
      && t.procs == s.procs[pid := t.procs[pid]]
      && (forall id, user, quest :: IsOpenFor(t.rows, id, user, quest) ==> IsOpenFor(s.rows, id, user, quest))
  {}

  /** A step changes no entry of the process table but its own. */
  lemma OwnStep(s: State, p: nat, input: Input)
    requires p in s.procs
    ensures var t := Apply(s, Step(p, input)); t == s || (p in t.procs && t.procs == s.procs[p := t.procs[p]])
  {
    var proc := s.procs[p];
    if IsCheckout(proc) {
      if proc.Insert? {
        hide NextStop;
      } else {
        StaysInPlace(s, p, input);
        hide CheckoutStep;
      }
    } else if proc.Flip? || proc.CancelRow? {
      RowCloses(s, p, proc.job);
    } else {
      RowsStay(s, p, input);
      hide SettleStep;
    }
  }

  predicate Reads(p: Proc) {
    p.Arrived? || p.Listing? || p.QuoteFull? || p.Gate? || p.FindOpen? || p.QuoteCharge?
  }

  lemma ReadStep(s: State, pid: nat, input: Input)
    requires pid in s.procs && Reads(s.procs[pid])
    ensures Apply(s, Step(pid, input)) == Put(s, pid, NextStop(s, s.procs[pid], input))
  {
    hide NextStop;
  }

  lemma OwnerHolds(history: seq<Action>, pid: nat, o: Order)
    requires pid in Exec(START, history).procs && Exec(START, history).procs[pid] == Arrived(o) && o.owned
    ensures (o.user, o.quest) in Exec(START, history).grants
  {
    EveryRunKeeps(history);
    assert ProcOk(Exec(START, history), Arrived(o));
  }

  lemma CheckoutPromise(history: seq<Action>, pid: nat, o: Order, reply: Reply)
    requires pid in Exec(START, history).procs && Outcome(Exec(START, history).procs[pid], o, reply)
    ensures var s := Exec(START, history);
            && (reply.Granted? ==>
                  && (o.user, o.quest) in s.grants && s.grants[(o.user, o.quest)] == reply.grant
                  && (o.owned ==> !reply.created && ByCheckout(o) !in s.origins))
            && (reply.PayAt? ==>
                  && reply.paymentId in s.rows && s.rows[reply.paymentId].user == o.user
                  && s.rows[reply.paymentId].quest == o.quest)
  {
    EveryRunKeeps(history);
    var s := Exec(START, history);
    assert ProcOk(s, s.procs[pid]);
    if reply.Granted? && o.owned { OwnersRedeemNothing(history, pid); }
  }

  lemma AskStep(s: State, pid: nat, job: Job, input: Input)
    requires pid in s.procs && s.procs[pid] == Fetch(job)
    ensures Apply(s, Step(pid, input)) == Put(s, pid, FetchRemote(s, job, input))
  {
    hide FetchRemote;
  }

  lemma WinStep(s: State, pid: nat, job: Job, input: Input)
    requires pid in s.procs && s.procs[pid] == Flip(job)
    ensures var (rows, won) := Payments.SettleSucceeded(s.rows, job.row.id);
            Apply(s, Step(pid, input)) ==
            Put(s.(rows := rows), pid, if won && job.row.coupon.Some? then HeldRedeem(job) else PayGrant(job))
  {
    hide Payments.SettleSucceeded;
  }

  lemma WithdrawStep(s: State, pid: nat, job: Job, input: Input)
    requires pid in s.procs && s.procs[pid] == CancelRow(job)
    ensures Apply(s, Step(pid, input)) ==
            Put(s.(rows := Payments.MarkCanceled(s.rows, job.row.id)), pid, SettleDone(job, Canceled, None))
  {
    hide Payments.MarkCanceled;
  }

  lemma PayStep(s: State, pid: nat, job: Job, input: Input)
    requires pid in s.procs && s.procs[pid] == PayGrant(job)
    ensures Apply(s, Step(pid, input)) == GrantPaid(s, pid, job, input.now)
  {
    hide GrantPaid;
  }

  lemma HeldStep(s: State, pid: nat, job: Job, code: string, input: Input)
    requires pid in s.procs && s.procs[pid] == HeldRedeem(job) && job.row.coupon == Some(code)
    ensures var row := job.row;
            var r := Coupons.Redeem(s.coupons, s.log, code, row.user, row.quest, row.price, input.today, input.now);
            var log := if input.redeemFails || r.Err? then s.log else r.value.1;
            Apply(s, Step(pid, input)) ==
            s.(log := log, origins := if log == s.log then s.origins else s.origins + [BySettlement(row.id)],
               heldRedeems := s.heldRedeems + [row.id], procs := s.procs[pid := PayGrant(job)])
  {
    hide Coupons.Redeem;
  }

  lemma OpenRow(history: seq<Action>, id: string)
    requires id in Exec(START, history).rows
    ensures Exec(START, history).rows[id].id == id
  {
    EveryRunKeeps(history);
  }

  lemma MintChargeShape(s: State, pid: nat, o: Order, held: Option<string>, charge: Charge, input: Input)
    ensures var unused := input.token !in s.tokens && input.providerId !in s.gateway;
            MintCharge(s, pid, o, held, charge, input) ==
            s.(tokens := if unused then s.tokens + {input.token} else s.tokens,
               gateway := if unused then s.gateway[input.providerId := Remote(Open, charge)] else s.gateway,
               procs := s.procs[pid :=
                 if !unused || input.url.None? then Failed
                 else Insert(o, Row(input.token, input.providerId, o.user, o.quest, held,
                                    charge.amount, charge.price, input.url.value, Pending))])
  {}

  lemma ReplayStep(s: State, o: Order, listed: Option<int>, id: string, input: Input)
    requires IsOpenFor(s.rows, id, o.user, o.quest)
    ensures NextStop(s, FindOpen(o, listed), input.(pick := id)) == Redirected(o, id, s.rows[id].url)
  {}

  lemma NoReplayStep(s: State, o: Order, listed: Option<int>, input: Input)
    requires !HasOpen(s.rows, o.user, o.quest)
    ensures NextStop(s, FindOpen(o, listed), input) == EnterCharge(o, listed)
  {}

  lemma CreateStep(s: State, pid: nat, o: Order, held: Option<string>, charge: Charge, input: Input)
    requires pid in s.procs && s.procs[pid] == Create(o, held, charge)
    ensures Apply(s, Step(pid, input)) == MintCharge(s, pid, o, held, charge, input)
  {
    hide MintCharge;
  }

  lemma GrantStep(s: State, pid: nat, o: Order, source: GrantSource, ref: Option<string>, input: Input)
    requires pid in s.procs && s.procs[pid] in {Owned(o), Free(o), MockGrant(o, source, ref)}
    requires s.procs[pid].Owned? ==> source == Payment && ref.None?
    requires s.procs[pid].Free? ==> source == FreeQuest && ref.None?
    ensures Apply(s, Step(pid, input)) == PutGrant(s, pid, o, source, ref, input.now)
  {
    hide PutGrant;
  }

  lemma MockRedeemStep(s: State, pid: nat, o: Order, code: string, price: int, input: Input)
    requires pid in s.procs && s.procs[pid] == MockRedeem(o, code, price)
    ensures Apply(s, Step(pid, input)) == RedeemNow(s, pid, o, code, price, input)
  {
    hide RedeemNow;
  }

  lemma RedeemNowShape(s: State, pid: nat, o: Order, code: string, price: int, input: Input)
    ensures var r := Coupons.Redeem(s.coupons, s.log, code, o.user, o.quest, price, input.today, input.now);
            var log := if r.Ok? then r.value.1 else s.log;
            var next := if r.Err? then Failed
                        else if r.value.0.amount >= price then MockGrant(o, CouponRedemption, None)
                        else MockGrant(o, Payment, Some(MockRef(o.user, o.quest)));
            RedeemNow(s, pid, o, code, price, input) ==
            s.(log := log, origins := if log == s.log then s.origins else s.origins + [ByCheckout(o)],
               procs := s.procs[pid := next])
  {
    hide Coupons.Redeem;
  }

  /** How a finished checkout stands in the process table. */
  predicate Outcome(p: Proc, o: Order, reply: Reply) {
    match reply
    case Granted(grant, created) => p == Payments.Settled(o, grant, created)
    case PayAt(id, url) => p == Redirected(o, id, url)
    case Refused => p == Failed
  }
}
