/** The theorems of the payment protocol: statements over every run, however the
    checkouts, settlements, crashes and outside events interleave. */
module PaymentRuns {
  import opened Prelude
  import opened Coupons
  import opened Payments
  import opened PaymentSafety

  /** The invariant holds after every run. */
  lemma {:induction false} EveryRunKeeps(run: seq<Action>)
    ensures Inv(Exec(START, run))
    decreases |run|
  {
    hide Inv, Apply;
    if run == [] {
      StartOk();
    } else {
      EveryRunKeeps(run[..|run| - 1]);
      ApplyKeeps(Exec(START, run[..|run| - 1]), run[|run| - 1]);
    }
  }

  lemma StartOk()
    ensures Inv(START)
  {}

  /** Whatever happens next, grants and redemptions stay, rows and charges only
      move forward. */
  lemma {:induction false} NothingIsTakenBack(run: seq<Action>, more: seq<Action>)
    ensures Grows(Exec(START, run), Exec(START, run + more))
    decreases |more|
  {
    hide Inv, Grows, Apply;
    if more == [] {
      assert run + more == run;
      PutGrows(Exec(START, run), 0, Failed);
    } else {
      var n := |more| - 1;
      NothingIsTakenBack(run, more[..n]);
      assert (run + more)[..|run + more| - 1] == run + more[..n];
      EveryRunKeeps(run + more[..n]);
      ApplyKeeps(Exec(START, run + more[..n]), more[n]);
      GrowsTransitive(Exec(START, run), Exec(START, run + more[..n]), Exec(START, run + more));
    }
  }

  /** A row is succeeded only if the gateway holds the money, canceled only if the
      gateway voided it. */
  lemma RowsFollowTheGateway(run: seq<Action>, id: string)
    requires id in Exec(START, run).rows
    ensures var s := Exec(START, run);
            var row := s.rows[id];
            && row.providerId in s.gateway
            && (row.status == Succeeded ==> s.gateway[row.providerId].status == Paid)
            && (row.status == Canceled ==> s.gateway[row.providerId].status == Void)
  {
    EveryRunKeeps(run);
  }

  /** A held coupon is redeemed at most once per payment, and never for one that
      was canceled or abandoned: every redemption on behalf of a row, attempted or
      recorded, belongs to a row whose money is taken. */
  lemma HeldCouponOnlyOnceAndOnlyPaid(run: seq<Action>)
    ensures var s := Exec(START, run);
            && (forall i, j :: 0 <= i < j < |s.heldRedeems| ==> s.heldRedeems[i] != s.heldRedeems[j])
            && (forall id :: id in s.heldRedeems ==>
                  PaidRow(s, id) && s.rows[id].providerId in s.gateway
                  && s.gateway[s.rows[id].providerId].status == Paid)
            && |s.origins| == |s.log|
            && (forall i :: 0 <= i < |s.log| && s.origins[i].BySettlement? ==>
                  s.origins[i].rowId in s.heldRedeems && s.log[i].user == s.rows[s.origins[i].rowId].user
                  && s.log[i].quest == s.rows[s.origins[i].rowId].quest)
            && (forall i, j :: 0 <= i < j < |s.origins| && s.origins[i].BySettlement? ==> s.origins[i] != s.origins[j])
  {
    EveryRunKeeps(run);
    var s := Exec(START, run);
    forall i | 0 <= i < |s.log| ensures OriginOk(s, s.origins[i], s.log[i]) {}
  }

  /** A grant once created never changes. */
  lemma GrantsNeverChange(run: seq<Action>, more: seq<Action>, user: string, quest: string)
    requires (user, quest) in Exec(START, run).grants
    ensures (user, quest) in Exec(START, run + more).grants
         && Exec(START, run + more).grants[(user, quest)] == Exec(START, run).grants[(user, quest)]
  {
    NothingIsTakenBack(run, more);
  }

  /** However checkouts and settlements interleave, no coupon is used past its
      total cap or its cap per player, and no coupon, player and quest twice. */
  lemma CapsAlwaysHold(run: seq<Action>)
    ensures var s := Exec(START, run);
            WithinCaps(s.coupons, s.log) && UniqueTriples(s.log) && DistinctCoupons(s.coupons)
  {
    EveryRunKeeps(run);
  }

  /** A checkout that arrives for a quest the player owns redeems nothing: what
      checkouts recorded was all recorded by players without the quest, and one
      that owns it stands on the path that returns the stored grant. */
  lemma OwnersRedeemNothing(run: seq<Action>, pid: nat)
    requires pid in Exec(START, run).procs && IsCheckout(Exec(START, run).procs[pid])
    requires Exec(START, run).procs[pid].o.owned
    ensures var s := Exec(START, run);
            var p := s.procs[pid];
            && (p.o.user, p.o.quest) in s.grants
            && (p.Arrived? || p.Owned? || p.Settled?)
            && (p.Settled? ==> p.grant == s.grants[(p.o.user, p.o.quest)] && !p.created)
            && (forall i :: 0 <= i < |s.origins| ==> s.origins[i] != ByCheckout(p.o))
  {
    EveryRunKeeps(run);
    var s := Exec(START, run);
    var p := s.procs[pid];
    assert ProcOk(s, p);
    forall i | 0 <= i < |s.origins| ensures s.origins[i] != ByCheckout(p.o) {
      assert OriginOk(s, s.origins[i], s.log[i]);
    }
  }

  /** Every amount sent to the gateway is the price less the quoted discount,
      positive and at most the price; the row carries the same amounts. */
  lemma ChargesAlwaysSound(run: seq<Action>, id: string)
    requires id in Exec(START, run).gateway
    ensures var c := Exec(START, run).gateway[id].charge;
            && 0 < c.amount <= c.price
            && c.amount == c.price - (if c.discount.Some? then DiscountAmount(c.discount.value, c.price) else 0)
    ensures forall r :: r in Exec(START, run).rows && Exec(START, run).rows[r].providerId == id ==>
              && Exec(START, run).rows[r].amount == Exec(START, run).gateway[id].charge.amount
              && Exec(START, run).rows[r].price == Exec(START, run).gateway[id].charge.price
  {
    EveryRunKeeps(run);
  }

  /** Every grant ever made stands on something: a free quest, a recorded
      redemption, the mock's own reference, or money the gateway holds. In
      particular a redirect payment grants nothing before it is paid. */
  lemma EveryGrantIsBacked(run: seq<Action>, user: string, quest: string)
    requires (user, quest) in Exec(START, run).grants
    ensures var s := Exec(START, run);
            var g := s.grants[(user, quest)];
            g.user == user && g.quest == quest && Backed(s, user, quest, g.source, g.sourceRef)
  {
    EveryRunKeeps(run);
    assert GrantsOk(Exec(START, run));
  }
}
