/** What a settlement answers: exactly what the gateway said when it was asked. */
module PaymentAnswers {
  import opened Prelude
  import opened Coupons
  import opened Payments
  import opened PaymentSafety
  import opened PaymentRuns
  import opened PaymentSteps

  /** The answer a gateway status calls for. */
  function Said(remote: RemoteStatus): RowStatus {
    match remote
    case Paid => Succeeded
    case Void => Canceled
    case _ => Pending
  }

  /** Action `i` is the settlement's question, put while the gateway stood so that
      `status` is the answer. */
  predicate AskedAt(run: seq<Action>, i: nat, pid: nat, job: Job, status: RowStatus) {
    && i < |run| && run[i].Step? && run[i].pid == pid
    && pid in At(run, i).procs && At(run, i).procs[pid] == Fetch(job)
    && job.row.providerId in At(run, i).gateway
    && status == Said(At(run, i).gateway[job.row.providerId].status)
  }

  /** The gateway held the money before action `k`. */
  predicate PaidBy(run: seq<Action>, k: nat, job: Job) {
    && k <= |run| && job.row.providerId in At(run, k).gateway
    && At(run, k).gateway[job.row.providerId].status == Paid
  }

  /** What a settlement that has asked is going to answer. */
  function Heading(p: Proc): Option<(Job, RowStatus)> {
    match p
    case Flip(job) => Some((job, Succeeded))
    case HeldRedeem(job) => Some((job, Succeeded))
    case PayGrant(job) => Some((job, Succeeded))
    case CancelRow(job) => Some((job, Canceled))
    case SettleDone(job, status, _) => Some((job, status))
    case _ => None
  }

  lemma FetchHeads(s: State, pid: nat, job: Job, input: Input)
    requires Inv(s) && pid in s.procs && s.procs[pid] == Fetch(job)
    ensures var next := Heading(FetchRemote(s, job, input));
            next.Some? ==>
              job.row.providerId in s.gateway && next == Some((job, Said(s.gateway[job.row.providerId].status)))
  {
    assert ProcOk(s, s.procs[pid]);
    assert RowOk(s, s.rows[job.row.id]);
  }

  /** Its own steps keep a settlement on the way to its answer. */
  lemma StepHeads(s: State, pid: nat, input: Input)
    requires pid in s.procs && !s.procs[pid].Fetch?
    ensures var t := Apply(s, Step(pid, input));
            pid in t.procs && (Heading(t.procs[pid]).Some? ==> Heading(t.procs[pid]) == Heading(s.procs[pid]))
  {
    hide CheckoutStep, Redeem, CreateGrant, SettleSucceeded, MarkCanceled;
    if IsCheckout(s.procs[pid]) { CheckoutHeadsNowhere(s, pid, input); }
  }

  lemma CheckoutHeadsNowhere(s: State, pid: nat, input: Input)
    requires pid in s.procs && IsCheckout(s.procs[pid])
    ensures var t := CheckoutStep(s, pid, s.procs[pid], input); pid in t.procs && Heading(t.procs[pid]).None?
  {
    hide NextStop, RedeemNow, CreateGrant;
    var p := s.procs[pid];
    if Reads(p) || p.Settled? || p.Redirected? {
      ReadingHeadsNowhere(s, p, input);
    } else if p.MockRedeem? {
      RedeemNowShape(s, pid, p.o, p.code, p.price, input);
    }
  }

  lemma ReadingHeadsNowhere(s: State, p: Proc, input: Input)
    requires IsCheckout(p)
    ensures Heading(NextStop(s, p, input)).None?
  {
    hide Quote, HasOpen, IsOpenFor;
  }

  lemma HeadingStep(s: State, a: Action, pid: nat)
    requires Inv(s)
    ensures pid in Apply(s, a).procs && Heading(Apply(s, a).procs[pid]).Some? ==>
              var next := Heading(Apply(s, a).procs[pid]);
              && pid in s.procs
              && (Heading(s.procs[pid]) == next
                  || (a.Step? && a.pid == pid && s.procs[pid].Fetch? && s.procs[pid].job.row.providerId in s.gateway
                      && next == Some((s.procs[pid].job, Said(s.gateway[s.procs[pid].job.row.providerId].status)))))
  {
    hide Inv, MaySave, Saved, CheckoutStep, SettleStep, FetchRemote;
    if pid in s.procs && ((a.Step? || a.Crash?) ==> a.pid != pid) {
      OtherMoves(s, a, pid);
    } else if a.Step? && a.pid in s.procs {
      if a.pid != pid {
        OwnStep(s, a.pid, a.input);
      } else if s.procs[pid].Fetch? {
        AskStep(s, pid, s.procs[pid].job, a.input);
        FetchHeads(s, pid, s.procs[pid].job, a.input);
      } else {
        StepHeads(s, pid, a.input);
      }
    }
  }

  lemma {:induction false} Asked(run: seq<Action>, pid: nat) returns (i: nat)
    requires pid in Exec(START, run).procs && Heading(Exec(START, run).procs[pid]).Some?
    ensures var (job, status) := Heading(Exec(START, run).procs[pid]).value; AskedAt(run, i, pid, job, status)
    decreases |run|
  {
    hide Apply, Inv, Heading;
    assert run[..|run|] == run;
    var n := |run| - 1;
    var s := At(run, n);
    EveryRunKeeps(run[..n]);
    if pid in s.procs && Heading(s.procs[pid]) == Heading(Exec(START, run).procs[pid]) {
      i := Asked(run[..n], pid);
      AtPrefix(run, n, i);
      assert run[..n][i] == run[i];
    } else {
      HeadingStep(s, run[n], pid);
      i := n;
    }
  }

  lemma AskedNow(run: seq<Action>, pid: nat, job: Job, input: Input)
    requires pid in Exec(START, run).procs && Exec(START, run).procs[pid] == Fetch(job)
    ensures var next := Heading(FetchRemote(Exec(START, run), job, input));
            next.Some? ==> AskedAt(run + [Step(pid, input)], |run|, pid, job, next.value.1)
  {
    EveryRunKeeps(run);
    FetchHeads(Exec(START, run), pid, job, input);
    hide Exec, Inv, FetchRemote;
    assert (run + [Step(pid, input)])[..|run|] == run;
  }

  /** A question once put stays where it was. */
  lemma AskedStays(run: seq<Action>, later: seq<Action>, i: nat, pid: nat, job: Job, status: RowStatus)
    requires AskedAt(run, i, pid, job, status) && Past(run, later)
    ensures AskedAt(later, i, pid, job, status)
  {
    hide Exec;
    assert later[..i] == run[..i];
  }

  lemma PastLonger(a: seq<Action>, b: seq<Action>)
    requires Past(a, b)
    ensures |a| <= |b|
  {}

  /** A completed settlement answers what the gateway said when it was asked, however
      old its copy of the row was and whatever else ran meanwhile: "succeeded", with
      the player's grant, exactly if the gateway held the money by then. */
  lemma CompletedSettlementGrants(run: seq<Action>, pid: nat, job: Job, status: RowStatus, granted: Option<Grant>)
    returns (i: nat)
    requires pid in Exec(START, run).procs && Exec(START, run).procs[pid] == SettleDone(job, status, granted)
    ensures AskedAt(run, i, pid, job, status)
    ensures forall k :: 0 <= k <= i && PaidBy(run, k, job) ==> status == Succeeded
    ensures var s := Exec(START, run);
            && (status == Succeeded ==>
                  && (job.row.user, job.row.quest) in s.grants
                  && granted == Some(s.grants[(job.row.user, job.row.quest)])
                  && job.row.providerId in s.gateway && s.gateway[job.row.providerId].status == Paid)
            && (status != Succeeded ==> granted.None?)
  {
    i := Asked(run, pid);
    SettledGrants(run, pid, job, status, granted);
    hide Apply, Inv;
    forall k | 0 <= k <= i && PaidBy(run, k, job) ensures status == Succeeded {
      PaidWhenAsked(run, k, i, pid, job, status);
    }
  }

  /** Money the gateway held before the question is in the answer. */
  lemma PaidWhenAsked(run: seq<Action>, k: nat, i: nat, pid: nat, job: Job, status: RowStatus)
    requires k <= i && PaidBy(run, k, job) && AskedAt(run, i, pid, job, status)
    ensures status == Succeeded
  {
    hide Apply, Inv;
    assert run[..k] + run[k..i] == run[..i];
    NothingIsTakenBack(run[..k], run[k..i]);
  }

  lemma PaidAtStart(start: seq<Action>, run: seq<Action>, i: nat, pid: nat, job: Job, status: RowStatus)
    requires |start| <= i && Past(start, run) && AskedAt(run, i, pid, job, status)
    requires PaidBy(start, |start|, job)
    ensures status == Succeeded
  {
    hide Exec, Apply;
    assert run[..|start|] == start == start[..|start|];
    PaidWhenAsked(run, |start|, i, pid, job, status);
  }

  lemma SettledGrants(run: seq<Action>, pid: nat, job: Job, status: RowStatus, granted: Option<Grant>)
    requires pid in Exec(START, run).procs && Exec(START, run).procs[pid] == SettleDone(job, status, granted)
    ensures var s := Exec(START, run);
            && (status == Succeeded ==>
                  && (job.row.user, job.row.quest) in s.grants
                  && granted == Some(s.grants[(job.row.user, job.row.quest)])
                  && job.row.providerId in s.gateway && s.gateway[job.row.providerId].status == Paid)
            && (status != Succeeded ==> granted.None?)
  {
    EveryRunKeeps(run);
    var s := Exec(START, run);
    assert ProcOk(s, s.procs[pid]);
    assert RowOk(s, s.rows[job.row.id]);
  }
}
