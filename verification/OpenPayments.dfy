/** The promise that a repeated checkout replays the open payment instead of
    opening a second one: exactly when it holds, and a run in which it does not. */
module OpenPayments {
  import opened Prelude
  import opened Coupons
  import opened Payments
  import opened PaymentSafety
  import opened PaymentRuns
  import opened PaymentSteps

  /** A checkout that has seen no open payment and has not inserted its own yet. */
  predicate Opening(p: Proc) { p.QuoteCharge? || p.Create? || p.Insert? }

  /** Two checkouts of one player and quest are past the check at once. */
  ghost predicate Overlap(s: State) {
    exists p, q :: p in s.procs && q in s.procs && p != q && Opening(s.procs[p]) && Opening(s.procs[q])
      && s.procs[p].o.user == s.procs[q].o.user && s.procs[p].o.quest == s.procs[q].o.quest
  }

  ghost predicate OneOpen(s: State) {
    forall a, b, user, quest ::
      IsOpenFor(s.rows, a, user, quest) && IsOpenFor(s.rows, b, user, quest) ==> a == b
  }

  predicate Inserts(s: State, a: Action) { a.Step? && a.pid in s.procs && s.procs[a.pid].Insert? }

  /** The action inserts a payment while one of its order is open. */
  predicate InsertsOverOpen(s: State, a: Action) {
    Inserts(s, a) && HasOpen(s.rows, s.procs[a.pid].o.user, s.procs[a.pid].o.quest)
  }

  // ---- exactly when a second payment opens ---------------------------------------------

  /** No action but an insert opens a payment. */
  lemma OnlyInsertsOpen(s: State, a: Action, id: string, user: string, quest: string)
    requires !Inserts(s, a) && IsOpenFor(Apply(s, a).rows, id, user, quest)
    ensures IsOpenFor(s.rows, id, user, quest)
  {
    hide MaySave, Saved, CheckoutStep, SettleStep, IsOpenFor;
    if a.Step? && a.pid in s.procs {
      if IsCheckout(s.procs[a.pid]) {
        StaysInPlace(s, a.pid, a.input);
      } else {
        SettlingOpensNone(s, a.pid, a.input, id, user, quest);
      }
    }
  }

  lemma SettlingOpensNone(s: State, pid: nat, input: Input, id: string, user: string, quest: string)
    requires pid in s.procs && !IsCheckout(s.procs[pid])
    requires IsOpenFor(SettleStep(s, pid, s.procs[pid], input).rows, id, user, quest)
    ensures IsOpenFor(s.rows, id, user, quest)
  {
    if s.procs[pid].Flip? || s.procs[pid].CancelRow? {
      RowCloses(s, pid, s.procs[pid].job);
    } else {
      RowsStay(s, pid, input);
    }
  }

  /** The inserted row is the only one open for its order exactly when none was. */
  lemma InsertOpens(s: State, pid: nat, o: Order, row: Row)
    requires Inv(s) && OneOpen(s) && pid in s.procs && s.procs[pid] == Insert(o, row)
    ensures OneOpen(InsertRow(s, pid, o, row)) <==> !HasOpen(s.rows, o.user, o.quest)
  {
    assert row.user == o.user && row.quest == o.quest && row.status == Pending && row.id !in s.rows by {
      assert ProcOk(s, s.procs[pid]);
    }
    hide Inv;
    var t := InsertRow(s, pid, o, row);
    assert IsOpenFor(t.rows, row.id, o.user, o.quest);
    if id :| id in s.rows && IsOpenFor(s.rows, id, o.user, o.quest) {
      assert IsOpenFor(t.rows, id, o.user, o.quest);
    } else {
      forall id, user, quest | IsOpenFor(t.rows, id, user, quest) && id != row.id
        ensures IsOpenFor(s.rows, id, user, quest) && !(user == o.user && quest == o.quest)
      {}
    }
  }

  /** Where no order has two open payments, an action opens a second one exactly
      when it inserts over an open payment. */
  lemma OneOpenKept(s: State, a: Action)
    requires Inv(s) && OneOpen(s)
    ensures OneOpen(Apply(s, a)) <==> !InsertsOverOpen(s, a)
  {
    hide Inv, Apply, IsOpenFor;
    if Inserts(s, a) {
      var p := s.procs[a.pid];
      InsertStep(s, a.pid, p.o, p.row, a.input);
      InsertOpens(s, a.pid, p.o, p.row);
    } else {
      hide Inserts;
      forall id, user, quest | IsOpenFor(Apply(s, a).rows, id, user, quest)
        ensures IsOpenFor(s.rows, id, user, quest)
      {
        OnlyInsertsOpen(s, a, id, user, quest);
      }
    }
  }

  /** No order has two open payments at any time of the run. */
  ghost predicate AlwaysOne(run: seq<Action>) { forall k :: 0 <= k <= |run| ==> OneOpen(At(run, k)) }

  /** No checkout inserts while a payment of its order is open. */
  predicate NeverOver(run: seq<Action>) { forall k :: 0 <= k < |run| ==> !InsertsOverOpen(At(run, k), run[k]) }

  lemma AlwaysLast(run: seq<Action>, n: nat)
    requires |run| == n + 1
    ensures AlwaysOne(run) <==> AlwaysOne(run[..n]) && OneOpen(Apply(At(run, n), run[n]))
    ensures AlwaysOne(run[..n]) ==> OneOpen(At(run, n))
  {
    hide OneOpen, Apply;
    AtNext(run, n);
    AtPrefix(run, n, n);
    hide At;
    if AlwaysOne(run) {
      forall k | 0 <= k <= n ensures OneOpen(At(run[..n], k)) { AtPrefix(run, n, k); }
    }
    if AlwaysOne(run[..n]) && OneOpen(At(run, n + 1)) {
      forall k | 0 <= k <= n ensures OneOpen(At(run, k)) { AtPrefix(run, n, k); }
    }
  }

  lemma NeverLast(run: seq<Action>, n: nat)
    requires |run| == n + 1
    ensures NeverOver(run) <==> NeverOver(run[..n]) && !InsertsOverOpen(At(run, n), run[n])
  {
    hide InsertsOverOpen, At;
    if NeverOver(run) {
      forall k | 0 <= k < n ensures !InsertsOverOpen(At(run[..n], k), run[..n][k]) { AtPrefix(run, n, k); }
    }
    if NeverOver(run[..n]) {
      forall k | 0 <= k < n ensures !InsertsOverOpen(At(run, k), run[k]) {
        AtPrefix(run, n, k);
        assert run[..n][k] == run[k];
      }
    }
  }

  /** No order ever has two open payments during a run exactly when no checkout of
      it inserts while a payment of its order is open. */
  lemma {:induction false} OneOpenExactly(run: seq<Action>)
    ensures AlwaysOne(run) <==> NeverOver(run)
    decreases |run|
  {
    hide Apply, Inv, OneOpen, InsertsOverOpen;
    if run == [] {
      NoneAtStart();
    } else {
      var n := |run| - 1;
      OneOpenExactly(run[..n]);
      AlwaysLast(run, n);
      NeverLast(run, n);
      EveryRunKeeps(run[..n]);
      hide AlwaysOne, NeverOver;
      if OneOpen(At(run, n)) { OneOpenKept(At(run, n), run[n]); }
    }
  }

  lemma NoneAtStart()
    ensures OneOpen(START)
  {}

  // ---- what the open payment at an insert tells ------------------------------------------

  /** Action `i` took the process past the check: nothing was open for its order
      then, and it has stood between the check and its insert ever since. */
  ghost predicate PassedAt(run: seq<Action>, i: nat, pid: nat, o: Order) {
    && i < |run| && run[i].Step? && run[i].pid == pid && pid in At(run, i).procs
    && At(run, i).procs[pid].FindOpen? && At(run, i).procs[pid].o == o && !HasOpen(At(run, i).rows, o.user, o.quest)
    && forall k :: i < k <= |run| ==>
         pid in At(run, k).procs && Opening(At(run, k).procs[pid]) && At(run, k).procs[pid].o == o
  }

  /** Only its own step at the check, with nothing open, takes a process past it. */
  lemma PassesTheCheck(s: State, a: Action, pid: nat)
    ensures pid in Apply(s, a).procs && Opening(Apply(s, a).procs[pid]) ==>
              var o := Apply(s, a).procs[pid].o;
              || (pid in s.procs && Opening(s.procs[pid]) && s.procs[pid].o == o)
              || (a.Step? && a.pid == pid && pid in s.procs && s.procs[pid].FindOpen? && s.procs[pid].o == o
                  && !HasOpen(s.rows, o.user, o.quest))
  {
    hide MaySave, Saved, CheckoutStep, SettleStep, HasOpen;
    if pid in s.procs && ((a.Step? || a.Crash?) ==> a.pid != pid) {
      OtherMoves(s, a, pid);
    } else if a.Step? && a.pid in s.procs {
      if a.pid == pid { StepPasses(s, pid, a.input); } else { OwnStep(s, a.pid, a.input); }
    }
  }

  lemma StepPasses(s: State, pid: nat, input: Input)
    requires pid in s.procs
    ensures var (p, t) := (s.procs[pid], Apply(s, Step(pid, input)));
            pid in t.procs && Opening(t.procs[pid]) ==>
              IsCheckout(p) && t.procs[pid].o == p.o
              && (Opening(p) || (p.FindOpen? && !HasOpen(s.rows, p.o.user, p.o.quest)))
  {
    hide CheckoutStep, SettleStep, HasOpen;
    if IsCheckout(s.procs[pid]) { CheckoutPasses(s, pid, input); } else { NeverPasses(s, pid, input); }
  }

  lemma CheckoutPasses(s: State, pid: nat, input: Input)
    requires pid in s.procs && IsCheckout(s.procs[pid])
    ensures var (p, t) := (s.procs[pid], CheckoutStep(s, pid, s.procs[pid], input));
            pid in t.procs && Opening(t.procs[pid]) ==>
              && t.procs[pid].o == p.o
              && (Opening(p) || (p.FindOpen? && !HasOpen(s.rows, p.o.user, p.o.quest)))
  {
    hide NextStop, RedeemNow, HasOpen, CreateGrant;
    var p := s.procs[pid];
    if Reads(p) || p.Settled? || p.Redirected? {
      ReadingPasses(s, p, input);
    } else if p.MockRedeem? {
      RedeemNowShape(s, pid, p.o, p.code, p.price, input);
    }
  }

  lemma ReadingPasses(s: State, p: Proc, input: Input)
    requires IsCheckout(p) && (Reads(p) || p.Settled? || p.Redirected?)
    ensures var q := NextStop(s, p, input);
            Opening(q) ==> q.o == p.o && (Opening(p) || (p.FindOpen? && !HasOpen(s.rows, p.o.user, p.o.quest)))
  {
    hide Quote, HasOpen, IsOpenFor;
  }

  lemma NeverPasses(s: State, pid: nat, input: Input)
    requires pid in s.procs && !IsCheckout(s.procs[pid])
    ensures var t := SettleStep(s, pid, s.procs[pid], input); pid in t.procs && !Opening(t.procs[pid])
  {
    hide Redeem, CreateGrant, SettleSucceeded, MarkCanceled, FetchRemote;
    if s.procs[pid].Fetch? { FetchPasses(s, s.procs[pid].job, input); }
  }

  lemma FetchPasses(s: State, job: Job, input: Input)
    ensures !Opening(FetchRemote(s, job, input))
  {}

  lemma {:induction false} Passed(run: seq<Action>, pid: nat) returns (i: nat)
    requires pid in Exec(START, run).procs && Opening(Exec(START, run).procs[pid])
    ensures PassedAt(run, i, pid, Exec(START, run).procs[pid].o)
    decreases |run|
  {
    hide Apply, HasOpen;
    var n := |run| - 1;
    assert run[..|run|] == run;
    var s := At(run, n);
    var o := Exec(START, run).procs[pid].o;
    if pid in s.procs && Opening(s.procs[pid]) && s.procs[pid].o == o {
      i := Passed(run[..n], pid);
      forall k | 0 <= k <= n ensures At(run[..n], k) == At(run, k) {
        assert run[..n][..k] == run[..k];
      }
      assert run[..n][i] == run[i];
    } else {
      PassesTheCheck(s, run[n], pid);
      i := n;
    }
  }

  /** A payment open now and not open then was inserted in between. */
  lemma {:induction false} OpenedBetween(run: seq<Action>, i: nat, id: string, user: string, quest: string) returns (j: nat)
    requires i <= |run| && IsOpenFor(Exec(START, run).rows, id, user, quest) && !IsOpenFor(At(run, i).rows, id, user, quest)
    ensures i <= j < |run| && Inserts(At(run, j), run[j])
    ensures var p := At(run, j).procs[run[j].pid]; p.o.user == user && p.o.quest == quest && p.row.id == id
    decreases |run|
  {
    hide Apply, Inv, IsOpenFor;
    assert run[..|run|] == run;
    var n := |run| - 1;
    assert i < |run|;
    var s := At(run, n);
    assert Exec(START, run) == Apply(s, run[n]);
    if IsOpenFor(s.rows, id, user, quest) {
      assert run[..n][..i] == run[..i];
      j := OpenedBetween(run[..n], i, id, user, quest);
      assert run[..n][..j] == run[..j];
    } else {
      j := n;
      if !Inserts(s, run[n]) { OnlyInsertsOpen(s, run[n], id, user, quest); }
      EveryRunKeeps(run[..n]);
      OpenedByInsert(s, run[n], id, user, quest);
    }
  }

  lemma OpenedByInsert(s: State, a: Action, id: string, user: string, quest: string)
    requires Inv(s) && Inserts(s, a) && IsOpenFor(Apply(s, a).rows, id, user, quest) && !IsOpenFor(s.rows, id, user, quest)
    ensures var p := s.procs[a.pid]; p.o.user == user && p.o.quest == quest && p.row.id == id
  {
    var p := s.procs[a.pid];
    InsertStep(s, a.pid, p.o, p.row, a.input);
    assert ProcOk(s, p);
    hide Apply, Inv;
  }

  /** A payment that is open when a checkout of its order inserts was inserted by
      another checkout of the order after this one had checked: the two overlapped. */
  lemma InsertedSinceTheCheck(run: seq<Action>, pid: nat, id: string) returns (i: nat, j: nat)
    requires pid in Exec(START, run).procs && Exec(START, run).procs[pid].Insert?
    requires var o := Exec(START, run).procs[pid].o; IsOpenFor(Exec(START, run).rows, id, o.user, o.quest)
    ensures PassedAt(run, i, pid, Exec(START, run).procs[pid].o)
    ensures i < j < |run| && Inserts(At(run, j), run[j]) && run[j].pid != pid && Overlap(At(run, j))
    ensures var (o, p) := (Exec(START, run).procs[pid].o, At(run, j).procs[run[j].pid]);
            p.o.user == o.user && p.o.quest == o.quest && p.row.id == id
  {
    hide Apply, IsOpenFor;
    var o := Exec(START, run).procs[pid].o;
    i := Passed(run, pid);
    assert !IsOpenFor(At(run, i).rows, id, o.user, o.quest) by { NotAmong(At(run, i).rows, id, o.user, o.quest); }
    j := OpenedBetween(run, i, id, o.user, o.quest);
    var q := run[j].pid;
    if q == pid {
      AfterInsert(run, j);
      assert false;
    }
    assert pid in At(run, j).procs && Opening(At(run, j).procs[pid]) && Opening(At(run, j).procs[q]);
  }

  lemma AfterInsert(run: seq<Action>, j: nat)
    requires j < |run| && Inserts(At(run, j), run[j])
    ensures run[j].pid in At(run, j + 1).procs && At(run, j + 1).procs[run[j].pid].Redirected?
  {
    hide Apply;
    var p := At(run, j).procs[run[j].pid];
    InsertStep(At(run, j), run[j].pid, p.o, p.row, run[j].input);
    AtNext(run, j);
  }

  lemma NotAmong(rows: map<string, Row>, id: string, user: string, quest: string)
    requires !HasOpen(rows, user, quest)
    ensures !IsOpenFor(rows, id, user, quest)
  {}

  /** As long as no two checkouts of one player and quest overlap, a player never
      has two open payments for one quest. */
  lemma OneOpenPayment(run: seq<Action>)
    requires forall k :: 0 <= k <= |run| ==> !Overlap(At(run, k))
    ensures AlwaysOne(run)
  {
    hide Apply, OneOpen, Overlap, IsOpenFor;
    forall k | 0 <= k < |run| ensures !InsertsOverOpen(At(run, k), run[k]) {
      if InsertsOverOpen(At(run, k), run[k]) {
        var o := At(run, k).procs[run[k].pid].o;
        var id :| id in At(run, k).rows && IsOpenFor(At(run, k).rows, id, o.user, o.quest);
        var i, j := InsertedSinceTheCheck(run[..k], run[k].pid, id);
        AtPrefix(run, k, j);
        assert false;
      }
    }
    OneOpenExactly(run);
  }

  // ---- where the promise fails -------------------------------------------------------

  /** Two checkouts of one order that both stand before their insert leave two open
      payments behind, whatever else has happened so far. */
  lemma OverlapDoubles(run: seq<Action>, p: nat, q: nat, i: Input, j: Input)
    requires var s := Exec(START, run);
             && p in s.procs && q in s.procs && p != q && s.procs[p].Insert? && s.procs[q].Insert?
             && s.procs[p].o.user == s.procs[q].o.user && s.procs[p].o.quest == s.procs[q].o.quest
    ensures !OneOpen(Exec(START, run + [Step(p, i), Step(q, j)]))
  {
    hide Apply, Inv, OneOpen;
    EveryRunKeeps(run);
    var s := Exec(START, run);
    Inserting(s, p, q);
    TwoMore(START, run, Step(p, i), Step(q, j));
    TwoInserts(s, p, q, i, j);
  }

  /** What two checkouts at their insert are about to add: two open rows. */
  lemma Inserting(s: State, p: nat, q: nat)
    requires Inv(s) && p in s.procs && q in s.procs && p != q && s.procs[p].Insert? && s.procs[q].Insert?
    ensures s.procs[p].row.id != s.procs[q].row.id
    ensures forall r :: r in {p, q} ==>
              var (o, row) := (s.procs[r].o, s.procs[r].row);
              row.user == o.user && row.quest == o.quest && row.status == Pending
  {
    hide RowOk, ChargesOk, RowsOk, GrantsOk, CouponsOk, HeldOk;
    assert ProcOk(s, s.procs[p]) && ProcOk(s, s.procs[q]);
  }

  lemma TwoInserts(s: State, p: nat, q: nat, i: Input, j: Input)
    requires p in s.procs && q in s.procs && p != q && s.procs[p].Insert? && s.procs[q].Insert?
    requires s.procs[p].o.user == s.procs[q].o.user && s.procs[p].o.quest == s.procs[q].o.quest
    requires s.procs[p].row.id != s.procs[q].row.id
    requires forall r :: r in {p, q} ==>
               var (o, row) := (s.procs[r].o, s.procs[r].row);
               row.user == o.user && row.quest == o.quest && row.status == Pending
    ensures !OneOpen(Apply(Apply(s, Step(p, i)), Step(q, j)))
  {
    var a, b := s.procs[p].row, s.procs[q].row;
    InsertStep(s, p, s.procs[p].o, a, i);
    InsertStep(Apply(s, Step(p, i)), q, s.procs[q].o, b, j);
    var t := Apply(Apply(s, Step(p, i)), Step(q, j));
    hide Apply;
    assert t.rows == s.rows[a.id := a][b.id := b];
    assert IsOpenFor(t.rows, a.id, a.user, a.quest) && IsOpenFor(t.rows, b.id, b.user, b.quest);
  }

  lemma TwoMore(s: State, run: seq<Action>, a: Action, b: Action)
    ensures Exec(s, run + [a, b]) == Apply(Apply(Exec(s, run), a), b)
  {
    hide Apply;
    assert (run + [a, b])[..|run| + 1] == run + [a];
    assert (run + [a])[..|run|] == run;
  }

  const ORDER := Order("u", "q", NoCoupon, Yookassa, false)

  function Answers(token: string): Input { Input("", "", true, true, token, token, Some(""), "", false) }

  function Repeated(a: Action, n: nat): seq<Action> { if n == 0 then [] else Repeated(a, n - 1) + [a] }

  function Five(pid: nat, token: string): seq<Action> { Repeated(Step(pid, Answers(token)), 5) }

  predicate Ready(s: State) {
    && s.rows == map[] && s.grants == map[] && "q" in s.listings && s.listings["q"] == Some(100)
    && s.tokens == s.gateway.Keys
  }

  /** Left alone on an empty store, a checkout runs up to its insert. */
  lemma UpToTheInsert(s: State, pid: nat, token: string)
    requires Ready(s) && token !in s.tokens && pid in s.procs && s.procs[pid] == Arrived(ORDER)
    ensures var t := Exec(s, Five(pid, token));
            && Ready(t) && t.tokens == s.tokens + {token} && pid in t.procs && t.procs == s.procs[pid := t.procs[pid]]
            && t.procs[pid].Insert? && t.procs[pid].o == ORDER
  {
    hide Apply, Put, Five, Exec;
    var a := Step(pid, Answers(token));
    var s1 := Put(s, pid, Listing(ORDER));
    var s2 := Put(s1, pid, Gate(ORDER, Some(100)));
    var s3 := Put(s2, pid, FindOpen(ORDER, Some(100)));
    var s4 := Put(s3, pid, Create(ORDER, None, Charge(100, 100, None)));
    assert Apply(s, a) == s1 && Apply(s1, a) == s2 && Apply(s2, a) == s3 && Apply(s3, a) == s4 by {
      ReadingSteps(s, pid, token);
    }
    FiveSteps(s, pid, token);
    assert Exec(s, Five(pid, token)) == Apply(s4, a);
    PutTwice(s, pid, Listing(ORDER), Gate(ORDER, Some(100)));
    PutTwice(s, pid, Gate(ORDER, Some(100)), FindOpen(ORDER, Some(100)));
    PutTwice(s, pid, FindOpen(ORDER, Some(100)), Create(ORDER, None, Charge(100, 100, None)));
    MintingStep(s, pid, token);
  }

  lemma OnceMore(s: State, a: Action, n: nat)
    ensures Exec(s, Repeated(a, n + 1)) == Apply(Exec(s, Repeated(a, n)), a)
  {
    hide Apply, Exec;
    Then(s, Repeated(a, n), a);
  }

  lemma FiveSteps(s: State, pid: nat, token: string)
    ensures var a := Step(pid, Answers(token));
            Exec(s, Five(pid, token)) == Apply(Apply(Apply(Apply(Apply(s, a), a), a), a), a)
  {
    var a := Step(pid, Answers(token));
    assert Exec(s, Repeated(a, 0)) == s;
    hide Apply, Answers, Exec, Repeated;
    OnceMore(s, a, 0);
    OnceMore(s, a, 1);
    OnceMore(s, a, 2);
    OnceMore(s, a, 3);
    OnceMore(s, a, 4);
  }

  lemma PutTwice(s: State, pid: nat, p: Proc, q: Proc)
    ensures Put(Put(s, pid, p), pid, q) == Put(s, pid, q)
  {}

  lemma ReadingStep(s: State, pid: nat, p: Proc, input: Input, q: Proc)
    requires pid in s.procs && s.procs[pid] == p && (p.Arrived? || p.Listing? || p.Gate? || p.FindOpen?)
    requires NextStop(s, p, input) == q
    ensures Apply(s, Step(pid, input)) == Put(s, pid, q)
  {
    hide NextStop;
  }

  lemma ReadingSteps(s: State, pid: nat, token: string)
    requires Ready(s) && pid in s.procs && s.procs[pid] == Arrived(ORDER)
    ensures var a := Step(pid, Answers(token));
            var s1 := Put(s, pid, Listing(ORDER));
            var s2 := Put(s1, pid, Gate(ORDER, Some(100)));
            var s3 := Put(s2, pid, FindOpen(ORDER, Some(100)));
            && Apply(s, a) == s1 && Apply(s1, a) == s2 && Apply(s2, a) == s3
            && Apply(s3, a) == Put(s3, pid, Create(ORDER, None, Charge(100, 100, None)))
  {
    hide Apply, HasOpen, Quote;
    var input := Answers(token);
    var s1 := Put(s, pid, Listing(ORDER));
    ReadingStep(s, pid, Arrived(ORDER), input, Listing(ORDER));
    var s2 := Put(s1, pid, Gate(ORDER, Some(100)));
    ReadingStep(s1, pid, Listing(ORDER), input, Gate(ORDER, Some(100)));
    var s3 := Put(s2, pid, FindOpen(ORDER, Some(100)));
    ReadingStep(s2, pid, Gate(ORDER, Some(100)), input, FindOpen(ORDER, Some(100)));
    NothingOpen("u", "q");
    ReadingStep(s3, pid, FindOpen(ORDER, Some(100)), input, Create(ORDER, None, Charge(100, 100, None)));
  }

  lemma MintingStep(s: State, pid: nat, token: string)
    requires Ready(s) && token !in s.tokens
    ensures var u := Put(s, pid, Create(ORDER, None, Charge(100, 100, None)));
            var t := Apply(u, Step(pid, Answers(token)));
            && Ready(t) && t.tokens == s.tokens + {token} && pid in t.procs && t.procs == s.procs[pid := t.procs[pid]]
            && t.procs[pid].Insert? && t.procs[pid].o == ORDER
  {}

  lemma NothingOpen(user: string, quest: string)
    ensures !HasOpen(map[], user, quest)
  {}

  function Opened(): seq<Action> {
    [Publish("q", Some(100)), Arrive(0, "u", "q", NoCoupon, Yookassa), Arrive(1, "u", "q", NoCoupon, Yookassa)]
  }

  function DoubleRun(): seq<Action> {
    Opened() + Five(0, "a") + Five(1, "b") + [Step(0, Answers("")), Step(1, Answers(""))]
  }

  lemma OpenedState()
    ensures var s := Exec(START, Opened());
            Ready(s) && s.tokens == {} && s.procs == map[0 := Arrived(ORDER), 1 := Arrived(ORDER)]
  {
    var r := Opened();
    assert r[..2][..1][..0] == [] && r[..2][..1] == [r[0]] && r[..2] == [r[0], r[1]];
    assert Exec(START, []) == START;
    assert Exec(START, [r[0]]) == Apply(START, r[0]);
    assert Exec(START, r[..2]) == Apply(Apply(START, r[0]), r[1]);
  }

  /** Two browser tabs are enough: the check for an open payment and the insert
      are separate steps, and nothing forbids a second open row. */
  lemma TwoTabsTwoPayments()
    ensures !OneOpen(Exec(START, DoubleRun()))
  {
    OpenedState();
    hide Apply, Exec, OneOpen, Opened, Five, Answers, Ready;
    ExecConcat(START, Opened(), Five(0, "a"));
    UpToTheInsert(Exec(START, Opened()), 0, "a");
    ExecConcat(START, Opened() + Five(0, "a"), Five(1, "b"));
    UpToTheInsert(Exec(START, Opened() + Five(0, "a")), 1, "b");
    OverlapDoubles(Opened() + Five(0, "a") + Five(1, "b"), 0, 1, Answers(""), Answers(""));
  }
}
