/** How many redemptions of a coupon led to a start, a completion, a rating or a further
    purchase. Only those that started can have completed or rated. */
module CouponFunnel {
  import opened Prelude
  import opened Calendar
  import opened Coupons
  import P = Payments

  datatype Progress = Progress(user: string, quest: string, finished: bool, rated: bool)

  datatype Funnel = Funnel(scans: nat, got: nat, started: nat, finished: nat, rated: nat, bought: nat)

  const PURCHASE_WINDOW := 30 * DAY

  /** `later` falls between `start` and thirty days after it. */
  predicate InPurchaseWindow(start: string, later: string) {
    match (ParseRfc3339Utc(start), ParseRfc3339Utc(later))
    case (Some(s), Some(l)) => s <= l <= s + PURCHASE_WINDOW
    case _ => false
  }

  /** On the stamps the stores write, the window is one of instants: both ends
      belong to it. */
  lemma WindowOfStamps(start: nat, later: nat)
    requires start < SPAN_END && later < SPAN_END
    ensures InPurchaseWindow(Rfc3339FromUnix(start), Rfc3339FromUnix(later)) <==> start <= later <= start + 30 * 24 * 3600
  {
    hide ParseRfc3339Utc, Rfc3339FromUnix;
    TimestampRoundTrip(start);
    TimestampRoundTrip(later);
  }

  /** The progress of the pair; of several rows the last counts. */
  function ProgressOf(rows: seq<Progress>, user: string, quest: string): Option<Progress> {
    if rows == [] then None
    else
      var last := rows[|rows| - 1];
      if last.user == user && last.quest == quest then Some(last) else ProgressOf(rows[..|rows| - 1], user, quest)
  }

  /** A payment grant of the same player for a different quest falls within thirty days
      after the redemption. */
  predicate Bought(grants: seq<P.Grant>, r: Redemption) {
    exists g :: g in grants && g.source == P.Payment && g.user == r.user && g.quest != r.quest
             && InPurchaseWindow(r.at, g.at)
  }

  datatype Step = Started | Finished | Rated | BoughtMore

  predicate Took(step: Step, progress: seq<Progress>, grants: seq<P.Grant>, r: Redemption) {
    var p := ProgressOf(progress, r.user, r.quest);
    match step
    case Started => p.Some?
    case Finished => p.Some? && p.value.finished
    case Rated => p.Some? && p.value.rated
    case BoughtMore => Bought(grants, r)
  }

  /** Row `i` is the last one of the pair. */
  ghost predicate LastRow(rows: seq<Progress>, user: string, quest: string, i: nat) {
    && i < |rows| && rows[i].user == user && rows[i].quest == quest
    && forall j :: i < j < |rows| ==> !(rows[j].user == user && rows[j].quest == quest)
  }

  lemma {:induction false} ProgressIsLast(rows: seq<Progress>, user: string, quest: string)
    ensures match ProgressOf(rows, user, quest)
            case None => forall j :: 0 <= j < |rows| ==> !(rows[j].user == user && rows[j].quest == quest)
            case Some(p) => exists i: nat :: LastRow(rows, user, quest, i) && rows[i] == p
  {
    if rows != [] {
      var n := |rows| - 1;
      ProgressIsLast(rows[..n], user, quest);
      if rows[n].user == user && rows[n].quest == quest {
        assert LastRow(rows, user, quest, n);
      } else if ProgressOf(rows[..n], user, quest).Some? {
        var i: nat :| LastRow(rows[..n], user, quest, i) && rows[..n][i] == ProgressOf(rows[..n], user, quest).value;
        assert LastRow(rows, user, quest, i);
      }
    }
  }

  /** What each step asks of the redeeming player: a row of progress, one that says completed
      or rated, a payment for another quest within thirty days. */
  lemma StepsTaken(progress: seq<Progress>, grants: seq<P.Grant>, r: Redemption)
    ensures Took(Started, progress, grants, r) <==> exists i: nat :: LastRow(progress, r.user, r.quest, i)
    ensures Took(Finished, progress, grants, r) <==> exists i: nat :: LastRow(progress, r.user, r.quest, i) && progress[i].finished
    ensures Took(Rated, progress, grants, r) <==> exists i: nat :: LastRow(progress, r.user, r.quest, i) && progress[i].rated
    ensures Took(BoughtMore, progress, grants, r) <==>
            exists g :: g in grants && g.source == P.Payment && g.user == r.user && g.quest != r.quest
                     && InPurchaseWindow(r.at, g.at)
  {
    hide InPurchaseWindow, ProgressOf;
    ProgressIsLast(progress, r.user, r.quest);
  }

  /** How many of the invited players took the step. */
  function Count(step: Step, log: seq<Redemption>, progress: seq<Progress>, grants: seq<P.Grant>): nat {
    if log == [] then 0
    else
      Count(step, log[..|log| - 1], progress, grants)
      + (if Took(step, progress, grants, log[|log| - 1]) then 1 else 0)
  }

  method ByPair(progress: seq<Progress>) returns (table: map<(string, string), Progress>)
    ensures forall user, quest ::
              ProgressOf(progress, user, quest) == if (user, quest) in table then Some(table[(user, quest)]) else None
  {
    table := map[];
    var i := 0;
    while i < |progress|
      invariant 0 <= i <= |progress|
      invariant forall user, quest ::
                  ProgressOf(progress[..i], user, quest) == if (user, quest) in table then Some(table[(user, quest)]) else None
    {
      assert progress[..i + 1][..i] == progress[..i];
      table := table[(progress[i].user, progress[i].quest) := progress[i]];
      i := i + 1;
    }
    assert progress[..i] == progress;
  }

  /** The payments of each player, in the order of the grants. */
  method PaidBy(grants: seq<P.Grant>) returns (paid: map<string, seq<P.Grant>>)
    ensures forall user, g :: (user in paid && g in paid[user]) <==> (g in grants && g.source == P.Payment && g.user == user)
  {
    paid := map[];
    var i := 0;
    while i < |grants|
      invariant 0 <= i <= |grants|
      invariant forall user, g ::
                  (user in paid && g in paid[user]) <==> (g in grants[..i] && g.source == P.Payment && g.user == user)
    {
      var g := grants[i];
      assert grants[..i + 1] == grants[..i] + [g];
      if g.source == P.Payment {
        paid := paid[g.user := (if g.user in paid then paid[g.user] else []) + [g]];
      }
      i := i + 1;
    }
    assert grants[..i] == grants;
  }

  method PaidInWindow(grants: seq<P.Grant>, r: Redemption) returns (found: bool)
    ensures found <==> exists g :: g in grants && g.quest != r.quest && InPurchaseWindow(r.at, g.at)
  {
    hide InPurchaseWindow;
    var i := 0;
    while i < |grants|
      invariant 0 <= i <= |grants|
      invariant forall j :: 0 <= j < i ==> !(grants[j].quest != r.quest && InPurchaseWindow(r.at, grants[j].at))
    {
      if grants[i].quest != r.quest && InPurchaseWindow(r.at, grants[i].at) { return true; }
      i := i + 1;
    }
    return false;
  }

  method BoughtLater(paid: map<string, seq<P.Grant>>, ghost grants: seq<P.Grant>, r: Redemption) returns (bought: bool)
    requires forall user, g :: (user in paid && g in paid[user]) <==> (g in grants && g.source == P.Payment && g.user == user)
    ensures bought <==> Bought(grants, r)
  {
    hide InPurchaseWindow;
    bought := false;
    if r.user in paid { bought := PaidInWindow(paid[r.user], r); }
  }

  /** One pass over the redemptions, against one table of progress and one of
      payments. */
  method Fold(scans: nat, log: seq<Redemption>, progress: seq<Progress>, grants: seq<P.Grant>) returns (f: Funnel)
    ensures f.scans == scans && f.got == |log|
    ensures f.started == Count(Started, log, progress, grants) && f.finished == Count(Finished, log, progress, grants)
    ensures f.rated == Count(Rated, log, progress, grants) && f.bought == Count(BoughtMore, log, progress, grants)
    ensures f.finished <= f.started <= f.got && f.rated <= f.started && f.bought <= f.got
  {
    hide InPurchaseWindow, ProgressOf, Bought;
    var table := ByPair(progress);
    var paid := PaidBy(grants);
    f := Funnel(scans, 0, 0, 0, 0, 0);
    var i := 0;
    while i < |log|
      invariant 0 <= i <= |log| && f.scans == scans && f.got == i
      invariant f.started == Count(Started, log[..i], progress, grants)
      invariant f.finished == Count(Finished, log[..i], progress, grants)
      invariant f.rated == Count(Rated, log[..i], progress, grants)
      invariant f.bought == Count(BoughtMore, log[..i], progress, grants)
      invariant f.finished <= f.started <= f.got && f.rated <= f.started && f.bought <= f.got
    {
      var r := log[i];
      assert log[..i + 1][..i] == log[..i];
      f := f.(got := f.got + 1);
      if (r.user, r.quest) in table {
        var p := table[(r.user, r.quest)];
        f := f.(started := f.started + 1,
                finished := f.finished + if p.finished then 1 else 0,
                rated := f.rated + if p.rated then 1 else 0);
      }
      var bought := BoughtLater(paid, grants, r);
      if bought { f := f.(bought := f.bought + 1); }
      i := i + 1;
    }
    assert log[..i] == log;
  }
}
