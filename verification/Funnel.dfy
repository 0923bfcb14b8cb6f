/** The funnel of a quest: how many attempts reached each step. */
module Funnel {
  import opened Prelude
  import opened Facts

  /** Every attempt reaches the start; a later position is reached by completing
      some step at or beyond the one before it. */
  ghost predicate ReachedBy(log: seq<Fact>, i: int) {
    i == 0 || exists step :: SomeStep(log, Completes, step) && step >= i - 1
  }

  /** A position after the start is reached by an event that completes the step before it, or
      any later one. */
  lemma ReachedByEvent(log: seq<Fact>, i: int)
    requires i > 0
    ensures ReachedBy(log, i) <==>
            exists f :: f in log && f.step + 1 >= i
                     && (f.kind == PhysicalConfirmed || f.kind == AttemptCompleted || f.kind == TaskSkipped
                         || (f.kind == AnswerSubmitted && f.correct))
  {
    if ReachedBy(log, i) {
      var step :| SomeStep(log, Completes, step) && step >= i - 1;
      var f :| f in log && Completes(f) && f.step == step;
      assert f in log && f.step + 1 >= i;
    }
    if f :| f in log && f.step + 1 >= i
            && (f.kind == PhysicalConfirmed || f.kind == AttemptCompleted || f.kind == TaskSkipped
                || (f.kind == AnswerSubmitted && f.correct)) {
      assert Completes(f);
      assert SomeStep(log, Completes, f.step);
    }
  }

  ghost function CountReached(logs: seq<seq<Fact>>, i: int): nat {
    if logs == [] then 0
    else CountReached(logs[..|logs| - 1], i) + (if ReachedBy(logs[|logs| - 1], i) then 1 else 0)
  }

  function MaxOf(s: seq<int>): (m: Option<int>)
    ensures m.None? <==> s == []
    ensures m.Some? ==> m.value in s && forall x :: x in s ==> x <= m.value
  {
    if s == [] then None
    else
      assert s == [s[0]] + s[1..];
      match MaxOf(s[1..])
      case None => Some(s[0])
      case Some(m) => Some(if s[0] > m then s[0] else m)
  }

  /** The last position an attempt counts for, cut to the funnel's length. */
  function Top(completed: seq<int>, len: nat): (top: nat)
    requires len > 0
    ensures top < len
  {
    match MaxOf(completed)
    case Some(k) => if k < 0 then 0 else if k + 1 < len - 1 then k + 1 else len - 1
    case None => 0
  }

  lemma TopIsReach(log: seq<Fact>, len: nat, i: nat)
    requires i < len
    ensures i <= Top(StateOf(log).completed, len) <==> ReachedBy(log, i)
  {
    StateSets(log);
    hide StateOf, SomeStep, Increasing;
    TopReaches(log, StateOf(log).completed, len, i);
  }

  lemma TopReaches(log: seq<Fact>, completed: seq<int>, len: nat, i: nat)
    requires i < len && forall step :: step in completed <==> SomeStep(log, Completes, step)
    ensures i <= Top(completed, len) <==> ReachedBy(log, i)
  {
    hide SomeStep;
    var m := MaxOf(completed);
    if i > 0 && ReachedBy(log, i) {
      var step :| SomeStep(log, Completes, step) && step >= i - 1;
      assert step in completed;
    }
    if i > 0 && i <= Top(completed, len) {
      assert SomeStep(log, Completes, m.value) && m.value >= i - 1;
    }
  }

  /** Count every attempt at every position up to its top one; steps beyond the
      funnel, or below it, overrun nothing. */
  method FunnelCounts(len: nat, logs: seq<seq<Fact>>) returns (reached: seq<nat>)
    ensures |reached| == len
    ensures forall i :: 0 <= i < len ==> reached[i] == CountReached(logs, i)
  {
    var slots := new nat[len](_ => 0);
    if len == 0 { return []; }
    var n := 0;
    while n < |logs|
      invariant 0 <= n <= |logs|
      invariant forall i :: 0 <= i < len ==> slots[i] == CountReached(logs[..n], i)
    {
      assert logs[..n + 1][..n] == logs[..n];
      var state := ProjectState(logs[n]);
      hide StateOf, ReachedBy, Top;
      var top := Top(state.completed, len);
      forall i: nat | i < len ensures i <= top <==> ReachedBy(logs[n], i) {
        TopIsReach(logs[n], len, i);
      }
      var i := 0;
      while i <= top
        invariant 0 <= i <= top + 1
        invariant forall j :: 0 <= j < len ==> slots[j] == CountReached(logs[..n], j) + (if j < i then 1 else 0)
      {
        slots[i] := slots[i] + 1;
        i := i + 1;
      }
      n := n + 1;
    }
    assert logs[..n] == logs;
    return slots[..];
  }

  lemma {:induction false} AllStart(logs: seq<seq<Fact>>)
    ensures CountReached(logs, 0) == |logs|
  {
    if logs != [] { AllStart(logs[..|logs| - 1]); }
  }

  lemma {:induction false} FewerGoFurther(logs: seq<seq<Fact>>, i: nat)
    ensures CountReached(logs, i + 1) <= CountReached(logs, i)
  {
    hide SomeStep;
    if logs != [] { FewerGoFurther(logs[..|logs| - 1], i); }
  }

  /** The funnel starts at the number of attempts and never widens. */
  lemma FunnelShape(logs: seq<seq<Fact>>, reached: seq<nat>)
    requires forall i :: 0 <= i < |reached| ==> reached[i] == CountReached(logs, i)
    ensures reached != [] ==> reached[0] == |logs|
    ensures forall i, j :: 0 <= i <= j < |reached| ==> reached[j] <= reached[i]
  {
    hide CountReached;
    AllStart(logs);
    forall i, j | 0 <= i <= j < |reached| ensures reached[j] <= reached[i] {
      Narrows(logs, i, j);
    }
  }

  lemma {:induction false} Narrows(logs: seq<seq<Fact>>, i: nat, j: nat)
    requires i <= j
    ensures CountReached(logs, j) <= CountReached(logs, i)
    decreases j
  {
    hide CountReached;
    if i < j {
      Narrows(logs, i, j - 1);
      FewerGoFurther(logs, j - 1);
    }
  }

  ghost function BagOf(log: seq<Fact>): multiset<Fact> { multiset(log) }

  function One(b: bool): int { if b then 1 else 0 }

  ghost predicate BagReaches(bag: multiset<Fact>, i: int) {
    i == 0 || exists f :: f in bag && Completes(f) && f.step >= i - 1
  }

  lemma ReachOfBag(log: seq<Fact>, i: int)
    ensures ReachedBy(log, i) <==> BagReaches(BagOf(log), i)
  {
    if ReachedBy(log, i) && i != 0 {
      var step :| SomeStep(log, Completes, step) && step >= i - 1;
      var f :| f in log && Completes(f) && f.step == step;
      assert f in BagOf(log);
    }
    if BagReaches(BagOf(log), i) && i != 0 {
      var f :| f in BagOf(log) && Completes(f) && f.step >= i - 1;
      assert SomeStep(log, Completes, f.step);
    }
  }

  lemma {:induction false} CountIsSum(logs: seq<seq<Fact>>, i: int, f: multiset<Fact> -> int)
    requires forall bag :: f(bag) == One(BagReaches(bag, i))
    ensures CountReached(logs, i) == Sum(Map(f, Map(BagOf, logs)))
  {
    if logs != [] {
      var (rest, log) := (logs[..|logs| - 1], logs[|logs| - 1]);
      CountIsSum(rest, i, f);
      hide BagReaches, ReachedBy;
      assert logs == rest + [log];
      MapConcat(BagOf, rest, [log]);
      MapConcat(f, Map(BagOf, rest), Map(BagOf, [log]));
      assert Map(f, Map(BagOf, [log])) == [f(BagOf(log))];
      SumConcat(Map(f, Map(BagOf, rest)), [f(BagOf(log))]);
      ReachOfBag(log, i);
    }
  }

  /** The funnel depends neither on the order of the attempts nor on the order of
      the events within them. */
  lemma FunnelOrderFree(a: seq<seq<Fact>>, b: seq<seq<Fact>>, i: int)
    requires multiset(Map(BagOf, a)) == multiset(Map(BagOf, b))
    ensures CountReached(a, i) == CountReached(b, i)
  {
    var f := (bag: multiset<Fact>) => One(BagReaches(bag, i));
    CountIsSum(a, i, f);
    CountIsSum(b, i, f);
    MapBag(f, Map(BagOf, a), Map(BagOf, b));
    SumOfBag(Map(f, Map(BagOf, a)), Map(f, Map(BagOf, b)));
  }
}
