/** Player events: the natural key that identifies one, the projections folded from
    a log of them, and what a log deduplicated by that key makes independent of
    how the events were delivered. */
module Facts {
  import opened Prelude

  datatype Kind =
    | PhysicalConfirmed | AnswerSubmitted | GiftClaimed | HintPurchased | CompletionBonus | AttemptCompleted
    | FeedbackReported | NavigatorUsed | QuestRated | RatingBonus | CommentBonus | TaskSkipped

  datatype Fact = Fact(kind: Kind, step: int, submitted: Option<string>, correct: bool, coins: int,
                       note: Option<string>, device: string)

  /** What makes two reports the same event: everything but the device and the
      client's verdict. */
  datatype Key = Key(kind: Kind, step: int, submitted: Option<string>, coins: int, note: Option<string>)

  function NaturalKey(f: Fact): Key { Key(f.kind, f.step, f.submitted, f.coins, f.note) }

  function Keys(log: seq<Fact>): seq<Key> { Map(NaturalKey, log) }

  predicate OncePerQuest(kind: Kind) { kind in {CompletionBonus, RatingBonus, CommentBonus} }

  // ---- projections ---------------------------------------------------------------

  function CoinsOf(k: Key): int { k.coins }

  /** The plain signed sum: it may be negative and stays so. */
  function ProjectBalance(log: seq<Fact>): int { Sum(Map(CoinsOf, Keys(log))) }

  predicate Completes(f: Fact) {
    f.kind == PhysicalConfirmed || f.kind == AttemptCompleted || f.kind == TaskSkipped
    || (f.kind == AnswerSubmitted && f.correct)
  }

  predicate Reveals(f: Fact) { f.kind == HintPurchased }

  /** The steps of the events that pass, in log order. */
  function StepsWhere(log: seq<Fact>, passes: Fact -> bool): seq<int> {
    if log == [] then []
    else
      var f := log[|log| - 1];
      StepsWhere(log[..|log| - 1], passes) + (if passes(f) then [f.step] else [])
  }

  datatype ProjectedState = ProjectedState(completed: seq<int>, balance: int, hints: seq<int>)

  function StepSet(log: seq<Fact>, passes: Fact -> bool): seq<int> { Dedup(Sort(StepsWhere(log, passes), IntLe)) }

  function StateOf(log: seq<Fact>): ProjectedState {
    ProjectedState(StepSet(log, Completes), ProjectBalance(log), StepSet(log, Reveals))
  }

  /** The loop of the projection: collect, sort, collapse. */
  method ProjectState(log: seq<Fact>) returns (state: ProjectedState)
    ensures state == StateOf(log)
  {
    hide Sort, Dedup;
    var completed, hints := [], [];
    var i := 0;
    while i < |log|
      invariant 0 <= i <= |log|
      invariant completed == StepsWhere(log[..i], Completes) && hints == StepsWhere(log[..i], Reveals)
    {
      assert log[..i + 1][..i] == log[..i];
      match log[i].kind {
        case PhysicalConfirmed => completed := completed + [log[i].step];
        case AttemptCompleted => completed := completed + [log[i].step];
        case TaskSkipped => completed := completed + [log[i].step];
        case AnswerSubmitted => if log[i].correct { completed := completed + [log[i].step]; }
        case HintPurchased => hints := hints + [log[i].step];
        case _ =>
      }
      i := i + 1;
    }
    assert log[..i] == log;
    completed, hints := Sort(completed, IntLe), Sort(hints, IntLe);
    completed, hints := Dedup(completed), Dedup(hints);
    state := ProjectedState(completed, ProjectBalance(log), hints);
  }

  predicate Increasing(s: seq<int>) { forall i, j :: 0 <= i < j < |s| ==> s[i] < s[j] }

  predicate SomeStep(log: seq<Fact>, passes: Fact -> bool, step: int) {
    exists f :: f in log && passes(f) && f.step == step
  }

  lemma {:induction false} StepsWhereMembers(log: seq<Fact>, passes: Fact -> bool, step: int)
    ensures step in StepsWhere(log, passes) <==> SomeStep(log, passes, step)
  {
    if log != [] {
      var n := |log| - 1;
      StepsWhereMembers(log[..n], passes, step);
      assert log == log[..n] + [log[n]];
    }
  }

  lemma StepSetOf(log: seq<Fact>, passes: Fact -> bool, steps: seq<int>)
    requires steps == StepSet(log, passes)
    ensures Increasing(steps) && forall step :: step in steps <==> SomeStep(log, passes, step)
  {
    var all := StepsWhere(log, passes);
    IntOrder(all);
    SortedOnce(all, Sort(all, IntLe), steps, IntLe);
    assert Increasing(steps);
    forall step ensures step in steps <==> SomeStep(log, passes, step) {
      StepsWhereMembers(log, passes, step);
    }
  }

  lemma IncreasingUnique(s: seq<int>, t: seq<int>)
    requires Increasing(s) && Increasing(t) && SameMembers(s, t)
    ensures s == t
  {
    IntOrder(s);
    SameSets(s, s, t, IntLe);
  }

  /** The projected sets are strictly increasing and hold exactly the steps the log
      completes and the steps it reveals. */
  lemma StateSets(log: seq<Fact>)
    ensures var s := StateOf(log);
            && Increasing(s.completed) && (forall step :: step in s.completed <==> SomeStep(log, Completes, step))
            && Increasing(s.hints) && (forall step :: step in s.hints <==> SomeStep(log, Reveals, step))
  {
    StepSetOf(log, Completes, StepSet(log, Completes));
    StepSetOf(log, Reveals, StepSet(log, Reveals));
  }

  /** A step is completed by an event of it that confirms presence, completes the attempt or
      skips the task, or by a right answer, and by nothing else; hints are what was bought. */
  lemma CompletedByKinds(log: seq<Fact>, step: int)
    ensures step in StateOf(log).completed <==>
            exists f :: f in log && f.step == step
                     && match f.kind
                        case PhysicalConfirmed => true
                        case AttemptCompleted => true
                        case TaskSkipped => true
                        case AnswerSubmitted => f.correct
                        case _ => false
    ensures step in StateOf(log).hints <==> exists f :: f in log && f.step == step && f.kind == HintPurchased
  {
    StateSets(log);
    hide StateOf;
    if SomeStep(log, Completes, step) {
      var f :| f in log && Completes(f) && f.step == step;
    }
    if SomeStep(log, Reveals, step) {
      var f :| f in log && Reveals(f) && f.step == step;
    }
    if f :| f in log && f.step == step && f.kind == HintPurchased { assert Reveals(f); }
    if f :| f in log && f.step == step && (f.kind in {PhysicalConfirmed, AttemptCompleted, TaskSkipped}
                                           || (f.kind == AnswerSubmitted && f.correct)) {
      assert Completes(f);
    }
  }

  /** Every event moves the balance by its coins, up or down. */
  lemma BalanceMoves(log: seq<Fact>, f: Fact)
    ensures ProjectBalance([]) == 0 && ProjectBalance(log + [f]) == ProjectBalance(log) + f.coins
  {
    MapConcat(NaturalKey, log, [f]);
    MapConcat(CoinsOf, Keys(log), Keys([f]));
    assert Keys([f]) == [NaturalKey(f)] && Map(CoinsOf, [NaturalKey(f)]) == [f.coins];
    SumConcat(Map(CoinsOf, Keys(log)), [f.coins]);
  }

  lemma SameSteps(a: seq<Fact>, b: seq<Fact>, passes: Fact -> bool, s: seq<int>, t: seq<int>)
    requires forall step :: SomeStep(a, passes, step) <==> SomeStep(b, passes, step)
    requires s == StepSet(a, passes) && t == StepSet(b, passes)
    ensures s == t
  {
    StepSetOf(a, passes, s);
    StepSetOf(b, passes, t);
    hide SomeStep, StepSet;
    forall step: int ensures step in s <==> step in t {
      assert SomeStep(a, passes, step) <==> SomeStep(b, passes, step);
    }
    IncreasingUnique(s, t);
  }

  /** The projection does not depend on the order of the log. */
  lemma StateOrderFree(a: seq<Fact>, b: seq<Fact>)
    requires multiset(a) == multiset(b)
    ensures StateOf(a) == StateOf(b)
  {
    SameElements(a, b);
    MapBag(NaturalKey, a, b);
    MapBag(CoinsOf, Keys(a), Keys(b));
    SumOfBag(Map(CoinsOf, Keys(a)), Map(CoinsOf, Keys(b)));
    SameSteps(a, b, Completes, StepSet(a, Completes), StepSet(b, Completes));
    SameSteps(a, b, Reveals, StepSet(a, Reveals), StepSet(b, Reveals));
  }

  // ---- delivery ---------------------------------------------------------------------

  predicate Known(log: seq<Fact>, f: Fact) { NaturalKey(f) in Keys(log) }

  /** A log after receiving `facts`: an event whose key is known is dropped. */
  function Deliver(log: seq<Fact>, facts: seq<Fact>): seq<Fact>
    decreases |facts|
  {
    if facts == [] then log
    else
      var f := facts[|facts| - 1];
      var before := Deliver(log, facts[..|facts| - 1]);
      if Known(before, f) then before else before + [f]
  }

  /** How the events are cut into batches makes no difference. */
  lemma {:induction false} DeliverBatches(log: seq<Fact>, a: seq<Fact>, b: seq<Fact>)
    ensures Deliver(Deliver(log, a), b) == Deliver(log, a + b)
    decreases |b|
  {
    if b == [] {
      assert a + b == a;
    } else {
      var n := |b| - 1;
      DeliverBatches(log, a, b[..n]);
      assert (a + b)[..|a + b| - 1] == a + b[..n] && (a + b)[|a + b| - 1] == b[n];
    }
  }

  lemma KeyOf(log: seq<Fact>, f: Fact)
    requires f in log
    ensures NaturalKey(f) in Keys(log)
  {
    var i :| 0 <= i < |log| && log[i] == f;
    assert Keys(log)[i] == NaturalKey(f);
  }

  lemma KeysAppend(log: seq<Fact>, f: Fact)
    ensures Keys(log + [f]) == Keys(log) + [NaturalKey(f)]
  {
    MapConcat(NaturalKey, log, [f]);
    assert Map(NaturalKey, [f]) == [NaturalKey(f)];
  }

  /** What a delivery leaves: every key once, and exactly the keys that were there
      or arrived; every event in the log was there or arrived. */
  lemma {:induction false} DeliverKeys(log: seq<Fact>, facts: seq<Fact>)
    requires NoRepeats(Keys(log))
    ensures NoRepeats(Keys(Deliver(log, facts))) && log <= Deliver(log, facts)
    ensures forall k :: k in Keys(Deliver(log, facts)) <==> k in Keys(log) || k in Keys(facts)
    ensures forall f :: f in Deliver(log, facts) ==> f in log || f in facts
    decreases |facts|
  {
    if facts != [] {
      hide Keys, NoRepeats;
      var n := |facts| - 1;
      DeliverKeys(log, facts[..n]);
      OneDelivered(log, Deliver(log, facts[..n]), facts, facts[..n]);
    }
  }

  lemma OneDelivered(log: seq<Fact>, before: seq<Fact>, facts: seq<Fact>, rest: seq<Fact>)
    requires facts != [] && rest == facts[..|facts| - 1] && NoRepeats(Keys(before)) && log <= before
    requires forall k :: k in Keys(before) <==> k in Keys(log) || k in Keys(rest)
    requires forall f :: f in before ==> f in log || f in rest
    ensures var f := facts[|facts| - 1];
            var after := if Known(before, f) then before else before + [f];
            && NoRepeats(Keys(after)) && log <= after
            && (forall k :: k in Keys(after) <==> k in Keys(log) || k in Keys(facts))
            && (forall e :: e in after ==> e in log || e in facts)
  {
    var f := facts[|facts| - 1];
    assert facts == rest + [f];
    KeysAppend(rest, f);
    KeysAppend(before, f);
    hide Keys;
  }

  lemma OfKey(log: seq<Fact>, k: Key) returns (f: Fact)
    requires k in Keys(log)
    ensures f in log && NaturalKey(f) == k
  {
    var i :| 0 <= i < |log| && Keys(log)[i] == k;
    f := log[i];
  }

  /** Two lists with the same keys reveal the same hints. */
  lemma SameHints(a: seq<Fact>, b: seq<Fact>)
    requires SameMembers(Keys(a), Keys(b))
    ensures forall step :: SomeStep(a, Reveals, step) ==> SomeStep(b, Reveals, step)
  {
    forall step | SomeStep(a, Reveals, step) ensures SomeStep(b, Reveals, step) {
      var f :| f in a && Reveals(f) && f.step == step;
      KeyOf(a, f);
      var g := OfKey(b, NaturalKey(f));
    }
  }

  /** Delivering the same events in any order, cut into any batches and repeated at
      will, gives the same balance and the same revealed hints. */
  lemma BalanceConfluence(log: seq<Fact>, a: seq<Fact>, b: seq<Fact>)
    requires NoRepeats(Keys(log)) && SameMembers(Keys(a), Keys(b))
    ensures StateOf(Deliver(log, a)).balance == StateOf(Deliver(log, b)).balance
    ensures StateOf(Deliver(log, a)).hints == StateOf(Deliver(log, b)).hints
  {
    DeliverKeys(log, a);
    DeliverKeys(log, b);
    ConfluenceOf(Deliver(log, a), Deliver(log, b));
  }

  lemma ConfluenceOf(s: seq<Fact>, t: seq<Fact>)
    requires NoRepeats(Keys(s)) && NoRepeats(Keys(t)) && SameMembers(Keys(s), Keys(t))
    ensures StateOf(s).balance == StateOf(t).balance && StateOf(s).hints == StateOf(t).hints
  {
    SameBag(Keys(s), Keys(t));
    MapBag(CoinsOf, Keys(s), Keys(t));
    SumOfBag(Map(CoinsOf, Keys(s)), Map(CoinsOf, Keys(t)));
    SameHints(s, t);
    SameHints(t, s);
    SameSteps(s, t, Reveals, StepSet(s, Reveals), StepSet(t, Reveals));
  }

  // ---- when the completed steps are independent of the order too -----------------------

  /** Some event completes the step, and nobody reports that event otherwise. */
  ghost predicate Firm(facts: seq<Fact>, step: int) {
    exists f :: f in facts && Completes(f) && f.step == step
      && forall g :: g in facts && NaturalKey(g) == NaturalKey(f) ==> Completes(g)
  }

  /** The reports whose event the log does not know yet. */
  function News(log: seq<Fact>, facts: seq<Fact>): (r: seq<Fact>)
    ensures forall f :: f in r <==> f in facts && !Known(log, f)
  {
    if facts == [] then []
    else
      var f := facts[|facts| - 1];
      News(log, facts[..|facts| - 1]) + if Known(log, f) then [] else [f]
  }

  /** Every step that some new report completes is completed already, or by an
      undisputed new event. */
  ghost predicate Undisputed(log: seq<Fact>, facts: seq<Fact>) {
    forall step :: SomeStep(News(log, facts), Completes, step) ==>
      SomeStep(log, Completes, step) || Firm(News(log, facts), step)
  }

  /** Reports of one event agree on the verdict. */
  ghost predicate Agree(facts: seq<Fact>) {
    forall f, g :: f in facts && g in facts && NaturalKey(f) == NaturalKey(g) ==> f.correct == g.correct
  }

  lemma AgreeIsUndisputed(log: seq<Fact>, facts: seq<Fact>)
    requires Agree(facts)
    ensures Undisputed(log, facts)
  {
    var news := News(log, facts);
    forall step | SomeStep(news, Completes, step) ensures Firm(news, step) {
      var f :| f in news && Completes(f) && f.step == step;
      forall g | g in news && NaturalKey(g) == NaturalKey(f) ensures Completes(g) {
        assert g.kind == NaturalKey(g).kind == f.kind;
      }
    }
  }

  /** A delivery adds what a delivery of the news alone to an empty log leaves. */
  lemma {:induction false} DeliverNews(log: seq<Fact>, facts: seq<Fact>)
    ensures Deliver(log, facts) == log + Deliver([], News(log, facts))
    decreases |facts|
  {
    if facts != [] {
      var n := |facts| - 1;
      var f, rest := facts[n], Deliver([], News(log, facts[..n]));
      DeliverNews(log, facts[..n]);
      MapConcat(NaturalKey, log, rest);
      if Known(log, f) {
        assert News(log, facts) == News(log, facts[..n]);
      } else {
        assert News(log, facts)[..|News(log, facts)| - 1] == News(log, facts[..n]);
        assert Known(log + rest, f) <==> Known(rest, f);
        assert log + (rest + [f]) == log + rest + [f];
      }
    }
  }

  lemma {:induction false} NewsConcat(log: seq<Fact>, a: seq<Fact>, b: seq<Fact>)
    ensures News(log, a + b) == News(log, a) + News(log, b)
    decreases |b|
  {
    if b == [] {
      assert a + b == a;
    } else {
      assert (a + b)[..|a + b| - 1] == a + b[..|b| - 1];
      NewsConcat(log, a, b[..|b| - 1]);
    }
  }

  lemma {:induction false} AllNews(log: seq<Fact>, facts: seq<Fact>)
    requires forall f :: f in facts ==> !Known(log, f)
    ensures News(log, facts) == facts
    decreases |facts|
  {
    hide Known;
    if facts != [] {
      var n := |facts| - 1;
      assert facts == facts[..n] + [facts[n]];
      AllNews(log, facts[..n]);
    }
  }

  lemma StepsAfter(log: seq<Fact>, facts: seq<Fact>, step: int)
    ensures SomeStep(Deliver(log, facts), Completes, step) <==>
            SomeStep(log, Completes, step) || SomeStep(Deliver([], News(log, facts)), Completes, step)
  {
    DeliverNews(log, facts);
    var added := Deliver([], News(log, facts));
    hide Deliver, News, Completes;
    assert forall f :: f in log + added <==> f in log || f in added;
  }

  /** Every order completes what some report completes firmly, and nothing that no
      report completes. */
  lemma CompletedAreFirm(facts: seq<Fact>, order: seq<Fact>, step: int)
    requires SameMembers(order, facts)
    ensures SomeStep(Deliver([], order), Completes, step) ==> SomeStep(facts, Completes, step)
    ensures Firm(facts, step) ==> SomeStep(Deliver([], order), Completes, step)
  {
    DeliverKeys([], order);
    var log := Deliver([], order);
    if Firm(facts, step) {
      var f :| f in facts && Completes(f) && f.step == step
        && forall g :: g in facts && NaturalKey(g) == NaturalKey(f) ==> Completes(g);
      KeyOf(order, f);
      var g := OfKey(log, NaturalKey(f));
      assert g.step == NaturalKey(g).step == step;
    }
  }

  lemma CompletedConfluence(log: seq<Fact>, facts: seq<Fact>, a: seq<Fact>, b: seq<Fact>)
    requires Undisputed(log, facts) && SameMembers(a, facts) && SameMembers(b, facts)
    ensures StateOf(Deliver(log, a)).completed == StateOf(Deliver(log, b)).completed
  {
    var s, t := Deliver(log, a), Deliver(log, b);
    assert SameMembers(News(log, a), News(log, facts)) && SameMembers(News(log, b), News(log, facts));
    hide SomeStep, Firm, Deliver, News, SameMembers;
    forall step ensures SomeStep(s, Completes, step) <==> SomeStep(t, Completes, step) {
      StepsAfter(log, a, step);
      StepsAfter(log, b, step);
      CompletedAreFirm(News(log, facts), News(log, a), step);
      CompletedAreFirm(News(log, facts), News(log, b), step);
    }
    SameSteps(s, t, Completes, StepSet(s, Completes), StepSet(t, Completes));
  }

  function Misses(facts: seq<Fact>): (r: seq<Fact>)
    ensures forall f :: f in r <==> f in facts && !Completes(f)
  {
    if facts == [] then []
    else if Completes(facts[0]) then Misses(facts[1..])
    else [facts[0]] + Misses(facts[1..])
  }

  /** What arrives first stays in the log. */
  lemma FirstStays(first: seq<Fact>, rest: seq<Fact>)
    ensures Deliver([], first) <= Deliver([], first + rest) && NoRepeats(Keys(Deliver([], first + rest)))
  {
    DeliverKeys([], first);
    DeliverBatches([], first, rest);
    DeliverKeys(Deliver([], first), rest);
  }

  /** A disputed step is completed when the completing report arrives first ... */
  lemma CompletedIfFirst(facts: seq<Fact>, f: Fact)
    requires f in facts && Completes(f)
    ensures SameMembers([f] + facts, facts)
    ensures SomeStep(Deliver([], [f] + facts), Completes, f.step)
  {
    FirstStays([f], facts);
    assert [f][..0] == [];
    assert Deliver([], [f]) == [f];
    assert f in Deliver([], [f] + facts);
  }

  /** ... and not completed when the misses do. */
  lemma MissedIfFirst(facts: seq<Fact>, step: int)
    requires !Firm(facts, step)
    ensures SameMembers(Misses(facts) + facts, facts)
    ensures !SomeStep(Deliver([], Misses(facts) + facts), Completes, step)
  {
    var m := Misses(facts);
    var log := Deliver([], m + facts);
    FirstStays(m, facts);
    DeliverKeys([], m + facts);
    DeliverKeys([], m);
    forall h | h in log && h.step == step ensures !Completes(h) {
      assert h in facts;
      if g :| g in facts && NaturalKey(g) == NaturalKey(h) && !Completes(g) {
        KeyOf(m, g);
        var e := OfKey(Deliver([], m), NaturalKey(g));
        OneOfEachKey(log, e, h);
      }
    }
  }

  lemma OneOfEachKey(log: seq<Fact>, e: Fact, h: Fact)
    requires NoRepeats(Keys(log)) && e in log && h in log && NaturalKey(e) == NaturalKey(h)
    ensures e == h
  {
    var i :| 0 <= i < |log| && log[i] == e;
    var j :| 0 <= j < |log| && log[j] == h;
    assert Keys(log)[i] == Keys(log)[j];
  }

  lemma Diverges(log: seq<Fact>, facts: seq<Fact>) returns (a: seq<Fact>, b: seq<Fact>)
    requires !Undisputed(log, facts)
    ensures SameMembers(a, facts) && SameMembers(b, facts)
    ensures StateOf(Deliver(log, a)).completed != StateOf(Deliver(log, b)).completed
  {
    var news := News(log, facts);
    var step :| SomeStep(news, Completes, step) && !SomeStep(log, Completes, step) && !Firm(news, step);
    var f :| f in news && Completes(f) && f.step == step;
    a, b := [f] + facts, Misses(news) + facts;
    assert SameMembers(a, facts) && SameMembers(b, facts);
    AllNews(log, [f]);
    AllNews(log, Misses(news));
    NewsConcat(log, [f], facts);
    NewsConcat(log, Misses(news), facts);
    CompletedIfFirst(news, f);
    MissedIfFirst(news, step);
    StepsAfter(log, a, step);
    StepsAfter(log, b, step);
    hide SomeStep, Deliver, StateOf, SameMembers, Misses, Undisputed, Firm, News;
    StateSets(Deliver(log, a));
    StateSets(Deliver(log, b));
    assert step in StateOf(Deliver(log, a)).completed && step !in StateOf(Deliver(log, b)).completed;
  }

  /** Whatever the log holds already, the completed steps after a delivery are
      independent of order, batching and repetition exactly when every step that
      some new report completes is completed already or by an undisputed event. */
  lemma CompletedExactly(log: seq<Fact>, facts: seq<Fact>)
    ensures Undisputed(log, facts) <==>
            forall a, b :: SameMembers(a, facts) && SameMembers(b, facts) ==>
              StateOf(Deliver(log, a)).completed == StateOf(Deliver(log, b)).completed
  {
    hide StateOf, Deliver, Undisputed;
    if Undisputed(log, facts) {
      forall a, b | SameMembers(a, facts) && SameMembers(b, facts)
        ensures StateOf(Deliver(log, a)).completed == StateOf(Deliver(log, b)).completed
      {
        CompletedConfluence(log, facts, a, b);
      }
    } else {
      var a, b := Diverges(log, facts);
    }
  }
}
