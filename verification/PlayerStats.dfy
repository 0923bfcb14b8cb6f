/** The player's statistics over all attempts: independent of the order of attempts
    and events, and paying each once-ever bonus once. */
module PlayerStats {
  import opened Prelude
  import opened Facts
  import opened FactStore

  /** A quest and the log of one attempt at it. */
  type AttemptLog = (string, seq<Fact>)

  datatype Stats = Stats(balance: int, questsCompleted: nat, completed: seq<string>, attempts: nat, grants: nat)

  predicate Finished(log: seq<Fact>) { exists f :: f in log && f.kind == AttemptCompleted }

  function BalanceOf(e: AttemptLog): int { ProjectBalance(e.1) }

  function TotalBalance(logs: seq<AttemptLog>): int {
    if logs == [] then 0 else TotalBalance(logs[..|logs| - 1]) + BalanceOf(logs[|logs| - 1])
  }

  function FinishedQuests(logs: seq<AttemptLog>): seq<string> {
    if logs == [] then []
    else
      var e := logs[|logs| - 1];
      FinishedQuests(logs[..|logs| - 1]) + (if Finished(e.1) then [e.0] else [])
  }

  function StatsOf(logs: seq<AttemptLog>, grants: nat): Stats {
    var completed := Dedup(Sort(FinishedQuests(logs), LexLe));
    Stats(TotalBalance(logs), |completed|, completed, |logs|, grants)
  }

  /** The fold over the attempts: a quest is listed the first time an attempt of it
      is found completed. */
  method ProjectPlayerStats(logs: seq<AttemptLog>, grants: nat) returns (stats: Stats)
    ensures stats == StatsOf(logs, grants)
  {
    var balance := 0;
    var completed: seq<string> := [];
    var i := 0;
    while i < |logs|
      invariant 0 <= i <= |logs|
      invariant balance == TotalBalance(logs[..i])
      invariant NoRepeats(completed) && SameMembers(completed, FinishedQuests(logs[..i]))
    {
      assert logs[..i + 1][..i] == logs[..i];
      balance := balance + ProjectBalance(logs[i].1);
      var finished := HasCompletion(logs[i].1);
      if finished && logs[i].0 !in completed {
        completed := completed + [logs[i].0];
      }
      i := i + 1;
    }
    assert logs[..i] == logs;
    ghost var quests := FinishedQuests(logs);
    completed := Listed(completed, quests);
    stats := Stats(balance, |completed|, completed, |logs|, grants);
  }

  method HasCompletion(log: seq<Fact>) returns (found: bool)
    ensures found == Finished(log)
  {
    var i := 0;
    while i < |log|
      invariant 0 <= i <= |log|
      invariant forall j :: 0 <= j < i ==> log[j].kind != AttemptCompleted
    {
      if log[i].kind == AttemptCompleted { return true; }
      i := i + 1;
    }
    return false;
  }

  /** Sorting the list of distinct quests is the sorted set of all mentions. */
  method Listed(distinct: seq<string>, ghost quests: seq<string>) returns (sorted: seq<string>)
    requires NoRepeats(distinct) && SameMembers(distinct, quests)
    ensures sorted == Dedup(Sort(quests, LexLe))
  {
    sorted := Sort(distinct, LexLe);
    ListedIs(distinct, sorted, quests, Dedup(Sort(quests, LexLe)));
  }

  lemma ListedIs(distinct: seq<string>, sorted: seq<string>, quests: seq<string>, listed: seq<string>)
    requires NoRepeats(distinct) && SameMembers(distinct, quests)
    requires sorted == Sort(distinct, LexLe) && listed == Dedup(Sort(quests, LexLe))
    ensures sorted == listed
  {
    hide LexLe;
    LexOrder(quests);
    LexOrder(distinct);
    SortedOnce(quests, Sort(quests, LexLe), listed, LexLe);
    assert multiset(sorted) == multiset(distinct) by { SortKeeps(distinct, LexLe); }
    SameElements(sorted, distinct);
    SortSorts(distinct, LexLe);
    StillDistinct(distinct, sorted);
    hide TotalOrder, Sorted, NoRepeats, SameMembers;
    MembersTransitive(sorted, distinct, quests);
    SameSets(quests, sorted, listed, LexLe);
  }

  // ---- what the statistics say ----------------------------------------------------------

  /** Every event of every attempt. */
  function AllEvents(logs: seq<AttemptLog>): seq<Fact> {
    if logs == [] then [] else AllEvents(logs[..|logs| - 1]) + logs[|logs| - 1].1
  }

  lemma {:induction false} BalanceOfAll(logs: seq<AttemptLog>)
    ensures TotalBalance(logs) == ProjectBalance(AllEvents(logs))
  {
    if logs == [] {
      assert ProjectBalance([]) == 0;
    } else {
      BalanceOfAll(logs[..|logs| - 1]);
      BalanceConcat(AllEvents(logs[..|logs| - 1]), logs[|logs| - 1].1);
    }
  }

  lemma BalanceConcat(a: seq<Fact>, b: seq<Fact>)
    ensures ProjectBalance(a + b) == ProjectBalance(a) + ProjectBalance(b)
  {
    MapConcat(NaturalKey, a, b);
    MapConcat(CoinsOf, Keys(a), Keys(b));
    SumConcat(Map(CoinsOf, Keys(a)), Map(CoinsOf, Keys(b)));
  }

  /** The tiles: the coins of every event together, the quests with a completed attempt, each
      once and sorted, and how many of these, of the attempts and of the grants there are. */
  lemma StatsExactly(logs: seq<AttemptLog>, grants: nat)
    ensures var s := StatsOf(logs, grants);
            && s.attempts == |logs| && s.grants == grants && s.questsCompleted == |s.completed|
            && s.balance == ProjectBalance(AllEvents(logs))
            && Sorted(s.completed, LexLe) && NoRepeats(s.completed)
            && forall quest :: quest in s.completed <==>
                 exists i, j :: 0 <= i < |logs| && logs[i].0 == quest && 0 <= j < |logs[i].1| && logs[i].1[j].kind == AttemptCompleted
  {
    BalanceOfAll(logs);
    var quests := FinishedQuests(logs);
    LexOrder(quests);
    SortedOnce(quests, Sort(quests, LexLe), Dedup(Sort(quests, LexLe)), LexLe);
    hide LexLe, TotalBalance, FinishedQuests, Sort, Dedup;
    forall quest ensures quest in quests <==>
      exists i, j :: 0 <= i < |logs| && logs[i].0 == quest && 0 <= j < |logs[i].1| && logs[i].1[j].kind == AttemptCompleted
    {
      FinishedQuestsMembers(logs, quest);
      FinishedByEvent(logs, quest);
    }
  }

  lemma FinishedByEvent(logs: seq<AttemptLog>, quest: string)
    ensures FinishedIn(logs, quest) <==>
      exists i, j :: 0 <= i < |logs| && logs[i].0 == quest && 0 <= j < |logs[i].1| && logs[i].1[j].kind == AttemptCompleted
  {
    if FinishedIn(logs, quest) {
      var i :| 0 <= i < |logs| && logs[i].0 == quest && Finished(logs[i].1);
      var f :| f in logs[i].1 && f.kind == AttemptCompleted;
      var j :| 0 <= j < |logs[i].1| && logs[i].1[j] == f;
    }
    if i, j :| 0 <= i < |logs| && logs[i].0 == quest && 0 <= j < |logs[i].1| && logs[i].1[j].kind == AttemptCompleted {
      assert logs[i].1[j] in logs[i].1;
      assert Finished(logs[i].1);
    }
  }

  // ---- independence of order --------------------------------------------------------

  /** An attempt as a bag of events. */
  ghost function QuestBag(e: AttemptLog): (string, multiset<Fact>) { (e.0, multiset(e.1)) }

  ghost predicate Lists(log: seq<Fact>, bag: multiset<Fact>) { multiset(log) == bag }

  ghost function BagBalance(b: (string, multiset<Fact>)): int {
    if log: seq<Fact> :| Lists(log, b.1) then ProjectBalance(log) else 0
  }

  lemma {:induction false} TotalIsSum(logs: seq<AttemptLog>)
    ensures TotalBalance(logs) == Sum(Map(BagBalance, Map(QuestBag, logs)))
  {
    if logs != [] {
      var n := |logs| - 1;
      TotalIsSum(logs[..n]);
      assert logs == logs[..n] + [logs[n]];
      MapConcat(QuestBag, logs[..n], [logs[n]]);
      MapConcat(BagBalance, Map(QuestBag, logs[..n]), Map(QuestBag, [logs[n]]));
      assert Map(BagBalance, Map(QuestBag, [logs[n]])) == [BagBalance(QuestBag(logs[n]))];
      SumConcat(Map(BagBalance, Map(QuestBag, logs[..n])), [BagBalance(QuestBag(logs[n]))]);
      BagBalanceOf(logs[n]);
    }
  }

  lemma BagBalanceOf(e: AttemptLog)
    ensures BagBalance(QuestBag(e)) == BalanceOf(e)
  {
    assert Lists(e.1, QuestBag(e).1);
    var log: seq<Fact> :| Lists(log, QuestBag(e).1) && BagBalance(QuestBag(e)) == ProjectBalance(log);
    SameBalance(log, e.1, QuestBag(e).1);
  }

  lemma SameBalance(a: seq<Fact>, b: seq<Fact>, bag: multiset<Fact>)
    requires Lists(a, bag) && Lists(b, bag)
    ensures ProjectBalance(a) == ProjectBalance(b)
  {
    StateOrderFree(a, b);
  }

  predicate FinishedIn(logs: seq<AttemptLog>, quest: string) {
    exists i :: 0 <= i < |logs| && logs[i].0 == quest && Finished(logs[i].1)
  }

  lemma {:induction false} FinishedQuestsMembers(logs: seq<AttemptLog>, quest: string)
    ensures quest in FinishedQuests(logs) <==> FinishedIn(logs, quest)
  {
    if logs != [] {
      var n := |logs| - 1;
      FinishedQuestsMembers(logs[..n], quest);
      if FinishedIn(logs, quest) {
        var i :| 0 <= i < |logs| && logs[i].0 == quest && Finished(logs[i].1);
        if i < n { assert logs[..n][i] == logs[i]; }
      }
    }
  }

  lemma FinishedMoves(a: seq<AttemptLog>, b: seq<AttemptLog>, quest: string)
    requires multiset(Map(QuestBag, a)) == multiset(Map(QuestBag, b)) && FinishedIn(a, quest)
    ensures FinishedIn(b, quest)
  {
    var i :| 0 <= i < |a| && a[i].0 == quest && Finished(a[i].1);
    SameElements(Map(QuestBag, a), Map(QuestBag, b));
    assert Map(QuestBag, a)[i] == QuestBag(a[i]);
    assert QuestBag(a[i]) in Map(QuestBag, b);
    var j :| 0 <= j < |b| && Map(QuestBag, b)[j] == QuestBag(a[i]);
    assert QuestBag(b[j]) == QuestBag(a[i]);
    SameElements(a[i].1, b[j].1);
  }

  /** The statistics do not depend on the order of the attempts, nor on the order of
      the events within an attempt. */
  lemma StatsOrderFree(a: seq<AttemptLog>, b: seq<AttemptLog>, grants: nat)
    requires multiset(Map(QuestBag, a)) == multiset(Map(QuestBag, b))
    ensures StatsOf(a, grants) == StatsOf(b, grants)
  {
    SameElements(Map(QuestBag, a), Map(QuestBag, b));
    TotalIsSum(a);
    TotalIsSum(b);
    MapBag(BagBalance, Map(QuestBag, a), Map(QuestBag, b));
    SumOfBag(Map(BagBalance, Map(QuestBag, a)), Map(BagBalance, Map(QuestBag, b)));
    hide TotalBalance, FinishedIn, LexLe;
    forall quest: string ensures quest in FinishedQuests(a) <==> quest in FinishedQuests(b) {
      FinishedQuestsMembers(a, quest);
      FinishedQuestsMembers(b, quest);
      if FinishedIn(a, quest) { FinishedMoves(a, b, quest); }
      if FinishedIn(b, quest) { FinishedMoves(b, a, quest); }
    }
    LexOrder(FinishedQuests(a));
    SortedSet(FinishedQuests(a), FinishedQuests(b), LexLe);
  }

  // ---- what a bonus adds -------------------------------------------------------------

  function CountIn(log: seq<Fact>, k: Kind): nat {
    if log == [] then 0 else CountIn(log[..|log| - 1], k) + (if log[|log| - 1].kind == k then 1 else 0)
  }

  /** How many events of the kind the attempts of one quest hold. */
  function CountKind(logs: seq<AttemptLog>, quest: string, k: Kind): nat {
    if logs == [] then 0
    else
      var e := logs[|logs| - 1];
      CountKind(logs[..|logs| - 1], quest, k) + (if e.0 == quest then CountIn(e.1, k) else 0)
  }

  /** The attempts of one player, each once, in any order. */
  ghost predicate AttemptsOf(s: Store, user: string, ids: seq<string>) {
    NoRepeats(ids) && forall id :: id in ids ==> id in s.attempts && id in s.logs && s.attempts[id].user == user
  }

  ghost function LogsOf(s: Store, ids: seq<string>): seq<AttemptLog>
    requires forall id :: id in ids ==> id in s.attempts && id in s.logs
  {
    seq(|ids|, i requires 0 <= i < |ids| => (s.attempts[ids[i]].quest, s.logs[ids[i]]))
  }

  lemma {:induction false} CountedSomewhere(log: seq<Fact>, k: Kind)
    ensures CountIn(log, k) >= 1 ==> exists i :: 0 <= i < |log| && log[i].kind == k
    ensures (forall i, j :: 0 <= i < j < |log| && log[i].kind == k ==> log[j].kind != k) ==> CountIn(log, k) <= 1
  {
    if log != [] {
      var n := |log| - 1;
      CountedSomewhere(log[..n], k);
      if CountIn(log[..n], k) >= 1 {
        var i :| 0 <= i < n && log[..n][i].kind == k;
        assert log[i].kind == k;
      }
    }
  }

  /** After every run the attempts of a player at a quest hold each once-ever bonus
      at most once between them, so the statistics pay it at most once. */
  lemma {:induction false} BonusPaidOnce(run: seq<Action>, user: string, ids: seq<string>, quest: string, k: Kind)
    requires AttemptsOf(Exec(EMPTY, run), user, ids) && k in {CompletionBonus, RatingBonus, CommentBonus}
    ensures CountKind(LogsOf(Exec(EMPTY, run), ids), quest, k) <= 1
    decreases |ids|
  {
    var s := Exec(EMPTY, run);
    BonusesOnceEver(run);
    hide Exec, Append, Create;
    PaidOnce(s, user, ids, quest, k);
  }

  lemma {:induction false} PaidOnce(s: Store, user: string, ids: seq<string>, quest: string, k: Kind)
    requires AttemptsOf(s, user, ids) && OncePerQuest(k) && OnceEver(s)
    ensures CountKind(LogsOf(s, ids), quest, k) <= 1
    ensures CountKind(LogsOf(s, ids), quest, k) == 1 ==>
              exists id, i :: id in ids && s.attempts[id].quest == quest && 0 <= i < |s.logs[id]| && s.logs[id][i].kind == k
  {
    if ids != [] {
      var n := |ids| - 1;
      var id := ids[n];
      PaidOnce(s, user, ids[..n], quest, k);
      assert LogsOf(s, ids)[..n] == LogsOf(s, ids[..n]);
      assert SamePair(s, id, id);
      CountedSomewhere(s.logs[id], k);
      if s.attempts[id].quest == quest && CountIn(s.logs[id], k) >= 1 {
        var i :| 0 <= i < |s.logs[id]| && s.logs[id][i].kind == k;
        forall a, j | a in ids[..n] && s.attempts[a].quest == quest && 0 <= j < |s.logs[a]|
          ensures s.logs[a][j].kind != k
        {
          assert SamePair(s, a, id) && a != id;
        }
      }
    }
  }

  /** The coins of the events of one kind in a log, and of all others. */
  function CoinsOfKind(log: seq<Fact>, k: Kind): int {
    if log == [] then 0
    else CoinsOfKind(log[..|log| - 1], k) + (if log[|log| - 1].kind == k then log[|log| - 1].coins else 0)
  }

  function OtherCoins(log: seq<Fact>, k: Kind): int {
    if log == [] then 0
    else OtherCoins(log[..|log| - 1], k) + (if log[|log| - 1].kind == k then 0 else log[|log| - 1].coins)
  }

  lemma {:induction false} BalanceSplits(log: seq<Fact>, k: Kind)
    ensures ProjectBalance(log) == CoinsOfKind(log, k) + OtherCoins(log, k)
  {
    hide Keys;
    if log == [] {
      NoCoins();
    } else {
      var (rest, f) := (log[..|log| - 1], log[|log| - 1]);
      BalanceSplits(rest, k);
      assert log == rest + [f];
      KeysAppend(rest, f);
      MapConcat(CoinsOf, Keys(rest), [NaturalKey(f)]);
      assert Map(CoinsOf, [NaturalKey(f)]) == [f.coins];
      SumConcat(Map(CoinsOf, Keys(rest)), [f.coins]);
    }
  }

  lemma NoCoins()
    ensures ProjectBalance([]) == 0
  {}

  /** What one kind adds to the balance through the attempts at one quest, and what
      everything else adds. */
  function BonusCoins(logs: seq<AttemptLog>, quest: string, k: Kind): int {
    if logs == [] then 0
    else
      var e := logs[|logs| - 1];
      BonusCoins(logs[..|logs| - 1], quest, k) + (if e.0 == quest then CoinsOfKind(e.1, k) else 0)
  }

  function RestCoins(logs: seq<AttemptLog>, quest: string, k: Kind): int {
    if logs == [] then 0
    else
      var e := logs[|logs| - 1];
      RestCoins(logs[..|logs| - 1], quest, k) + (if e.0 == quest then OtherCoins(e.1, k) else ProjectBalance(e.1))
  }

  lemma {:induction false} TotalSplits(logs: seq<AttemptLog>, quest: string, k: Kind)
    ensures TotalBalance(logs) == BonusCoins(logs, quest, k) + RestCoins(logs, quest, k)
  {
    hide ProjectBalance;
    if logs != [] {
      TotalSplits(logs[..|logs| - 1], quest, k);
      BalanceSplits(logs[|logs| - 1].1, k);
    }
  }

  lemma {:induction false} OneOfKind(log: seq<Fact>, k: Kind)
    ensures CountIn(log, k) == 0 ==> CoinsOfKind(log, k) == 0
    ensures CountIn(log, k) == 1 ==> exists f :: f in log && f.kind == k && CoinsOfKind(log, k) == f.coins
  {
    if log != [] {
      var (rest, last) := (log[..|log| - 1], log[|log| - 1]);
      OneOfKind(rest, k);
      if CountIn(log, k) == 1 && last.kind == k {
        assert last in log;
      } else if CountIn(log, k) == 1 {
        var f :| f in rest && f.kind == k && CoinsOfKind(rest, k) == f.coins;
        assert f in log;
      }
    }
  }

  lemma {:induction false} OnePayment(logs: seq<AttemptLog>, quest: string, k: Kind)
    ensures CountKind(logs, quest, k) == 0 ==> BonusCoins(logs, quest, k) == 0
    ensures CountKind(logs, quest, k) == 1 ==>
              exists e, f :: e in logs && f in e.1 && e.0 == quest && f.kind == k && BonusCoins(logs, quest, k) == f.coins
  {
    if logs != [] {
      var (rest, e) := (logs[..|logs| - 1], logs[|logs| - 1]);
      OnePayment(rest, quest, k);
      OneOfKind(e.1, k);
      hide CountIn, CoinsOfKind;
      if CountKind(logs, quest, k) == 1 {
        if CountKind(rest, quest, k) == 1 {
          var d, f :| d in rest && f in d.1 && d.0 == quest && f.kind == k && BonusCoins(rest, quest, k) == f.coins;
          assert d in logs;
        } else {
          var f :| f in e.1 && f.kind == k && CoinsOfKind(e.1, k) == f.coins;
          assert e in logs;
        }
      }
    }
  }

  /** After every run a once-ever bonus of a quest adds to the player's balance either
      nothing or the coins of the one event that paid it. */
  lemma BonusAddsOnce(run: seq<Action>, user: string, ids: seq<string>, quest: string, k: Kind, grants: nat)
    requires AttemptsOf(Exec(EMPTY, run), user, ids) && k in {CompletionBonus, RatingBonus, CommentBonus}
    ensures var logs := LogsOf(Exec(EMPTY, run), ids);
            && StatsOf(logs, grants).balance == BonusCoins(logs, quest, k) + RestCoins(logs, quest, k)
            && (BonusCoins(logs, quest, k) == 0
                || exists e, f :: e in logs && f in e.1 && e.0 == quest && f.kind == k && BonusCoins(logs, quest, k) == f.coins)
  {
    hide Exec, BonusCoins, RestCoins, FinishedQuests;
    var logs := LogsOf(Exec(EMPTY, run), ids);
    BonusPaidOnce(run, user, ids, quest, k);
    TotalSplits(logs, quest, k);
    OnePayment(logs, quest, k);
  }
}
