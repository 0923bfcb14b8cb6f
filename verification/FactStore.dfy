/** The append-only event store: the gate that awards a once-ever bonus at most
    once per player and quest, and the statistics that pay it. */
module FactStore {
  import opened Prelude
  import opened Facts

  datatype Attempt = Attempt(user: string, quest: string, snapshot: string)

  datatype Store = Store(attempts: map<string, Attempt>, logs: map<string, seq<Fact>>, made: nat)

  // ---- which bonuses are paid already ---------------------------------------------

  function WireTag(k: Kind): string {
    match k
    case PhysicalConfirmed => "physical_confirmed"
    case AnswerSubmitted => "answer_submitted"
    case GiftClaimed => "gift_claimed"
    case HintPurchased => "hint_purchased"
    case CompletionBonus => "completion_bonus"
    case AttemptCompleted => "attempt_completed"
    case FeedbackReported => "feedback_reported"
    case NavigatorUsed => "navigator_used"
    case QuestRated => "quest_rated"
    case RatingBonus => "rating_bonus"
    case CommentBonus => "comment_bonus"
    case TaskSkipped => "task_skipped"
  }

  predicate TagLe(a: Kind, b: Kind) { LexLe(WireTag(a), WireTag(b)) }

  function OnceKinds(facts: seq<Fact>): seq<Kind> {
    if facts == [] then []
    else (if OncePerQuest(facts[0].kind) then [facts[0].kind] else []) + OnceKinds(facts[1..])
  }

  /** The once-ever bonuses these events paid, sorted by wire tag. */
  function AwardedBonuses(facts: seq<Fact>): seq<Kind> { Dedup(Sort(OnceKinds(facts), TagLe)) }

  predicate Pays(facts: seq<Fact>, k: Kind) { OncePerQuest(k) && exists f :: f in facts && f.kind == k }

  lemma {:induction false} OnceKindsMembers(facts: seq<Fact>, k: Kind)
    ensures k in OnceKinds(facts) <==> Pays(facts, k)
  {
    if facts != [] {
      OnceKindsMembers(facts[1..], k);
      assert facts == [facts[0]] + facts[1..];
    }
  }

  lemma TagsOrdered(kinds: seq<Kind>)
    requires forall k :: k in kinds ==> OncePerQuest(k)
    ensures TotalOrder(kinds, TagLe)
  {
    forall x, y: Kind, z: Kind | Among(x, y, z)
      ensures TagLe(x, y) || TagLe(y, x)
      ensures TagLe(x, y) && TagLe(y, z) ==> TagLe(x, z)
    {
      TagLaws(x, y, z);
    }
    forall x, y | Among(x, y, y) && x in kinds && y in kinds && TagLe(x, y) && TagLe(y, x)
      ensures x == y
    {
      LexTotal(WireTag(x), WireTag(y));
      assert WireTag(x) == WireTag(y) && WireTag(x)[2] == WireTag(y)[2];
    }
  }

  lemma TagLaws(x: Kind, y: Kind, z: Kind)
    ensures TagLe(x, y) || TagLe(y, x)
    ensures TagLe(x, y) && TagLe(y, z) ==> TagLe(x, z)
  {
    hide WireTag, LexLess;
    LexTotal(WireTag(x), WireTag(y));
    if LexLess(WireTag(x), WireTag(y)) && LexLess(WireTag(y), WireTag(z)) {
      LexTransitive(WireTag(x), WireTag(y), WireTag(z));
    }
  }

  /** The answer names each bonus once, in a stable order, and exactly the ones
      paid; so it does not depend on the order of the events. */
  lemma AwardedExactly(facts: seq<Fact>, kinds: seq<Kind>)
    requires kinds == AwardedBonuses(facts)
    ensures Sorted(kinds, TagLe) && NoRepeats(kinds) && forall k :: k in kinds <==> Pays(facts, k)
  {
    var all := OnceKinds(facts);
    forall k ensures k in all <==> Pays(facts, k) {
      OnceKindsMembers(facts, k);
    }
    TagsOrdered(all);
    SortedOnce(all, Sort(all, TagLe), kinds, TagLe);
  }

  /** The answer spelled out: the comment bonus, the completion bonus and the rating bonus, in
      this order, as far as they were paid. */
  lemma AnswerSpelled(facts: seq<Fact>)
    ensures AwardedBonuses(facts) ==
            (if exists f :: f in facts && f.kind == CommentBonus then [CommentBonus] else [])
            + (if exists f :: f in facts && f.kind == CompletionBonus then [CompletionBonus] else [])
            + (if exists f :: f in facts && f.kind == RatingBonus then [RatingBonus] else [])
  {
    var kinds := AwardedBonuses(facts);
    AwardedExactly(facts, kinds);
    TagsOrdered(kinds);
    hide AwardedBonuses, TagLe, TotalOrder, Sorted, NoRepeats;
    var spelled := Spelled(Pays(facts, CommentBonus), Pays(facts, CompletionBonus), Pays(facts, RatingBonus));
    SpelledInOrder(Pays(facts, CommentBonus), Pays(facts, CompletionBonus), Pays(facts, RatingBonus));
    SameSets(kinds, kinds, spelled, TagLe);
  }

  function Spelled(comment: bool, completion: bool, rating: bool): seq<Kind> {
    (if comment then [CommentBonus] else []) + (if completion then [CompletionBonus] else [])
    + (if rating then [RatingBonus] else [])
  }

  lemma SpelledInOrder(comment: bool, completion: bool, rating: bool)
    ensures var s := Spelled(comment, completion, rating);
            && Sorted(s, TagLe) && NoRepeats(s)
            && forall k :: k in s <==>
                 (k == CommentBonus && comment) || (k == CompletionBonus && completion) || (k == RatingBonus && rating)
  {
    TagsInOrder();
    hide TagLe;
  }

  lemma TagsInOrder()
    ensures TagLe(CommentBonus, CompletionBonus) && TagLe(CompletionBonus, RatingBonus) && TagLe(CommentBonus, RatingBonus)
  {
    TagBefore("comment_bonus", "completion_bonus", 3);
    TagBefore("completion_bonus", "rating_bonus", 0);
    TagBefore("comment_bonus", "rating_bonus", 0);
  }

  lemma {:induction false} TagBefore(a: string, b: string, k: nat)
    requires k < |a| && k < |b| && a[..k] == b[..k] && a[k] < b[k]
    ensures LexLess(a, b)
    decreases k
  {
    if k > 0 {
      assert a[0] == a[..k][0] && b[0] == b[..k][0];
      assert a[1..][..k - 1] == a[..k][1..] && b[1..][..k - 1] == b[..k][1..];
      TagBefore(a[1..], b[1..], k - 1);
    }
  }

  lemma AwardedOrderFree(a: seq<Fact>, b: seq<Fact>)
    requires forall k :: Pays(a, k) <==> Pays(b, k)
    ensures AwardedBonuses(a) == AwardedBonuses(b)
  {
    forall k ensures k in OnceKinds(a) <==> k in OnceKinds(b) {
      OnceKindsMembers(a, k);
      OnceKindsMembers(b, k);
    }
    OnceOnly(a);
    TagsOrdered(OnceKinds(a));
    SortedSet(OnceKinds(a), OnceKinds(b), TagLe);
  }

  lemma OnceOnly(a: seq<Fact>)
    ensures forall k :: k in OnceKinds(a) ==> OncePerQuest(k)
  {
    forall k | k in OnceKinds(a) ensures OncePerQuest(k) { OnceKindsMembers(a, k); }
  }

  // ---- the append gate ---------------------------------------------------------------

  predicate Mine(s: Store, id: string, user: string, quest: string) {
    id in s.attempts && id in s.logs && s.attempts[id].user == user && s.attempts[id].quest == quest
  }

  /** Some attempt of the player at the quest holds the bonus. */
  predicate IsAwarded(s: Store, user: string, quest: string, k: Kind) {
    exists id :: id in s.logs && Mine(s, id, user, quest) && Pays(s.logs[id], k)
  }

  ghost function AwardedTo(s: Store, user: string, quest: string): set<Kind> {
    set k: Kind | IsAwarded(s, user, quest, k)
  }

  /** One pass over incoming events: the log, the bonuses paid, the events accepted. */
  datatype Pass = Pass(log: seq<Fact>, awarded: set<Kind>, accepted: seq<Fact>)

  function Take(p: Pass, f: Fact): Pass {
    var repeat := OncePerQuest(f.kind) && f.kind in p.awarded;
    var awarded := if OncePerQuest(f.kind) then p.awarded + {f.kind} else p.awarded;
    if Known(p.log, f) || repeat then p.(awarded := awarded)
    else Pass(p.log + [f], awarded, p.accepted + [f])
  }

  function TakeAll(p: Pass, incoming: seq<Fact>): Pass
    decreases |incoming|
  {
    if incoming == [] then p else Take(TakeAll(p, incoming[..|incoming| - 1]), incoming[|incoming| - 1])
  }

  ghost function Append(s: Store, id: string, incoming: seq<Fact>): (Store, Option<seq<Fact>>) {
    if id !in s.attempts || id !in s.logs then (s, None)
    else
      var meta := s.attempts[id];
      var p := TakeAll(Pass(s.logs[id], AwardedTo(s, meta.user, meta.quest), []), incoming);
      (s.(logs := s.logs[id := p.log]), Some(p.accepted))
  }

  function AttemptId(n: nat): string { "att-" + Decimal(n) }

  function Create(s: Store, user: string, quest: string, snapshot: string): Store {
    var id := AttemptId(s.made + 1);
    Store(s.attempts[id := Attempt(user, quest, snapshot)], s.logs[id := []], s.made + 1)
  }

  class FactLogs {
    var attempts: map<string, Attempt>
    var logs: map<string, seq<Fact>>
    var made: nat

    function View(): Store
      reads this
    {
      Store(attempts, logs, made)
    }

    constructor ()
      ensures View() == EMPTY && Good(View())
    {
      attempts, logs, made := map[], map[], 0;
    }

    method CreateAttempt(user: string, quest: string, snapshot: string) returns (id: string)
      modifies this
      ensures View() == Create(old(View()), user, quest, snapshot) && id == "att-" + Decimal(made)
      ensures attempts == old(attempts)[id := Attempt(user, quest, snapshot)] && made == old(made) + 1
      ensures Good(old(View())) ==> Good(View()) && id !in old(logs) && logs == old(logs)[id := []]
    {
      if Good(View()) {
        CreateKeeps(View(), user, quest, snapshot);
        FreshId(View());
      }
      hide Good;
      made := made + 1;
      id := AttemptId(made);
      logs := logs[id := []];
      attempts := attempts[id := Attempt(user, quest, snapshot)];
    }

    /** The bonuses the player already holds for the quest, on any attempt, whatever
        order the attempts are visited in. */
    method Awarded(user: string, quest: string) returns (kinds: seq<Kind>)
      ensures Sorted(kinds, TagLe) && NoRepeats(kinds)
      ensures forall k :: k in kinds <==> IsAwarded(View(), user, quest, k)
    {
      var facts: seq<Fact> := [];
      var left := logs.Keys;
      while left != {}
        invariant left <= logs.Keys
        invariant forall k :: Pays(facts, k) <==>
                    exists id :: id in logs && id !in left && Mine(View(), id, user, quest) && Pays(logs[id], k)
        decreases |left|
      {
        var id :| id in left;
        if id in attempts && attempts[id].user == user && attempts[id].quest == quest {
          PaysConcat(facts, logs[id]);
          facts := facts + logs[id];
        }
        left := left - {id};
      }
      kinds := AwardedBonuses(facts);
      AwardedExactly(facts, kinds);
    }

    /** Append what is new; a bonus the player already holds for the quest is
        refused, and one accepted here refuses the next. */
    method AppendIdempotent(id: string, incoming: seq<Fact>) returns (accepted: Option<seq<Fact>>)
      modifies this`logs
      ensures (View(), accepted) == Append(old(View()), id, incoming)
      ensures accepted.Some? <==> id in attempts && id in old(logs)
      ensures Good(old(View())) ==> Good(View())
      ensures Good(old(View())) && accepted.Some? ==> AddsTheNews(old(View()), id, incoming, View(), accepted)
    {
      if id !in attempts || id !in logs { return None; }
      ghost var before := View();
      var kinds := Awarded(attempts[id].user, attempts[id].quest);
      var awarded := set k | k in kinds;
      ghost var start := Pass(logs[id], awarded, []);
      assert awarded == AwardedTo(View(), attempts[id].user, attempts[id].quest);
      var taken: seq<Fact> := [];
      var i := 0;
      while i < |incoming|
        invariant 0 <= i <= |incoming| && id in logs
        invariant logs == old(logs)[id := logs[id]]
        invariant Pass(logs[id], awarded, taken) == TakeAll(start, incoming[..i])
      {
        var f := incoming[i];
        assert incoming[..i + 1][..i] == incoming[..i];
        var duplicateInLog := Known(logs[id], f);
        var duplicateBonus := OncePerQuest(f.kind) && f.kind in awarded;
        if OncePerQuest(f.kind) { awarded := awarded + {f.kind}; }
        if !duplicateInLog && !duplicateBonus {
          logs := logs[id := logs[id] + [f]];
          taken := taken + [f];
        }
        i := i + 1;
      }
      assert incoming[..i] == incoming;
      accepted := Some(taken);
      assert (View(), accepted) == Append(before, id, incoming);
      hide Append, Good, AddsTheNews;
      if Good(before) {
        AppendKeeps(before, id, incoming);
        AppendIsNews(before, id, incoming);
      }
    }
  }

  const EMPTY := Store(map[], map[], 0)

  lemma PaysConcat(a: seq<Fact>, b: seq<Fact>)
    ensures forall k :: Pays(a + b, k) <==> Pays(a, k) || Pays(b, k)
  {
    forall k ensures Pays(a + b, k) <==> Pays(a, k) || Pays(b, k) {
      if OncePerQuest(k) {
        if f :| f in a && f.kind == k { assert f in a + b; }
        if f :| f in b && f.kind == k { assert f in a + b; }
      }
    }
  }

  // ---- every run ------------------------------------------------------------------------

  datatype Action = Begin(user: string, quest: string, snapshot: string) | Receive(attempt: string, facts: seq<Fact>)

  ghost function Apply(s: Store, a: Action): Store {
    match a
    case Begin(user, quest, snapshot) => Create(s, user, quest, snapshot)
    case Receive(id, facts) => Append(s, id, facts).0
  }

  ghost function Exec(s: Store, run: seq<Action>): Store
    decreases |run|
  {
    if run == [] then s else Apply(Exec(s, run[..|run| - 1]), run[|run| - 1])
  }

  /** Attempts are numbered, so a new one never takes an old name. */
  ghost predicate Numbered(s: Store) {
    s.attempts.Keys == s.logs.Keys
    && forall id :: id in s.logs ==> exists n: nat :: 1 <= n <= s.made && id == AttemptId(n)
  }

  predicate SamePair(s: Store, a: string, b: string) {
    a in s.attempts && b in s.attempts
    && s.attempts[a].user == s.attempts[b].user && s.attempts[a].quest == s.attempts[b].quest
  }

  /** One event holds each once-ever bonus of a player and quest. */
  ghost predicate OnceEver(s: Store) {
    forall a, b, i, j ::
      a in s.logs && b in s.logs && SamePair(s, a, b) && 0 <= i < |s.logs[a]| && 0 <= j < |s.logs[b]|
      && OncePerQuest(s.logs[a][i].kind) && s.logs[a][i].kind == s.logs[b][j].kind ==>
        a == b && i == j
  }

  ghost predicate KeysOnce(s: Store) {
    forall id :: id in s.logs ==> NoRepeats(Keys(s.logs[id]))
  }

  ghost predicate Good(s: Store) { Numbered(s) && OnceEver(s) && KeysOnce(s) }

  lemma AttemptIdInjective(a: nat, b: nat)
    requires AttemptId(a) == AttemptId(b)
    ensures a == b
  {
    NumberOfDecimal(a);
    NumberOfDecimal(b);
    assert AttemptId(a)[4..] == Decimal(a) && AttemptId(b)[4..] == Decimal(b);
  }

  lemma FreshId(s: Store)
    requires Numbered(s)
    ensures AttemptId(s.made + 1) !in s.logs
  {
    var id := AttemptId(s.made + 1);
    if id in s.logs {
      var n: nat :| 1 <= n <= s.made && id == AttemptId(n);
      AttemptIdInjective(n, s.made + 1);
    }
  }

  lemma CreateNumbers(s: Store, t: Store, id: string)
    requires Numbered(s) && t.made == s.made + 1 && id == AttemptId(t.made)
    requires t.attempts.Keys == s.attempts.Keys + {id} && t.logs.Keys == s.logs.Keys + {id}
    ensures Numbered(t)
  {
    hide AttemptId;
    forall a | a in t.logs ensures exists n: nat :: 1 <= n <= t.made && a == AttemptId(n) {
      if a != id {
        var n: nat :| 1 <= n <= s.made && a == AttemptId(n);
      }
    }
  }

  lemma CreateOnce(s: Store, t: Store, id: string)
    requires OnceEver(s) && KeysOnce(s) && s.attempts.Keys == s.logs.Keys && id !in s.logs && id in t.attempts
    requires t.attempts == s.attempts[id := t.attempts[id]] && t.logs == s.logs[id := []]
    ensures OnceEver(t) && KeysOnce(t)
  {
    hide Keys, NoRepeats;
    assert NoRepeats(Keys([])) by { NoKeys(); }
  }

  lemma NoKeys()
    ensures NoRepeats(Keys([]))
  {
    assert Keys([]) == [];
  }

  lemma CreateKeeps(s: Store, user: string, quest: string, snapshot: string)
    requires Good(s)
    ensures Good(Create(s, user, quest, snapshot))
  {
    FreshId(s);
    hide AttemptId, OnceEver, KeysOnce, NoRepeats;
    var t := Create(s, user, quest, snapshot);
    CreateNumbers(s, t, AttemptId(s.made + 1));
    CreateOnce(s, t, AttemptId(s.made + 1));
  }

  /** What a pass keeps: the log grows at its end by what is accepted, holds each
      key and each bonus once, and accepts no bonus that was paid when it began. */
  ghost predicate PassOk(log: seq<Fact>, paid: set<Kind>, p: Pass) {
    && p.log == log + p.accepted && NoRepeats(Keys(p.log)) && paid <= p.awarded
    && (forall i :: 0 <= i < |p.log| && OncePerQuest(p.log[i].kind) ==> p.log[i].kind in p.awarded)
    && (forall i, j :: 0 <= i < j < |p.log| && OncePerQuest(p.log[i].kind) ==> p.log[i].kind != p.log[j].kind)
    && (forall i :: |log| <= i < |p.log| && OncePerQuest(p.log[i].kind) ==> p.log[i].kind !in paid)
  }

  lemma TakeKeeps(log: seq<Fact>, paid: set<Kind>, p: Pass, f: Fact)
    requires PassOk(log, paid, p)
    ensures PassOk(log, paid, Take(p, f))
  {
    KeysAppend(p.log, f);
    hide Keys;
    assert p.log + [f] == log + (p.accepted + [f]);
  }

  lemma {:induction false} TakeAllKeeps(log: seq<Fact>, paid: set<Kind>, p: Pass, incoming: seq<Fact>)
    requires PassOk(log, paid, p)
    ensures PassOk(log, paid, TakeAll(p, incoming))
    decreases |incoming|
  {
    hide PassOk, Take;
    if incoming != [] {
      var n := |incoming| - 1;
      TakeAllKeeps(log, paid, p, incoming[..n]);
      TakeKeeps(log, paid, TakeAll(p, incoming[..n]), incoming[n]);
    }
  }

  lemma AppendKeeps(s: Store, id: string, incoming: seq<Fact>)
    requires Good(s)
    ensures Good(Append(s, id, incoming).0)
  {
    if id in s.attempts && id in s.logs {
      var meta := s.attempts[id];
      var paid := AwardedTo(s, meta.user, meta.quest);
      var start := Pass(s.logs[id], paid, []);
      assert PassOk(s.logs[id], paid, start) by { StartOk(s, id, paid, start); }
      TakeAllKeeps(s.logs[id], paid, start, incoming);
      hide TakeAll, AwardedTo;
      OthersPaid(s, id, paid);
      AppendedOnce(s, id, paid, TakeAll(start, incoming));
    }
  }

  lemma StartOk(s: Store, id: string, paid: set<Kind>, start: Pass)
    requires Good(s) && id in s.logs && paid == AwardedTo(s, s.attempts[id].user, s.attempts[id].quest)
    requires start == Pass(s.logs[id], paid, [])
    ensures PassOk(s.logs[id], paid, start)
  {
    OthersPaid(s, id, paid);
    forall i, j | 0 <= i < j < |start.log| && OncePerQuest(start.log[i].kind)
      ensures start.log[i].kind != start.log[j].kind
    {
      assert SamePair(s, id, id);
    }
    forall i | 0 <= i < |start.log| && OncePerQuest(start.log[i].kind) ensures start.log[i].kind in paid {
      assert SamePair(s, id, id);
    }
  }

  /** Every bonus on an attempt of the same player and quest counts as paid. */
  lemma OthersPaid(s: Store, id: string, paid: set<Kind>)
    requires Numbered(s) && id in s.logs && paid == AwardedTo(s, s.attempts[id].user, s.attempts[id].quest)
    ensures forall a, i ::
              a in s.logs && SamePair(s, a, id) && 0 <= i < |s.logs[a]| && OncePerQuest(s.logs[a][i].kind) ==>
                s.logs[a][i].kind in paid
  {
    forall a, i | a in s.logs && SamePair(s, a, id) && 0 <= i < |s.logs[a]| && OncePerQuest(s.logs[a][i].kind)
      ensures s.logs[a][i].kind in paid
    {
      assert s.logs[a][i] in s.logs[a];
      assert Mine(s, a, s.attempts[id].user, s.attempts[id].quest) && Pays(s.logs[a], s.logs[a][i].kind);
      assert IsAwarded(s, s.attempts[id].user, s.attempts[id].quest, s.logs[a][i].kind);
    }
  }

  lemma AppendedOnce(s: Store, id: string, paid: set<Kind>, p: Pass)
    requires Good(s) && id in s.logs && PassOk(s.logs[id], paid, p)
    requires forall a, i ::
               a in s.logs && SamePair(s, a, id) && 0 <= i < |s.logs[a]| && OncePerQuest(s.logs[a][i].kind) ==>
                 s.logs[a][i].kind in paid
    ensures Good(s.(logs := s.logs[id := p.log]))
  {
    var t := s.(logs := s.logs[id := p.log]);
    assert KeysOnce(t) && Numbered(t) by { hide AttemptId, OnceEver, Keys, NoRepeats; }
    hide Keys, NoRepeats, KeysOnce, AttemptId, Numbered;
    forall b, i, j | b in s.logs && b != id && SamePair(s, b, id) && 0 <= i < |p.log| && 0 <= j < |s.logs[b]|
                     && OncePerQuest(p.log[i].kind)
      ensures p.log[i].kind != s.logs[b][j].kind
    {
      if i < |s.logs[id]| {
        assert p.log[i] == s.logs[id][i] && SamePair(s, id, b);
      }
    }
    assert OnceEver(t);
  }

  /** Over every run each once-ever bonus is accepted at most once per player and
      quest, across all their attempts, and every log holds each event once. */
  lemma {:induction false} BonusesOnceEver(run: seq<Action>)
    ensures Good(Exec(EMPTY, run))
    decreases |run|
  {
    hide Good, Append, Create;
    if run == [] {
      assert Good(EMPTY) by { EmptyGood(); }
    } else {
      var s, a := Exec(EMPTY, run[..|run| - 1]), run[|run| - 1];
      BonusesOnceEver(run[..|run| - 1]);
      match a {
        case Begin(user, quest, snapshot) => CreateKeeps(s, user, quest, snapshot);
        case Receive(id, facts) => AppendKeeps(s, id, facts);
      }
    }
  }

  lemma EmptyGood()
    ensures Good(EMPTY)
  {}

  /** The gate refuses exactly the bonuses the player is told he holds: the answer
      given before play and the refusal at append are one set. */
  lemma GateIsTheAnswer(run: seq<Action>, id: string, f: Fact)
    requires id in Exec(EMPTY, run).logs && f.kind in {CompletionBonus, RatingBonus, CommentBonus}
    ensures var s := Exec(EMPTY, run);
            && id in s.attempts
            && Append(s, id, [f]).1 ==
               Some(if IsAwarded(s, s.attempts[id].user, s.attempts[id].quest, f.kind) then [] else [f])
  {
    BonusesOnceEver(run);
    var s := Exec(EMPTY, run);
    hide Exec;
    var meta := s.attempts[id];
    var start := Pass(s.logs[id], AwardedTo(s, meta.user, meta.quest), []);
    assert [f][..0] == [];
    assert TakeAll(start, []) == start;
    assert TakeAll(start, [f]) == Take(start, f);
    if Known(s.logs[id], f) {
      var e := OfKey(s.logs[id], NaturalKey(f));
      assert NaturalKey(e).kind == f.kind;
      assert Pays(s.logs[id], f.kind) && Mine(s, id, meta.user, meta.quest);
      assert IsAwarded(s, meta.user, meta.quest, f.kind);
    }
    hide IsAwarded, Known;
    assert f.kind in start.awarded <==> IsAwarded(s, meta.user, meta.quest, f.kind);
    assert [] + [f] == [f];
  }

  /** Outside the once-ever kinds the gate is plain deduplication, so everything a
      delivery leaves independent of order holds of the store. */
  lemma {:induction false} AppendIsDelivery(p: Pass, incoming: seq<Fact>)
    requires forall f :: f in incoming ==> !OncePerQuest(f.kind)
    ensures TakeAll(p, incoming).log == Deliver(p.log, incoming) && TakeAll(p, incoming).awarded == p.awarded
    decreases |incoming|
  {
    if incoming != [] {
      var n := |incoming| - 1;
      assert incoming[n] in incoming;
      AppendIsDelivery(p, incoming[..n]);
    }
  }

  // ---- exactly what is accepted --------------------------------------------------------------

  /** Two reports of one event: only the device and the client's verdict may differ. */
  predicate SameEvent(e: Fact, f: Fact) {
    e.kind == f.kind && e.step == f.step && e.submitted == f.submitted && e.coins == f.coins && e.note == f.note
  }

  /** An event is news after the log and what came before it: a bonus if it is not paid and
      not among those, any other event if it is in neither. */
  predicate IsNews(log: seq<Fact>, paid: set<Kind>, before: seq<Fact>, f: Fact) {
    if f.kind == CompletionBonus || f.kind == RatingBonus || f.kind == CommentBonus
    then f.kind !in paid && forall b :: b in before ==> b.kind != f.kind
    else (forall e :: e in log ==> !SameEvent(e, f)) && forall b :: b in before ==> !SameEvent(b, f)
  }

  function NewsIn(log: seq<Fact>, paid: set<Kind>, incoming: seq<Fact>): seq<Fact> {
    if incoming == [] then []
    else
      var (before, f) := (incoming[..|incoming| - 1], incoming[|incoming| - 1]);
      NewsIn(log, paid, before) + if IsNews(log, paid, before, f) then [f] else []
  }

  lemma KnownIsSame(log: seq<Fact>, f: Fact)
    ensures Known(log, f) <==> exists e :: e in log && SameEvent(e, f)
  {
    if Known(log, f) {
      var e := OfKey(log, NaturalKey(f));
      assert SameEvent(e, f);
    }
    if e :| e in log && SameEvent(e, f) {
      var i :| 0 <= i < |log| && log[i] == e;
      assert Keys(log)[i] == NaturalKey(f);
    }
  }

  /** What a pass has done after these events: the news is in the log, the kinds of bonus
      that came are paid. */
  ghost predicate Took(log: seq<Fact>, paid: set<Kind>, incoming: seq<Fact>, p: Pass) {
    && p.log == log + NewsIn(log, paid, incoming) && p.accepted == NewsIn(log, paid, incoming)
    && (forall k :: k in p.awarded <==> k in paid || (OncePerQuest(k) && exists b :: b in incoming && b.kind == k))
    && (forall f :: f in incoming && !OncePerQuest(f.kind) ==> exists e :: e in p.log && SameEvent(e, f))
    && (forall f :: f in p.accepted ==> f in incoming)
  }

  lemma TakesNews(log: seq<Fact>, paid: set<Kind>, before: seq<Fact>, p: Pass, f: Fact)
    requires Took(log, paid, before, p)
    requires forall e :: e in log && OncePerQuest(e.kind) ==> e.kind in paid
    ensures p.accepted + (if IsNews(log, paid, before, f) then [f] else []) == Take(p, f).accepted
    ensures p.log + (if IsNews(log, paid, before, f) then [f] else []) == Take(p, f).log
  {
    KnownIsSame(p.log, f);
    hide Known;
    if !OncePerQuest(f.kind) {
      if b :| b in before && SameEvent(b, f) {
        var e :| e in p.log && SameEvent(e, b);
        assert SameEvent(e, f);
      }
    } else if e :| e in p.log && SameEvent(e, f) {
      assert e.kind == f.kind && (e in log || e in before);
    }
  }

  lemma TookMore(log: seq<Fact>, paid: set<Kind>, incoming: seq<Fact>, p: Pass)
    requires incoming != [] && Took(log, paid, incoming[..|incoming| - 1], p)
    requires forall e :: e in log && OncePerQuest(e.kind) ==> e.kind in paid
    ensures Took(log, paid, incoming, Take(p, incoming[|incoming| - 1]))
  {
    var (before, f) := (incoming[..|incoming| - 1], incoming[|incoming| - 1]);
    var q := Take(p, f);
    TakesNews(log, paid, before, p, f);
    KnownIsSame(p.log, f);
    hide Known, IsNews;
    assert incoming == before + [f];
    assert log + NewsIn(log, paid, incoming) == q.log;
    forall g | g in incoming && !OncePerQuest(g.kind) ensures exists e :: e in q.log && SameEvent(e, g) {
      if g in before {
        var e :| e in p.log && SameEvent(e, g);
        assert e in q.log;
      } else {
        assert g == f;
        if f in q.log { assert SameEvent(f, f); }
      }
    }
  }

  lemma {:induction false} TakesAllNews(log: seq<Fact>, paid: set<Kind>, incoming: seq<Fact>)
    requires forall e :: e in log && OncePerQuest(e.kind) ==> e.kind in paid
    ensures Took(log, paid, incoming, TakeAll(Pass(log, paid, []), incoming))
    decreases |incoming|
  {
    hide Take, IsNews;
    if incoming == [] {
      assert log + [] == log;
    } else {
      TakesAllNews(log, paid, incoming[..|incoming| - 1]);
      hide Took;
      TookMore(log, paid, incoming, TakeAll(Pass(log, paid, []), incoming[..|incoming| - 1]));
    }
  }

  /** Some attempt of the player at the quest holds an event of the kind. */
  ghost predicate Holds(s: Store, user: string, quest: string, k: Kind) {
    exists id, f ::
      && id in s.attempts && s.attempts[id].user == user && s.attempts[id].quest == quest
      && id in s.logs && f in s.logs[id] && f.kind == k
  }

  /** Over every run an append accepts exactly the news, in order: of the completion, rating
      and comment bonuses those no attempt of the player at the quest holds, and of the other
      events those the attempt's log does not hold; each only the first time it comes. */
  lemma AcceptsExactlyTheNews(run: seq<Action>, id: string, incoming: seq<Fact>)
    requires id in Exec(EMPTY, run).logs
    ensures var s := Exec(EMPTY, run); id in s.attempts && AddsTheNews(s, id, incoming, Append(s, id, incoming).0, Append(s, id, incoming).1)
  {
    BonusesOnceEver(run);
    var s := Exec(EMPTY, run);
    hide Exec;
    AppendIsNews(s, id, incoming);
  }

  /** The bonuses an attempt of the player at the quest holds. */
  ghost function BonusesHeld(s: Store, user: string, quest: string): set<Kind> {
    set k: Kind | k in {CompletionBonus, RatingBonus, CommentBonus} && Holds(s, user, quest, k)
  }

  ghost predicate AddsTheNews(s: Store, id: string, incoming: seq<Fact>, t: Store, accepted: Option<seq<Fact>>)
    requires id in s.attempts && id in s.logs
  {
    var news := NewsIn(s.logs[id], BonusesHeld(s, s.attempts[id].user, s.attempts[id].quest), incoming);
    t == s.(logs := s.logs[id := s.logs[id] + news]) && accepted == Some(news)
  }

  lemma AppendIsNews(s: Store, id: string, incoming: seq<Fact>)
    requires Good(s) && id in s.logs
    ensures id in s.attempts && AddsTheNews(s, id, incoming, Append(s, id, incoming).0, Append(s, id, incoming).1)
  {
    var (user, quest) := (s.attempts[id].user, s.attempts[id].quest);
    var paid := BonusesHeld(s, user, quest);
    forall k ensures k in paid <==> IsAwarded(s, user, quest, k) {
      HoldsIsAwarded(s, user, quest, k);
    }
    assert paid == AwardedTo(s, user, quest);
    PaidHere(s, id);
    TakesAllNews(s.logs[id], paid, incoming);
    hide TakeAll, Holds, IsAwarded;
  }

  lemma HoldsIsAwarded(s: Store, user: string, quest: string, k: Kind)
    ensures k in {CompletionBonus, RatingBonus, CommentBonus} && Holds(s, user, quest, k) <==> IsAwarded(s, user, quest, k)
  {
    if k in {CompletionBonus, RatingBonus, CommentBonus} && Holds(s, user, quest, k) {
      var id, f :|
        && id in s.attempts && s.attempts[id].user == user && s.attempts[id].quest == quest
        && id in s.logs && f in s.logs[id] && f.kind == k;
      assert Mine(s, id, user, quest) && Pays(s.logs[id], k);
    }
  }

  lemma PaidHere(s: Store, id: string)
    requires Good(s) && id in s.logs
    ensures forall e :: e in s.logs[id] && OncePerQuest(e.kind) ==> e.kind in AwardedTo(s, s.attempts[id].user, s.attempts[id].quest)
  {
    forall e | e in s.logs[id] && OncePerQuest(e.kind) ensures IsAwarded(s, s.attempts[id].user, s.attempts[id].quest, e.kind) {
      assert Mine(s, id, s.attempts[id].user, s.attempts[id].quest) && Pays(s.logs[id], e.kind);
    }
  }

  /** Over every run the logs of a player's attempts at one quest hold one completion bonus
      at most, one rating bonus and one comment bonus. */
  lemma EachBonusOnce(run: seq<Action>, bonus: Kind, a: string, b: string, i: nat, j: nat)
    requires bonus == CompletionBonus || bonus == RatingBonus || bonus == CommentBonus
    requires var s := Exec(EMPTY, run);
             && a in s.logs && b in s.logs && SamePair(s, a, b) && i < |s.logs[a]| && j < |s.logs[b]|
             && s.logs[a][i].kind == bonus && s.logs[b][j].kind == bonus
    ensures a == b && i == j
  {
    BonusesOnceEver(run);
    hide Exec;
  }
}
