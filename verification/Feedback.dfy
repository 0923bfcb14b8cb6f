/** The feedback inbox: reports grouped by quest, version and step, each group open or
    resolved by a count watermark. */
module Feedback {
  import opened Prelude

  datatype Report = Report(quest: string, snapshot: string, step: int, user: string, note: string, at: nat)

  datatype GroupKey = GroupKey(quest: string, snapshot: string, step: int)

  datatype Group = Group(key: GroupKey, resolved: bool, reports: seq<Report>)

  function KeyOf(r: Report): GroupKey { GroupKey(r.quest, r.snapshot, r.step) }

  // ---- the orders ---------------------------------------------------------------

  /** Newest first; then by player, then by note. */
  predicate ReportLe(a: Report, b: Report) {
    if a.at != b.at then a.at > b.at
    else if a.user != b.user then LexLess(a.user, b.user)
    else LexLe(a.note, b.note)
  }

  predicate KeyLe(a: GroupKey, b: GroupKey) {
    if a.quest != b.quest then LexLess(a.quest, b.quest)
    else if a.snapshot != b.snapshot then LexLess(a.snapshot, b.snapshot)
    else a.step <= b.step
  }

  /** Open before resolved, most reported first, then by key. */
  predicate GroupLe(a: Group, b: Group) {
    if a.resolved != b.resolved then b.resolved
    else if |a.reports| != |b.reports| then |a.reports| > |b.reports|
    else KeyLe(a.key, b.key)
  }

  lemma LexThree(a: string, b: string, c: string)
    ensures LexLess(a, b) || a == b || LexLess(b, a)
    ensures !(LexLess(a, b) && LexLess(b, a)) && !LexLess(a, a)
    ensures LexLess(a, b) && LexLess(b, c) ==> LexLess(a, c)
  {
    LexTotal(a, b);
    if LexLess(a, b) && LexLess(b, c) { LexTransitive(a, b, c); }
  }

  lemma ReportLaws(x: Report, y: Report, z: Report)
    ensures ReportLe(x, y) || ReportLe(y, x)
    ensures ReportLe(x, y) && ReportLe(y, z) ==> ReportLe(x, z)
    ensures ReportLe(x, y) && ReportLe(y, x) && KeyOf(x) == KeyOf(y) ==> x == y
  {
    hide LexLess;
    LexThree(x.user, y.user, z.user);
    LexThree(x.note, y.note, z.note);
  }

  lemma KeyLaws(x: GroupKey, y: GroupKey, z: GroupKey)
    ensures KeyLe(x, y) || KeyLe(y, x)
    ensures KeyLe(x, y) && KeyLe(y, z) ==> KeyLe(x, z)
    ensures KeyLe(x, y) && KeyLe(y, x) ==> x == y
  {
    hide LexLess;
    LexThree(x.quest, y.quest, z.quest);
    LexThree(x.snapshot, y.snapshot, z.snapshot);
  }

  lemma GroupLaws(x: Group, y: Group, z: Group)
    ensures GroupLe(x, y) || GroupLe(y, x)
    ensures GroupLe(x, y) && GroupLe(y, z) ==> GroupLe(x, z)
    ensures GroupLe(x, y) && GroupLe(y, x) ==> x.key == y.key
  {
    hide KeyLe;
    KeyLaws(x.key, y.key, z.key);
  }

  /** Reports of one group are told apart by what they are sorted by. */
  lemma ReportOrder(reports: seq<Report>, k: GroupKey)
    requires forall r :: r in reports ==> KeyOf(r) == k
    ensures TotalOrder(reports, ReportLe)
  {
    hide ReportLe;
    forall x: Report, y: Report, z: Report | Among(x, y, z)
      ensures ReportLe(x, y) || ReportLe(y, x)
      ensures ReportLe(x, y) && ReportLe(y, z) ==> ReportLe(x, z)
      ensures ReportLe(x, y) && ReportLe(y, x) && KeyOf(x) == KeyOf(y) ==> x == y
    {
      ReportLaws(x, y, z);
    }
  }

  lemma KeyOrder(keys: seq<GroupKey>)
    ensures TotalOrder(keys, KeyLe)
  {
    hide KeyLe;
    forall x: GroupKey, y: GroupKey, z: GroupKey | Among(x, y, z)
      ensures KeyLe(x, y) || KeyLe(y, x)
      ensures KeyLe(x, y) && KeyLe(y, z) ==> KeyLe(x, z)
      ensures KeyLe(x, y) && KeyLe(y, x) ==> x == y
    {
      KeyLaws(x, y, z);
    }
  }

  lemma GroupOrder(groups: seq<Group>)
    requires forall g, h :: g in groups && h in groups && g.key == h.key ==> g == h
    ensures TotalOrder(groups, GroupLe)
  {
    hide GroupLe;
    forall x: Group, y: Group, z: Group | Among(x, y, z)
      ensures GroupLe(x, y) || GroupLe(y, x)
      ensures GroupLe(x, y) && GroupLe(y, z) ==> GroupLe(x, z)
      ensures GroupLe(x, y) && GroupLe(y, x) ==> x.key == y.key
    {
      GroupLaws(x, y, z);
    }
  }

  // ---- the grouping ----------------------------------------------------------------

  /** The reports of one group, in the order they came. */
  function Of(reports: seq<Report>, k: GroupKey): (r: seq<Report>)
    ensures forall x :: x in r <==> x in reports && KeyOf(x) == k
  {
    if reports == [] then []
    else
      var last := reports[|reports| - 1];
      Of(reports[..|reports| - 1], k) + (if KeyOf(last) == k then [last] else [])
  }

  /** Resolved while no more reports came than the admin acknowledged. */
  predicate Resolved(k: GroupKey, count: nat, resolutions: map<GroupKey, nat>) {
    k in resolutions && count <= resolutions[k]
  }

  function GroupOf(reports: seq<Report>, resolutions: map<GroupKey, nat>, k: GroupKey): Group {
    var mine := Of(reports, k);
    Group(k, Resolved(k, |mine|, resolutions), Sort(mine, ReportLe))
  }

  function GroupsOf(reports: seq<Report>, resolutions: map<GroupKey, nat>, keys: seq<GroupKey>): (r: seq<Group>)
    ensures |r| == |keys| && forall i :: 0 <= i < |keys| ==> r[i] == GroupOf(reports, resolutions, keys[i])
  {
    if keys == [] then []
    else GroupsOf(reports, resolutions, keys[..|keys| - 1]) + [GroupOf(reports, resolutions, keys[|keys| - 1])]
  }

  function KeysOf(reports: seq<Report>): seq<GroupKey> { Dedup(Sort(Map(KeyOf, reports), KeyLe)) }

  function Grouping(reports: seq<Report>, resolutions: map<GroupKey, nat>): seq<Group> {
    Sort(GroupsOf(reports, resolutions, KeysOf(reports)), GroupLe)
  }

  lemma KeysOfReports(reports: seq<Report>, keys: seq<GroupKey>)
    requires keys == KeysOf(reports)
    ensures NoRepeats(keys) && SameMembers(keys, Map(KeyOf, reports))
  {
    KeyOrder(Map(KeyOf, reports));
    SortedOnce(Map(KeyOf, reports), Sort(Map(KeyOf, reports), KeyLe), keys, KeyLe);
  }

  /** The groups of any listing of the keys are the same groups. */
  lemma GroupsBag(reports: seq<Report>, resolutions: map<GroupKey, nat>, a: seq<GroupKey>, b: seq<GroupKey>)
    requires NoRepeats(a) && NoRepeats(b) && SameMembers(a, b)
    ensures Sort(GroupsOf(reports, resolutions, a), GroupLe) == Sort(GroupsOf(reports, resolutions, b), GroupLe)
  {
    hide GroupOf, GroupLe;
    var f := k => GroupOf(reports, resolutions, k);
    SameBag(a, b);
    MapBag(f, a, b);
    assert Map(f, a) == GroupsOf(reports, resolutions, a);
    assert Map(f, b) == GroupsOf(reports, resolutions, b);
    KeyNamesGroup(reports, resolutions, a);
    GroupOrder(GroupsOf(reports, resolutions, a));
    SortCanonical(GroupsOf(reports, resolutions, a), GroupsOf(reports, resolutions, b), GroupLe);
  }

  lemma KeyNamesGroup(reports: seq<Report>, resolutions: map<GroupKey, nat>, keys: seq<GroupKey>)
    ensures var groups := GroupsOf(reports, resolutions, keys);
            forall g, h :: g in groups && h in groups && g.key == h.key ==> g == h
  {
    hide Sort, Of;
  }

  /** Collect the reports under their keys. */
  method Collect(reports: seq<Report>) returns (byKey: map<GroupKey, seq<Report>>)
    ensures forall k :: k in byKey <==> Of(reports, k) != []
    ensures forall k :: k in byKey ==> byKey[k] == Of(reports, k)
  {
    byKey := map[];
    var i := 0;
    while i < |reports|
      invariant 0 <= i <= |reports|
      invariant forall k :: k in byKey <==> Of(reports[..i], k) != []
      invariant forall k :: k in byKey ==> byKey[k] == Of(reports[..i], k)
    {
      assert reports[..i + 1][..i] == reports[..i];
      var k := KeyOf(reports[i]);
      byKey := byKey[k := (if k in byKey then byKey[k] else []) + [reports[i]]];
      i := i + 1;
    }
    assert reports[..i] == reports;
  }

  /** Group the reports: collect them, visit the collected groups in whatever order
      the table yields them, then sort. */
  method GroupFeedback(reports: seq<Report>, resolutions: map<GroupKey, nat>) returns (groups: seq<Group>)
    ensures groups == Grouping(reports, resolutions)
  {
    hide Sort, GroupLe, Dedup, KeyLe, ReportLe, Of, Grouping, GroupsOf, NoRepeats;
    var byKey := Collect(reports);
    groups := [];
    ghost var visited: seq<GroupKey> := [];
    var left := byKey.Keys;
    NoneVisited(reports, resolutions);
    while left != {}
      invariant left <= byKey.Keys && NoRepeats(visited)
      invariant forall k :: k in visited <==> k in byKey && k !in left
      invariant groups == GroupsOf(reports, resolutions, visited)
      decreases |left|
    {
      var k :| k in left;
      var mine := byKey[k];
      groups := groups + [Group(k, k in resolutions && |mine| <= resolutions[k], Sort(mine, ReportLe))];
      OneVisited(reports, resolutions, visited, k);
      visited := visited + [k];
      left := left - {k};
    }
    Visited(reports, resolutions, visited, groups);
    groups := Sort(groups, GroupLe);
  }

  lemma NoneVisited(reports: seq<Report>, resolutions: map<GroupKey, nat>)
    ensures GroupsOf(reports, resolutions, []) == [] && NoRepeats<GroupKey>([])
  {}

  lemma OneVisited(reports: seq<Report>, resolutions: map<GroupKey, nat>, visited: seq<GroupKey>, k: GroupKey)
    requires NoRepeats(visited) && k !in visited
    ensures NoRepeats(visited + [k])
    ensures GroupsOf(reports, resolutions, visited + [k]) ==
            GroupsOf(reports, resolutions, visited) + [GroupOf(reports, resolutions, k)]
  {
    hide GroupOf;
    assert (visited + [k])[..|visited|] == visited;
  }

  lemma Visited(reports: seq<Report>, resolutions: map<GroupKey, nat>, visited: seq<GroupKey>, groups: seq<Group>)
    requires NoRepeats(visited) && forall k :: k in visited <==> Of(reports, k) != []
    requires groups == GroupsOf(reports, resolutions, visited)
    ensures Sort(groups, GroupLe) == Grouping(reports, resolutions)
  {
    forall k ensures k in visited <==> k in Map(KeyOf, reports) {
      HasKey(reports, k);
    }
    KeysOfReports(reports, KeysOf(reports));
    assert SameMembers(visited, Map(KeyOf, reports));
    assert SameMembers(visited, KeysOf(reports)) by { hide Of, KeysOf; }
    hide KeysOf, NoRepeats, SameMembers;
    GroupsBag(reports, resolutions, visited, KeysOf(reports));
  }

  lemma HasKey(reports: seq<Report>, k: GroupKey)
    ensures k in Map(KeyOf, reports) <==> Of(reports, k) != []
  {
    if k in Map(KeyOf, reports) {
      var i :| 0 <= i < |reports| && Map(KeyOf, reports)[i] == k;
      assert reports[i] in Of(reports, k);
    }
    if Of(reports, k) != [] {
      var r := Of(reports, k)[0];
      assert r in Of(reports, k);
      var i :| 0 <= i < |reports| && reports[i] == r;
      assert Map(KeyOf, reports)[i] == k;
    }
  }

  // ---- what the inbox shows ------------------------------------------------------------

  lemma {:induction false} OfCount(reports: seq<Report>, k: GroupKey, x: Report)
    ensures multiset(Of(reports, k))[x] == if KeyOf(x) == k then multiset(reports)[x] else 0
  {
    if reports != [] {
      var n := |reports| - 1;
      OfCount(reports[..n], k, x);
      assert reports == reports[..n] + [reports[n]];
    }
  }

  lemma SortedOf(a: seq<Report>, b: seq<Report>, k: GroupKey)
    requires multiset(a) == multiset(b)
    ensures |Of(a, k)| == |Of(b, k)| && Sort(Of(a, k), ReportLe) == Sort(Of(b, k), ReportLe)
  {
    hide ReportLe;
    forall x ensures multiset(Of(a, k))[x] == multiset(Of(b, k))[x] {
      OfCount(a, k, x);
      OfCount(b, k, x);
    }
    assert multiset(Of(a, k)) == multiset(Of(b, k));
    SameElements(Of(a, k), Of(b, k));
    ReportOrder(Of(a, k), k);
    SortCanonical(Of(a, k), Of(b, k), ReportLe);
  }

  /** The inbox depends only on which reports there are, not on their order. */
  lemma GroupingOrderFree(a: seq<Report>, b: seq<Report>, resolutions: map<GroupKey, nat>)
    requires multiset(a) == multiset(b)
    ensures Grouping(a, resolutions) == Grouping(b, resolutions)
  {
    hide Sort, Of, KeyLe;
    MapBag(KeyOf, a, b);
    SameElements(Map(KeyOf, a), Map(KeyOf, b));
    KeyOrder(Map(KeyOf, a));
    SortedSet(Map(KeyOf, a), Map(KeyOf, b), KeyLe);
    var keys := KeysOf(a);
    forall k ensures GroupOf(a, resolutions, k) == GroupOf(b, resolutions, k) {
      SortedOf(a, b, k);
    }
    assert GroupsOf(a, resolutions, keys) == GroupsOf(b, resolutions, keys);
  }

  lemma InGrouping(reports: seq<Report>, resolutions: map<GroupKey, nat>, g: Group)
    ensures g in Grouping(reports, resolutions) <==>
            Of(reports, g.key) != [] && g == GroupOf(reports, resolutions, g.key)
  {
    hide Sort, KeyLe, Of;
    var keys := KeysOf(reports);
    var groups := GroupsOf(reports, resolutions, keys);
    KeysOfReports(reports, keys);
    HasKey(reports, g.key);
    InSorted(groups, Sort(groups, GroupLe), g);
    hide KeysOf;
    assert g.key in keys <==> Of(reports, g.key) != [];
    if g in groups {
      var i :| 0 <= i < |keys| && groups[i] == g;
      assert g.key == keys[i];
    }
    if g.key in keys {
      var i :| 0 <= i < |keys| && keys[i] == g.key;
      assert groups[i] == GroupOf(reports, resolutions, g.key);
    }
  }

  lemma InSorted(groups: seq<Group>, sorted: seq<Group>, g: Group)
    requires sorted == Sort(groups, GroupLe)
    ensures g in sorted <==> g in groups
  {
    SortKeeps(groups, GroupLe);
  }

  /** A group is resolved exactly while its reports are no more than the admin
      acknowledged, and shows its reports newest first. */
  lemma GroupContents(reports: seq<Report>, resolutions: map<GroupKey, nat>, g: Group)
    requires g in Grouping(reports, resolutions)
    ensures g.resolved <==> g.key in resolutions && |g.reports| <= resolutions[g.key]
    ensures Sorted(g.reports, ReportLe) && g.reports != []
    ensures forall x :: multiset(g.reports)[x] == if KeyOf(x) == g.key then multiset(reports)[x] else 0
  {
    InGrouping(reports, resolutions, g);
    var mine := Of(reports, g.key);
    SortKeeps(mine, ReportLe);
    ReportOrder(mine, g.key);
    SortSorts(mine, ReportLe);
    forall x ensures multiset(g.reports)[x] == if KeyOf(x) == g.key then multiset(reports)[x] else 0 {
      OfCount(reports, g.key, x);
    }
  }

  /** The order of the inbox: open groups before resolved ones, of those the most reported
      first; and in a group the newest report first. */
  lemma InboxOrder(reports: seq<Report>, resolutions: map<GroupKey, nat>, i: nat, j: nat)
    requires i < j < |Grouping(reports, resolutions)|
    ensures var (g, h) := (Grouping(reports, resolutions)[i], Grouping(reports, resolutions)[j]);
            && (g.resolved ==> h.resolved)
            && (g.resolved == h.resolved ==> |g.reports| >= |h.reports|)
            && (g.resolved == h.resolved && |g.reports| == |h.reports| ==>
                  || LexLess(g.key.quest, h.key.quest)
                  || (g.key.quest == h.key.quest && LexLess(g.key.snapshot, h.key.snapshot))
                  || (g.key.quest == h.key.quest && g.key.snapshot == h.key.snapshot && g.key.step <= h.key.step))
            && (forall a, b :: 0 <= a < b < |g.reports| ==> g.reports[a].at >= g.reports[b].at)
  {
    var groups := Grouping(reports, resolutions);
    InboxSorted(reports, resolutions);
    hide Grouping, LexLess;
    assert GroupLe(groups[i], groups[j]);
    assert groups[i] in groups;
    GroupContents(reports, resolutions, groups[i]);
    NewestFirst(groups[i].reports);
  }

  lemma InboxSorted(reports: seq<Report>, resolutions: map<GroupKey, nat>)
    ensures Sorted(Grouping(reports, resolutions), GroupLe)
  {
    var keys := KeysOf(reports);
    var groups := GroupsOf(reports, resolutions, keys);
    KeyNamesGroup(reports, resolutions, keys);
    GroupOrder(groups);
    SortSorts(groups, GroupLe);
  }

  lemma NewestFirst(reports: seq<Report>)
    requires Sorted(reports, ReportLe)
    ensures forall a, b :: 0 <= a < b < |reports| ==> reports[a].at >= reports[b].at
  {
    forall a, b | 0 <= a < b < |reports| ensures reports[a].at >= reports[b].at {
      assert ReportLe(reports[a], reports[b]);
    }
  }

  function Flatten(groups: seq<Group>): seq<Report> {
    if groups == [] then [] else groups[0].reports + Flatten(groups[1..])
  }

  ghost predicate OwnKeysOnly(groups: seq<Group>) {
    && (forall g :: g in groups ==> forall x :: x in g.reports ==> KeyOf(x) == g.key)
    && (forall i, j :: 0 <= i < j < |groups| ==> groups[i].key != groups[j].key)
  }

  lemma {:induction false} FlatCount(groups: seq<Group>, x: Report)
    requires OwnKeysOnly(groups)
    ensures forall g :: g in groups && g.key == KeyOf(x) ==> multiset(Flatten(groups))[x] == multiset(g.reports)[x]
    ensures (forall g :: g in groups ==> g.key != KeyOf(x)) ==> multiset(Flatten(groups))[x] == 0
  {
    if groups != [] {
      var g, rest := groups[0], groups[1..];
      assert groups == [g] + rest;
      FlatCount(rest, x);
      assert g.key != KeyOf(x) ==> x !in g.reports;
      assert multiset(Flatten(groups))[x] == multiset(g.reports)[x] + multiset(Flatten(rest))[x];
    }
  }

  lemma GroupingOwnKeys(reports: seq<Report>, resolutions: map<GroupKey, nat>, groups: seq<Group>)
    requires groups == Grouping(reports, resolutions)
    ensures OwnKeysOnly(groups)
  {
    forall g | g in groups ensures forall x :: x in g.reports ==> KeyOf(x) == g.key {
      GroupContents(reports, resolutions, g);
      forall x | x in g.reports ensures KeyOf(x) == g.key {
        assert multiset(g.reports)[x] > 0;
      }
    }
    var keys := KeysOf(reports);
    var unsorted := GroupsOf(reports, resolutions, keys);
    KeysOfReports(reports, keys);
    assert NoRepeats(unsorted) by {
      forall i, j | 0 <= i < j < |unsorted| ensures unsorted[i] != unsorted[j] {
        assert unsorted[i].key == keys[i] && unsorted[j].key == keys[j];
      }
    }
    DistinctSorted(unsorted, groups);
    forall i, j | 0 <= i < j < |groups| ensures groups[i].key != groups[j].key {
      InGrouping(reports, resolutions, groups[i]);
      InGrouping(reports, resolutions, groups[j]);
      assert groups[i] in groups && groups[j] in groups;
    }
  }

  lemma DistinctSorted(groups: seq<Group>, sorted: seq<Group>)
    requires NoRepeats(groups) && sorted == Sort(groups, GroupLe)
    ensures NoRepeats(sorted)
  {
    assert multiset(sorted) == multiset(groups) by { SortKeeps(groups, GroupLe); }
    StillDistinct(groups, sorted);
  }

  /** The groups partition the reports: none is lost, duplicated or misfiled. */
  lemma Partition(reports: seq<Report>, resolutions: map<GroupKey, nat>)
    ensures OwnKeysOnly(Grouping(reports, resolutions))
    ensures multiset(Flatten(Grouping(reports, resolutions))) == multiset(reports)
  {
    GroupingOwnKeys(reports, resolutions, Grouping(reports, resolutions));
    Whole(reports, resolutions, Grouping(reports, resolutions));
  }

  lemma Whole(reports: seq<Report>, resolutions: map<GroupKey, nat>, groups: seq<Group>)
    requires groups == Grouping(reports, resolutions) && OwnKeysOnly(groups)
    ensures multiset(Flatten(groups)) == multiset(reports)
  {
    hide Grouping, Flatten, OwnKeysOnly;
    forall x ensures multiset(Flatten(groups))[x] == multiset(reports)[x] {
      if x in reports { KeptInGroup(reports, resolutions, groups, x); } else { NotInGroups(reports, resolutions, groups, x); }
    }
  }

  lemma KeptInGroup(reports: seq<Report>, resolutions: map<GroupKey, nat>, groups: seq<Group>, x: Report)
    requires groups == Grouping(reports, resolutions) && OwnKeysOnly(groups) && x in reports
    ensures multiset(Flatten(groups))[x] == multiset(reports)[x]
  {
    hide Grouping, Flatten, OwnKeysOnly, Sort, ReportLe;
    var g := GroupOf(reports, resolutions, KeyOf(x));
    assert x in Of(reports, KeyOf(x));
    hide Of;
    InGrouping(reports, resolutions, g);
    GroupContents(reports, resolutions, g);
    FlatCount(groups, x);
  }

  lemma NotInGroups(reports: seq<Report>, resolutions: map<GroupKey, nat>, groups: seq<Group>, x: Report)
    requires groups == Grouping(reports, resolutions) && OwnKeysOnly(groups) && x !in reports
    ensures multiset(Flatten(groups))[x] == 0
  {
    hide Grouping, Flatten, OwnKeysOnly;
    FlatCount(groups, x);
    if h :| h in groups && h.key == KeyOf(x) {
      GroupContents(reports, resolutions, h);
      assert multiset(h.reports)[x] == multiset(reports)[x];
    }
  }

  /** One more report on a group acknowledged at its current count reopens exactly
      that group: the others stay as they were. */
  lemma OneMoreReopens(reports: seq<Report>, resolutions: map<GroupKey, nat>, r: Report)
    requires KeyOf(r) in resolutions && resolutions[KeyOf(r)] == |Of(reports, KeyOf(r))|
    ensures var before, after := Grouping(reports, resolutions), Grouping(reports + [r], resolutions);
            && (forall g :: g in before && g.key == KeyOf(r) ==> g.resolved)
            && GroupOf(reports + [r], resolutions, KeyOf(r)) in after
            && (forall g :: g in after && g.key == KeyOf(r) ==> !g.resolved && r in g.reports)
            && (forall g: Group :: g.key != KeyOf(r) ==> (g in before <==> g in after))
  {
    var k := KeyOf(r);
    assert (reports + [r])[..|reports|] == reports;
    assert Of(reports + [r], k) == Of(reports, k) + [r];
    InGrouping(reports + [r], resolutions, GroupOf(reports + [r], resolutions, k));
    forall g: Group ensures g in Grouping(reports, resolutions) && g.key == k ==> g.resolved {
      InGrouping(reports, resolutions, g);
    }
    forall g: Group ensures g in Grouping(reports + [r], resolutions) && g.key == k ==> !g.resolved && r in g.reports {
      InGrouping(reports + [r], resolutions, g);
      SortKeeps(Of(reports + [r], k), ReportLe);
    }
    forall g: Group | g.key != k
      ensures g in Grouping(reports, resolutions) <==> g in Grouping(reports + [r], resolutions)
    {
      InGrouping(reports, resolutions, g);
      InGrouping(reports + [r], resolutions, g);
      assert Of(reports + [r], g.key) == Of(reports, g.key);
    }
  }
}
