/** The per-quest table of the dashboard: every listed quest, and every quest with
    activity that is listed no more, adding up to the period's counters. */
module QuestTable {
  import opened Prelude
  import opened Stats

  datatype Meta = Meta(quest: string, summary: string, pages: Option<nat>)

  datatype Label = Label(name: string, city: Option<string>)

  datatype Row = Row(quest: string, name: string, city: Option<string>, summary: string, pages: Option<nat>,
                     published: bool, counts: Totals)

  const NOTHING := Totals(0, 0, 0)

  function ListedRow(m: Meta, l: Label, t: Totals): Row {
    Row(m.quest, l.name, l.city, m.summary, m.pages, true, t)
  }

  function DelistedRow(quest: string, l: Label, t: Totals): Row {
    Row(quest, l.name, l.city, "", None, false, t)
  }

  /** Most starts first, then most purchases, then by name. */
  predicate RowLe(a: Row, b: Row) {
    if a.counts.started != b.counts.started then a.counts.started > b.counts.started
    else if a.counts.purchased != b.counts.purchased then a.counts.purchased > b.counts.purchased
    else LexLe(a.name, b.name)
  }

  lemma RowLaws(x: Row, y: Row, z: Row)
    ensures RowLe(x, y) || RowLe(y, x)
    ensures RowLe(x, y) && RowLe(y, z) ==> RowLe(x, z)
  {
    hide LexLess;
    LexTotal(x.name, y.name);
    if LexLess(x.name, y.name) && LexLess(y.name, z.name) { LexTransitive(x.name, y.name, z.name); }
  }

  lemma RowOrder(rows: seq<Row>)
    ensures Preorder(rows, RowLe)
  {
    hide RowLe;
    forall x: Row, y: Row, z: Row | Among(x, y, z)
      ensures RowLe(x, y) || RowLe(y, x)
      ensures RowLe(x, y) && RowLe(y, z) ==> RowLe(x, z)
    {
      RowLaws(x, y, z);
    }
  }

  // ---- the rows -----------------------------------------------------------------

  predicate Listed(metas: seq<Meta>, quest: string) { exists i :: 0 <= i < |metas| && metas[i].quest == quest }

  predicate Active(ev: Events, r: DayRange, quest: string) { TotalsIn(ev, r, Some(quest)) != NOTHING }

  /** One row per listing; a quest listed again finds its counts already taken. */
  function ListedRows(metas: seq<Meta>, labels: string -> Label, ev: Events, r: DayRange): seq<Row> {
    if metas == [] then []
    else
      var (rest, m) := (metas[..|metas| - 1], metas[|metas| - 1]);
      ListedRows(rest, labels, ev, r)
      + [ListedRow(m, labels(m.quest), if Listed(rest, m.quest) then NOTHING else TotalsIn(ev, r, Some(m.quest)))]
  }

  function DelistedRows(quests: seq<string>, labels: string -> Label, ev: Events, r: DayRange): seq<Row> {
    if quests == [] then []
    else
      var (rest, q) := (quests[..|quests| - 1], quests[|quests| - 1]);
      DelistedRows(rest, labels, ev, r) + [DelistedRow(q, labels(q), TotalsIn(ev, r, Some(q)))]
  }

  /** The quests with activity that are listed nowhere, each once. */
  ghost predicate Leftovers(quests: seq<string>, metas: seq<Meta>, ev: Events, r: DayRange) {
    NoRepeats(quests) && forall q :: q in quests <==> Active(ev, r, q) && !Listed(metas, q)
  }

  /** The table, with the leftover quests taken in the order of `extra`. */
  function Table(metas: seq<Meta>, labels: string -> Label, ev: Events, r: DayRange, extra: seq<string>): seq<Row> {
    Sort(ListedRows(metas, labels, ev, r) + DelistedRows(extra, labels, ev, r), RowLe)
  }

  function At(byQuest: map<string, Totals>, quest: string): Totals {
    if quest in byQuest then byQuest[quest] else NOTHING
  }

  lemma NothingCounted(r: DayRange)
    ensures forall q :: CountIn([], r, Some(q)) == 0
  {}

  lemma CountedNext(events: seq<StatEvent>, r: DayRange, i: nat)
    requires i < |events|
    ensures forall q :: CountIn(events[..i + 1], r, Some(q)) ==
                        CountIn(events[..i], r, Some(q)) + if Contains(r, events[i].at) && events[i].quest == q then 1 else 0
  {
    assert events[..i + 1][..i] == events[..i];
  }

  /** One pass per stream over one table. */
  method Tally(ev: Events, r: DayRange) returns (byQuest: map<string, Totals>)
    ensures forall q :: q in byQuest <==> Active(ev, r, q)
    ensures forall q :: At(byQuest, q) == TotalsIn(ev, r, Some(q))
  {
    NothingCounted(r);
    hide CountIn;
    byQuest := map[];
    var i := 0;
    while i < |ev.purchases|
      invariant 0 <= i <= |ev.purchases|
      invariant forall q :: At(byQuest, q) == Totals(CountIn(ev.purchases[..i], r, Some(q)), 0, 0)
      invariant forall q :: q in byQuest ==> byQuest[q] != NOTHING
    {
      CountedNext(ev.purchases, r, i);
      var e := ev.purchases[i];
      if Contains(r, e.at) {
        var t := At(byQuest, e.quest);
        byQuest := byQuest[e.quest := t.(purchased := t.purchased + 1)];
      }
      i := i + 1;
    }
    assert ev.purchases[..i] == ev.purchases;
    i := 0;
    while i < |ev.starts|
      invariant 0 <= i <= |ev.starts|
      invariant forall q :: At(byQuest, q) ==
                  Totals(CountIn(ev.purchases, r, Some(q)), CountIn(ev.starts[..i], r, Some(q)), 0)
      invariant forall q :: q in byQuest ==> byQuest[q] != NOTHING
    {
      CountedNext(ev.starts, r, i);
      var e := ev.starts[i];
      if Contains(r, e.at) {
        var t := At(byQuest, e.quest);
        byQuest := byQuest[e.quest := t.(started := t.started + 1)];
      }
      i := i + 1;
    }
    assert ev.starts[..i] == ev.starts;
    i := 0;
    while i < |ev.finishes|
      invariant 0 <= i <= |ev.finishes|
      invariant forall q :: At(byQuest, q) ==
                  Totals(CountIn(ev.purchases, r, Some(q)), CountIn(ev.starts, r, Some(q)), CountIn(ev.finishes[..i], r, Some(q)))
      invariant forall q :: q in byQuest ==> byQuest[q] != NOTHING
    {
      CountedNext(ev.finishes, r, i);
      var e := ev.finishes[i];
      if Contains(r, e.at) {
        var t := At(byQuest, e.quest);
        byQuest := byQuest[e.quest := t.(finished := t.finished + 1)];
      }
      i := i + 1;
    }
    assert ev.finishes[..i] == ev.finishes;
  }

  /** The listed quests take their counts out of the tally in turn. */
  method TakeListed(metas: seq<Meta>, labels: string -> Label, ev: Events, r: DayRange, tally: map<string, Totals>)
    returns (rows: seq<Row>, left: map<string, Totals>)
    requires forall q :: q in tally <==> Active(ev, r, q)
    requires forall q :: At(tally, q) == TotalsIn(ev, r, Some(q))
    ensures rows == ListedRows(metas, labels, ev, r)
    ensures forall q :: q in left <==> Active(ev, r, q) && !Listed(metas, q)
    ensures forall q :: q in left ==> left[q] == TotalsIn(ev, r, Some(q))
  {
    hide Active, TotalsIn, Listed;
    rows, left := [], tally;
    var i := 0;
    assert forall q :: !Listed(metas[..0], q) by { NoneListed(metas[..0]); }
    while i < |metas|
      invariant 0 <= i <= |metas|
      invariant rows == ListedRows(metas[..i], labels, ev, r)
      invariant forall q :: q in left <==> Active(ev, r, q) && !Listed(metas[..i], q)
      invariant forall q :: !Listed(metas[..i], q) ==> At(left, q) == TotalsIn(ev, r, Some(q))
    {
      var m := metas[i];
      ListedMore(metas, i);
      assert metas[..i + 1][..i] == metas[..i];
      var t := At(left, m.quest);
      left := left - {m.quest};
      rows := rows + [ListedRow(m, labels(m.quest), t)];
      i := i + 1;
    }
    assert metas[..i] == metas;
  }

  /** What is left over becomes a delisted row each, in whatever order the table
      yields them. */
  method TakeLeft(left: map<string, Totals>, labels: string -> Label, ev: Events, r: DayRange)
    returns (rows: seq<Row>, ghost extra: seq<string>)
    requires forall q :: q in left ==> left[q] == TotalsIn(ev, r, Some(q))
    ensures NoRepeats(extra) && forall q :: q in extra <==> q in left
    ensures rows == DelistedRows(extra, labels, ev, r) && |rows| == |left|
  {
    hide TotalsIn;
    rows, extra := [], [];
    var keys := left.Keys;
    while keys != {}
      invariant keys <= left.Keys && NoRepeats(extra)
      invariant forall q :: q in extra <==> q in left && q !in keys
      invariant rows == DelistedRows(extra, labels, ev, r) && |rows| + |keys| == |left|
      decreases |keys|
    {
      var q :| q in keys;
      assert (extra + [q])[..|extra|] == extra;
      rows := rows + [DelistedRow(q, labels(q), left[q])];
      extra := extra + [q];
      keys := keys - {q};
    }
  }

  /** The table: the listed quests, then the leftovers, then one sort. Every column
      adds up to the period's counter, for any listings. */
  method QuestRows(metas: seq<Meta>, labels: string -> Label, ev: Events, r: DayRange)
    returns (rows: seq<Row>, ghost extra: seq<string>)
    ensures Leftovers(extra, metas, ev, r)
    ensures rows == Table(metas, labels, ev, r, extra)
    ensures multiset(rows) == multiset(ListedRows(metas, labels, ev, r) + DelistedRows(extra, labels, ev, r))
    ensures Sorted(rows, RowLe)
    ensures forall c: Column :: ColumnSum(rows, c) == CountIn(EventsOf(ev, c), r, None)
  {
    hide Active, Sort, RowLe, ListedRows, DelistedRows, CountIn, ColumnSum;
    var tally := Tally(ev, r);
    var left;
    rows, left := TakeListed(metas, labels, ev, r, tally);
    var more;
    more, extra := TakeLeft(left, labels, ev, r);
    rows := rows + more;
    TableAddsUp(metas, labels, ev, r, extra, rows);
    SortKeeps(rows, RowLe);
    RowOrder(rows);
    SortSorts(rows, RowLe);
    SortedColumns(rows, Sort(rows, RowLe));
    rows := Sort(rows, RowLe);
  }

  lemma NoneListed(metas: seq<Meta>)
    requires metas == []
    ensures forall q :: !Listed(metas, q)
  {}

  lemma ListedMore(metas: seq<Meta>, i: nat)
    requires i < |metas|
    ensures forall q :: Listed(metas[..i + 1], q) <==> Listed(metas[..i], q) || q == metas[i].quest
  {
    forall q ensures Listed(metas[..i + 1], q) <==> Listed(metas[..i], q) || q == metas[i].quest {
      if Listed(metas[..i], q) {
        var j :| 0 <= j < i && metas[..i][j].quest == q;
        assert metas[..i + 1][j].quest == q;
      }
      if q == metas[i].quest { assert metas[..i + 1][i].quest == q; }
      if Listed(metas[..i + 1], q) && q != metas[i].quest {
        var j :| 0 <= j < i + 1 && metas[..i + 1][j].quest == q;
        assert metas[..i][j].quest == q;
      }
    }
  }

  // ---- the columns add up ---------------------------------------------------------

  datatype Column = Purchased | Started | Finished

  function EventsOf(ev: Events, c: Column): seq<StatEvent> {
    match c
    case Purchased => ev.purchases
    case Started => ev.starts
    case Finished => ev.finishes
  }

  function Value(row: Row, c: Column): int {
    match c
    case Purchased => row.counts.purchased
    case Started => row.counts.started
    case Finished => row.counts.finished
  }

  function ColumnSum(rows: seq<Row>, c: Column): int {
    if rows == [] then 0 else ColumnSum(rows[..|rows| - 1], c) + Value(rows[|rows| - 1], c)
  }

  /** The counts of these quests together. */
  function QuestsTotal(events: seq<StatEvent>, r: DayRange, quests: seq<string>): int {
    if quests == [] then 0
    else QuestsTotal(events, r, quests[..|quests| - 1]) + CountIn(events, r, Some(quests[|quests| - 1]))
  }

  lemma {:induction false} QuestsTotalOfLast(events: seq<StatEvent>, r: DayRange, quests: seq<string>)
    requires events != [] && NoRepeats(quests)
    ensures var e := events[|events| - 1];
            QuestsTotal(events, r, quests) == QuestsTotal(events[..|events| - 1], r, quests)
            + (if Contains(r, e.at) && e.quest in quests then 1 else 0)
  {
    if quests != [] {
      var n := |quests| - 1;
      QuestsTotalOfLast(events, r, quests[..n]);
      assert quests == quests[..n] + [quests[n]];
    }
  }

  /** Distinct quests that cover every event of the range count each event once. */
  lemma {:induction false} QuestsAddUp(events: seq<StatEvent>, r: DayRange, quests: seq<string>)
    requires NoRepeats(quests) && forall e :: e in events && Contains(r, e.at) ==> e.quest in quests
    ensures QuestsTotal(events, r, quests) == CountIn(events, r, None)
  {
    if events == [] {
      NoEventsAtAll(r, quests);
    } else {
      var n := |events| - 1;
      assert events[n] in events;
      QuestsAddUp(events[..n], r, quests);
      QuestsTotalOfLast(events, r, quests);
    }
  }

  lemma {:induction false} NoEventsAtAll(r: DayRange, quests: seq<string>)
    ensures QuestsTotal([], r, quests) == 0
  {
    if quests != [] { NoEventsAtAll(r, quests[..|quests| - 1]); }
  }

  lemma {:induction false} QuestsConcat(events: seq<StatEvent>, r: DayRange, a: seq<string>, b: seq<string>)
    ensures QuestsTotal(events, r, a + b) == QuestsTotal(events, r, a) + QuestsTotal(events, r, b)
    decreases |b|
  {
    if b == [] {
      assert a + b == a;
    } else {
      assert (a + b)[..|a + b| - 1] == a + b[..|b| - 1];
      QuestsConcat(events, r, a, b[..|b| - 1]);
    }
  }

  /** The quests in the order of their first listing. */
  function Firsts(metas: seq<Meta>): seq<string> {
    if metas == [] then []
    else
      var (rest, m) := (metas[..|metas| - 1], metas[|metas| - 1]);
      Firsts(rest) + (if Listed(rest, m.quest) then [] else [m.quest])
  }

  lemma {:induction false} FirstsListed(metas: seq<Meta>)
    ensures NoRepeats(Firsts(metas)) && forall q :: q in Firsts(metas) <==> Listed(metas, q)
  {
    if metas == [] {
      NoneListed(metas);
    } else {
      var n := |metas| - 1;
      FirstsListed(metas[..n]);
      ListedMore(metas, n);
      assert metas[..n + 1] == metas;
    }
  }

  lemma OneMoreRow(rows: seq<Row>, row: Row, c: Column)
    ensures ColumnSum(rows + [row], c) == ColumnSum(rows, c) + Value(row, c)
  {
    assert (rows + [row])[..|rows|] == rows;
  }

  lemma OneMoreQuest(events: seq<StatEvent>, r: DayRange, quests: seq<string>, q: string)
    ensures QuestsTotal(events, r, quests + [q]) == QuestsTotal(events, r, quests) + CountIn(events, r, Some(q))
  {
    assert (quests + [q])[..|quests|] == quests;
  }

  lemma CountShown(m: Meta, l: Label, ev: Events, r: DayRange, c: Column)
    ensures Value(ListedRow(m, l, TotalsIn(ev, r, Some(m.quest))), c) == CountIn(EventsOf(ev, c), r, Some(m.quest))
    ensures Value(ListedRow(m, l, NOTHING), c) == 0
  {
    hide CountIn;
  }

  lemma {:induction false} ListedSum(metas: seq<Meta>, labels: string -> Label, ev: Events, r: DayRange, c: Column)
    ensures ColumnSum(ListedRows(metas, labels, ev, r), c) == QuestsTotal(EventsOf(ev, c), r, Firsts(metas))
  {
    hide Listed, CountIn, TotalsIn, EventsOf, Value, ListedRow;
    if metas != [] {
      var (rest, m) := (metas[..|metas| - 1], metas[|metas| - 1]);
      ListedSum(rest, labels, ev, r, c);
      hide ColumnSum, QuestsTotal;
      CountShown(m, labels(m.quest), ev, r, c);
      var counts := if Listed(rest, m.quest) then NOTHING else TotalsIn(ev, r, Some(m.quest));
      OneMoreRow(ListedRows(rest, labels, ev, r), ListedRow(m, labels(m.quest), counts), c);
      if Listed(rest, m.quest) {
        assert Firsts(metas) == Firsts(rest);
      } else {
        OneMoreQuest(EventsOf(ev, c), r, Firsts(rest), m.quest);
      }
    }
  }

  lemma {:induction false} DelistedSum(quests: seq<string>, labels: string -> Label, ev: Events, r: DayRange, c: Column)
    ensures ColumnSum(DelistedRows(quests, labels, ev, r), c) == QuestsTotal(EventsOf(ev, c), r, quests)
  {
    hide CountIn;
    if quests != [] {
      var (rest, q) := (quests[..|quests| - 1], quests[|quests| - 1]);
      DelistedSum(rest, labels, ev, r, c);
      OneMoreRow(DelistedRows(rest, labels, ev, r), DelistedRow(q, labels(q), TotalsIn(ev, r, Some(q))), c);
    }
  }

  lemma {:induction false} ColumnConcat(a: seq<Row>, b: seq<Row>, c: Column)
    ensures ColumnSum(a + b, c) == ColumnSum(a, c) + ColumnSum(b, c)
    decreases |b|
  {
    if b == [] {
      assert a + b == a;
    } else {
      assert (a + b)[..|a + b| - 1] == a + b[..|b| - 1];
      ColumnConcat(a, b[..|b| - 1], c);
    }
  }

  lemma {:induction false} ActiveQuest(events: seq<StatEvent>, r: DayRange, e: StatEvent)
    requires e in events && Contains(r, e.at)
    ensures CountIn(events, r, Some(e.quest)) > 0
  {
    var n := |events| - 1;
    if e != events[n] {
      assert events == events[..n] + [events[n]];
      ActiveQuest(events[..n], r, e);
    }
  }

  lemma TableAddsUp(metas: seq<Meta>, labels: string -> Label, ev: Events, r: DayRange, extra: seq<string>, rows: seq<Row>)
    requires Leftovers(extra, metas, ev, r)
    requires rows == ListedRows(metas, labels, ev, r) + DelistedRows(extra, labels, ev, r)
    ensures forall c: Column :: ColumnSum(rows, c) == CountIn(EventsOf(ev, c), r, None)
  {
    forall c: Column ensures ColumnSum(rows, c) == CountIn(EventsOf(ev, c), r, None) {
      ListedSum(metas, labels, ev, r, c);
      DelistedSum(extra, labels, ev, r, c);
      ColumnConcat(ListedRows(metas, labels, ev, r), DelistedRows(extra, labels, ev, r), c);
      QuestsConcat(EventsOf(ev, c), r, Firsts(metas), extra);
      Covered(metas, ev, r, extra, c);
      QuestsAddUp(EventsOf(ev, c), r, Firsts(metas) + extra);
    }
  }

  lemma Covered(metas: seq<Meta>, ev: Events, r: DayRange, extra: seq<string>, c: Column)
    requires Leftovers(extra, metas, ev, r)
    ensures NoRepeats(Firsts(metas) + extra)
    ensures forall e :: e in EventsOf(ev, c) && Contains(r, e.at) ==> e.quest in Firsts(metas) + extra
  {
    FirstsListed(metas);
    hide Listed;
    forall e | e in EventsOf(ev, c) && Contains(r, e.at) ensures e.quest in Firsts(metas) + extra {
      ActiveQuest(EventsOf(ev, c), r, e);
      assert Active(ev, r, e.quest);
    }
    hide Firsts, Active;
    forall i, j | 0 <= i < |Firsts(metas)| && 0 <= j < |extra| ensures Firsts(metas)[i] != extra[j] {
      assert Firsts(metas)[i] in Firsts(metas) && extra[j] in extra;
    }
  }

  /** Sorting changes no column. */
  lemma SortedColumns(rows: seq<Row>, sorted: seq<Row>)
    requires multiset(sorted) == multiset(rows)
    ensures forall c: Column :: ColumnSum(sorted, c) == ColumnSum(rows, c)
  {
    forall c: Column ensures ColumnSum(sorted, c) == ColumnSum(rows, c) {
      var f := (row: Row) => Value(row, c);
      ColumnIsSum(rows, c, f);
      ColumnIsSum(sorted, c, f);
      MapBag(f, sorted, rows);
      SumOfBag(Map(f, sorted), Map(f, rows));
    }
  }

  lemma {:induction false} ColumnIsSum(rows: seq<Row>, c: Column, f: Row -> int)
    requires forall row :: f(row) == Value(row, c)
    ensures ColumnSum(rows, c) == Sum(Map(f, rows))
  {
    if rows != [] {
      var n := |rows| - 1;
      ColumnIsSum(rows[..n], c, f);
      assert rows == rows[..n] + [rows[n]];
      MapConcat(f, rows[..n], [rows[n]]);
      assert Map(f, [rows[n]]) == [f(rows[n])];
      SumConcat(Map(f, rows[..n]), [f(rows[n])]);
    }
  }

  /** The row of a listing shows the quest under its label with the listing's summary and
      pages, published, and its counts if it was not listed before. */
  lemma {:induction false} ListingShown(metas: seq<Meta>, labels: string -> Label, ev: Events, r: DayRange, i: nat)
    requires i < |metas|
    ensures |ListedRows(metas, labels, ev, r)| == |metas|
    ensures var (row, m) := (ListedRows(metas, labels, ev, r)[i], metas[i]);
            && row.quest == m.quest && row.name == labels(m.quest).name && row.city == labels(m.quest).city
            && row.summary == m.summary && row.pages == m.pages && row.published
            && row.counts == if exists j :: 0 <= j < i && metas[j].quest == m.quest then Totals(0, 0, 0)
                             else Totals(CountIn(ev.purchases, r, Some(m.quest)), CountIn(ev.starts, r, Some(m.quest)),
                                         CountIn(ev.finishes, r, Some(m.quest)))
    decreases |metas|
  {
    hide CountIn;
    var n := |metas| - 1;
    if n > 0 { ListingShown(metas[..n], labels, ev, r, if i < n then i else 0); }
    if i == n { FirstListing(metas, n); } else { SameListing(metas, i, n); }
    hide Listed;
  }

  lemma FirstListing(metas: seq<Meta>, n: nat)
    requires n < |metas|
    ensures Listed(metas[..n], metas[n].quest) <==> exists j :: 0 <= j < n && metas[j].quest == metas[n].quest
  {
    if j :| 0 <= j < n && metas[j].quest == metas[n].quest { assert metas[..n][j].quest == metas[n].quest; }
    if Listed(metas[..n], metas[n].quest) {
      var j :| 0 <= j < n && metas[..n][j].quest == metas[n].quest;
      assert metas[j].quest == metas[n].quest;
    }
  }

  lemma SameListing(metas: seq<Meta>, i: nat, n: nat)
    requires i < n <= |metas|
    ensures (exists j :: 0 <= j < i && metas[j].quest == metas[i].quest)
            <==> (exists j :: 0 <= j < i && metas[..n][j].quest == metas[..n][i].quest)
  {
    assert forall j :: 0 <= j < n ==> metas[..n][j] == metas[j];
  }

  /** A quest listed no more is shown under its label, without summary or pages, unpublished,
      with all its counts. */
  lemma LeftoverShown(quests: seq<string>, labels: string -> Label, ev: Events, r: DayRange, i: nat)
    requires i < |quests|
    ensures |DelistedRows(quests, labels, ev, r)| == |quests|
    ensures var (row, q) := (DelistedRows(quests, labels, ev, r)[i], quests[i]);
            && row.quest == q && row.name == labels(q).name && row.city == labels(q).city
            && row.summary == "" && row.pages.None? && !row.published
            && row.counts == Totals(CountIn(ev.purchases, r, Some(q)), CountIn(ev.starts, r, Some(q)),
                                    CountIn(ev.finishes, r, Some(q)))
  {
    hide CountIn;
    DelistedAt(quests, labels, ev, r);
  }

  /** The order of the table, read off its rows: a row further up has more starts, or as many
      and more purchases, or as many of both and a name that is not later. */
  lemma BusiestFirst(rows: seq<Row>, i: nat, j: nat)
    requires Sorted(rows, RowLe) && i < j < |rows|
    ensures rows[i].counts.started >= rows[j].counts.started
    ensures rows[i].counts.started == rows[j].counts.started ==> rows[i].counts.purchased >= rows[j].counts.purchased
    ensures rows[i].counts.started == rows[j].counts.started && rows[i].counts.purchased == rows[j].counts.purchased ==>
              LexLe(rows[i].name, rows[j].name)
  {
    hide LexLe;
    assert RowLe(rows[i], rows[j]);
  }

  // ---- when the table is determined -------------------------------------------------------

  /** Nothing the table is sorted by tells the rows apart. */
  predicate Tied(a: Row, b: Row) {
    a.counts.started == b.counts.started && a.counts.purchased == b.counts.purchased && a.name == b.name
  }

  lemma TiedBothWays(a: Row, b: Row)
    ensures Tied(a, b) <==> RowLe(a, b) && RowLe(b, a)
  {
    hide LexLess;
    LexLaws(a.name, b.name, a.name);
  }

  function LeftRow(q: string, labels: string -> Label, ev: Events, r: DayRange): Row {
    DelistedRow(q, labels(q), TotalsIn(ev, r, Some(q)))
  }

  /** No two of the leftover quests tie. */
  ghost predicate NoTies(quests: seq<string>, labels: string -> Label, ev: Events, r: DayRange) {
    forall p, q :: p in quests && q in quests && Tied(LeftRow(p, labels, ev, r), LeftRow(q, labels, ev, r)) ==> p == q
  }

  /** In whatever order the leftovers come, the table is the same. */
  ghost predicate OneTable(metas: seq<Meta>, labels: string -> Label, ev: Events, r: DayRange) {
    forall a, b :: Leftovers(a, metas, ev, r) && Leftovers(b, metas, ev, r) ==>
                     Table(metas, labels, ev, r, a) == Table(metas, labels, ev, r, b)
  }

  /** Rows put in front of others are sorted into what those are sorted to. */
  lemma {:induction false} SortedInto(front: seq<Row>, a: seq<Row>, b: seq<Row>)
    requires Sort(a, RowLe) == Sort(b, RowLe)
    ensures Sort(front + a, RowLe) == Sort(front + b, RowLe)
  {
    hide RowLe;
    if front == [] {
      assert front + a == a && front + b == b;
    } else {
      SortedInto(front[1..], a, b);
      assert (front + a)[0] == front[0] && (front + a)[1..] == front[1..] + a;
      assert (front + b)[0] == front[0] && (front + b)[1..] == front[1..] + b;
    }
  }

  lemma {:induction false} DelistedAt(quests: seq<string>, labels: string -> Label, ev: Events, r: DayRange)
    ensures DelistedRows(quests, labels, ev, r) == Map(q => LeftRow(q, labels, ev, r), quests)
  {
    hide TotalsIn;
    var f := q => LeftRow(q, labels, ev, r);
    if quests != [] {
      var n := |quests| - 1;
      DelistedAt(quests[..n], labels, ev, r);
      assert quests == quests[..n] + [quests[n]];
      MapConcat(f, quests[..n], [quests[n]]);
      assert Map(f, [quests[n]]) == [f(quests[n])];
    }
  }

  lemma LeftoverBag(a: seq<string>, b: seq<string>, labels: string -> Label, ev: Events, r: DayRange)
    requires NoRepeats(a) && NoRepeats(b) && SameMembers(a, b)
    ensures multiset(DelistedRows(a, labels, ev, r)) == multiset(DelistedRows(b, labels, ev, r))
  {
    hide TotalsIn;
    SameBag(a, b);
    DelistedAt(a, labels, ev, r);
    DelistedAt(b, labels, ev, r);
    MapBag(q => LeftRow(q, labels, ev, r), a, b);
  }

  /** Without ties the order of the rows tells them apart. */
  lemma TellsApart(quests: seq<string>, labels: string -> Label, ev: Events, r: DayRange)
    requires NoTies(quests, labels, ev, r)
    ensures TotalOrder(DelistedRows(quests, labels, ev, r), RowLe)
  {
    hide TotalsIn, RowLe, Tied, LeftRow, NoTies, DelistedRows, Preorder;
    var rows := DelistedRows(quests, labels, ev, r);
    DelistedAt(quests, labels, ev, r);
    RowOrder(rows);
    forall x, y | Among(x, y, y) && x in rows && y in rows && RowLe(x, y) && RowLe(y, x) ensures x == y {
      var i :| 0 <= i < |rows| && rows[i] == x;
      var j :| 0 <= j < |rows| && rows[j] == y;
      NotTied(quests, labels, ev, r, i, j);
    }
  }

  lemma NotTied(quests: seq<string>, labels: string -> Label, ev: Events, r: DayRange, i: nat, j: nat)
    requires NoTies(quests, labels, ev, r) && i < |quests| && j < |quests|
    requires var (x, y) := (LeftRow(quests[i], labels, ev, r), LeftRow(quests[j], labels, ev, r)); RowLe(x, y) && RowLe(y, x)
    ensures LeftRow(quests[i], labels, ev, r) == LeftRow(quests[j], labels, ev, r)
  {
    hide RowLe, Tied, LeftRow;
    TiedBothWays(LeftRow(quests[i], labels, ev, r), LeftRow(quests[j], labels, ev, r));
    assert quests[i] in quests && quests[j] in quests;
  }

  lemma SameTable(metas: seq<Meta>, labels: string -> Label, ev: Events, r: DayRange, a: seq<string>, b: seq<string>)
    requires NoRepeats(a) && NoRepeats(b) && SameMembers(a, b) && NoTies(a, labels, ev, r)
    ensures Table(metas, labels, ev, r, a) == Table(metas, labels, ev, r, b)
  {
    hide NoTies, RowLe, ListedRows, DelistedRows;
    LeftoverBag(a, b, labels, ev, r);
    TellsApart(a, labels, ev, r);
    SortCanonical(DelistedRows(a, labels, ev, r), DelistedRows(b, labels, ev, r), RowLe);
    SortedInto(ListedRows(metas, labels, ev, r), DelistedRows(a, labels, ev, r), DelistedRows(b, labels, ev, r));
  }

  /** The rows that tie with `k`, in order. */
  function TiedWith(k: Row, rows: seq<Row>): seq<Row> {
    if rows == [] then [] else (if Tied(rows[0], k) then [rows[0]] else []) + TiedWith(k, rows[1..])
  }

  lemma {:induction false} InsertTied(x: Row, s: seq<Row>, k: Row)
    ensures TiedWith(k, Insert(x, s, RowLe)) == (if Tied(x, k) then [x] else []) + TiedWith(k, s)
  {
    hide RowLe;
    if s != [] {
      TiedBothWays(x, s[0]);
      if RowLe(x, s[0]) {
        assert ([x] + s)[1..] == s;
      } else {
        InsertTied(x, s[1..], k);
        assert ([s[0]] + Insert(x, s[1..], RowLe))[1..] == Insert(x, s[1..], RowLe);
      }
    } else {
      assert [x][1..] == [];
    }
  }

  /** The sort leaves rows that tie in the order they came in. */
  lemma {:induction false} SortStable(s: seq<Row>, k: Row)
    ensures TiedWith(k, Sort(s, RowLe)) == TiedWith(k, s)
  {
    hide RowLe, Tied;
    if s != [] {
      SortStable(s[1..], k);
      InsertTied(s[0], Sort(s[1..], RowLe), k);
    }
  }

  lemma {:induction false} TiedConcat(a: seq<Row>, b: seq<Row>, k: Row)
    ensures TiedWith(k, a + b) == TiedWith(k, a) + TiedWith(k, b)
  {
    hide Tied;
    if a == [] {
      assert a + b == b;
    } else {
      assert (a + b)[0] == a[0] && (a + b)[1..] == a[1..] + b;
      TiedConcat(a[1..], b, k);
    }
  }

  /** The same leftovers with one of them in front. */
  lemma InFront(quests: seq<string>, p: string) returns (moved: seq<string>)
    requires NoRepeats(quests) && p in quests
    ensures NoRepeats(moved) && SameMembers(moved, quests) && moved != [] && moved[0] == p
  {
    var i :| 0 <= i < |quests| && quests[i] == p;
    moved := [p] + quests[..i] + quests[i + 1..];
    assert forall j :: 1 <= j <= i ==> moved[j] == quests[j - 1];
    assert forall j :: i < j < |moved| ==> moved[j] == quests[j];
    forall q | q in quests ensures q in moved {
      var j :| 0 <= j < |quests| && quests[j] == q;
      if j < i { assert moved[j + 1] == q; } else if j > i { assert moved[j] == q; }
    }
  }

  /** Of the rows that tie with `k`, the first leftover comes right after the listed. */
  lemma TiedInTable(metas: seq<Meta>, labels: string -> Label, ev: Events, r: DayRange, extra: seq<string>, k: Row)
    requires extra != [] && Tied(LeftRow(extra[0], labels, ev, r), k)
    ensures var (tied, at) := (TiedWith(k, Table(metas, labels, ev, r, extra)), |TiedWith(k, ListedRows(metas, labels, ev, r))|);
            at < |tied| && tied[at] == LeftRow(extra[0], labels, ev, r)
  {
    hide Tied, RowLe, ListedRows, DelistedRows, LeftRow;
    var (front, rows) := (ListedRows(metas, labels, ev, r), DelistedRows(extra, labels, ev, r));
    DelistedAt(extra, labels, ev, r);
    SortStable(front + rows, k);
    TiedConcat(front, rows, k);
    assert rows[0] == LeftRow(extra[0], labels, ev, r);
  }

  /** The listings and the events determine the whole table exactly when no two of the
      quests that are listed no more tie in starts, purchases and name. */
  lemma TableExactly(metas: seq<Meta>, labels: string -> Label, ev: Events, r: DayRange, extra: seq<string>)
    requires Leftovers(extra, metas, ev, r)
    ensures OneTable(metas, labels, ev, r) <==> NoTies(extra, labels, ev, r)
  {
    hide Active, Listed, Table, Tied, LeftRow;
    if NoTies(extra, labels, ev, r) {
      forall a, b | Leftovers(a, metas, ev, r) && Leftovers(b, metas, ev, r)
        ensures Table(metas, labels, ev, r, a) == Table(metas, labels, ev, r, b)
      {
        SameTable(metas, labels, ev, r, extra, a);
        SameTable(metas, labels, ev, r, extra, b);
      }
    }
    if OneTable(metas, labels, ev, r) {
      forall p, q | p in extra && q in extra && Tied(LeftRow(p, labels, ev, r), LeftRow(q, labels, ev, r)) ensures p == q {
        var a := InFront(extra, p);
        var b := InFront(extra, q);
        assert Leftovers(a, metas, ev, r) && Leftovers(b, metas, ev, r);
        TiesItself(LeftRow(q, labels, ev, r));
        TiedInTable(metas, labels, ev, r, a, LeftRow(q, labels, ev, r));
        TiedInTable(metas, labels, ev, r, b, LeftRow(q, labels, ev, r));
        ItsQuest(p, labels, ev, r);
        ItsQuest(q, labels, ev, r);
      }
    }
  }

  lemma TiesItself(k: Row)
    ensures Tied(k, k)
  {}

  lemma ItsQuest(q: string, labels: string -> Label, ev: Events, r: DayRange)
    ensures LeftRow(q, labels, ev, r).quest == q
  {}

  /** Two quests of one name, each started once and listed no more: their rows stand in
      either order. */
  lemma TwoOfOneName(r: DayRange)
    requires r.start < r.end
    ensures var ev := Events([], [StatEvent("p", r.start), StatEvent("q", r.start)], []);
            Leftovers(["p", "q"], [], ev, r) && !OneTable([], _ => Label("n", None), ev, r)
  {
    var (p, q) := (StatEvent("p", r.start), StatEvent("q", r.start));
    var ev := Events([], [p, q], []);
    assert [p, q][..1] == [p] && [p][..0] == [];
    assert forall quest :: CountIn([p, q], r, Some(quest)) == CountIn([p], r, Some(quest)) + if quest == "q" then 1 else 0;
    assert forall quest :: CountIn([p], r, Some(quest)) == if quest == "p" then 1 else 0;
    NoneListed([]);
    hide CountIn, Listed;
    assert "p" in ["p", "q"] && "q" in ["p", "q"];
    assert Tied(LeftRow("p", _ => Label("n", None), ev, r), LeftRow("q", _ => Label("n", None), ev, r));
    TableExactly([], _ => Label("n", None), ev, r, ["p", "q"]);
    hide OneTable;
  }
}
