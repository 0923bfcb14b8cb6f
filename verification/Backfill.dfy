/** The one-off transfer of pictures already stored inside rows, a budget of rows at a
    time, restartable at any point. */
module Backfill {
  import opened Prelude
  import opened Media
  import opened Uploads

  datatype Quest = Quest(id: string, updatedAt: nat, cover: Option<string>, body: Json)

  datatype Card = Card(quest: string, comic: Option<string>)

  datatype Snapshot = Snapshot(id: string, data: Json)

  /** A row of any of the three tables the run walks. */
  datatype Row = QuestRow(quest: Quest) | CardRow(card: Card) | SnapshotRow(snapshot: Snapshot)

  predicate InlineRef(value: Option<string>) { value.Some? && IsInline(value.value) }

  predicate StorableRef(env: Env, value: Option<string>) { value.Some? && Storable(env, value.value) }

  /** Does the row hold a picture the store takes? */
  predicate Movable(env: Env, row: Row) {
    match row
    case QuestRow(q) => StorableSet(env, q.body) != {} || StorableRef(env, q.cover)
    case CardRow(c) => StorableRef(env, c.comic)
    case SnapshotRow(s) => StorableSet(env, s.data) != {}
  }

  /** The row with its pictures moved: its identity, its time of saving and every
      other value stay. */
  function Moved(env: Env, row: Row): Row {
    match row
    case QuestRow(q) => QuestRow(q.(cover := ExternalizedRef(env, q.cover), body := Externalized(env, q.body)))
    case CardRow(c) => CardRow(c.(comic := ExternalizedRef(env, c.comic)))
    case SnapshotRow(s) => SnapshotRow(s.(data := Externalized(env, s.data)))
  }

  function Images(env: Env, row: Row): nat {
    match row
    case QuestRow(q) => |StorableSet(env, q.body)|
    case CardRow(_) => 1
    case SnapshotRow(s) => |StorableSet(env, s.data)|
  }

  datatype Progress = Progress(rows: seq<Row>, rewritten: nat, images: nat, complete: bool)

  /** One run over the rows: stop when the budget is gone and a row is still to look
      at; skip what holds nothing to move; rewrite the rest. */
  function Walk(env: Env, rows: seq<Row>, budget: nat): Progress {
    if rows == [] then Progress([], 0, 0, true)
    else if budget == 0 then Progress(rows, 0, 0, false)
    else if !Movable(env, rows[0]) then
      var p := Walk(env, rows[1..], budget);
      p.(rows := [rows[0]] + p.rows)
    else
      var p := Walk(env, rows[1..], budget - 1);
      Progress([Moved(env, rows[0])] + p.rows, p.rewritten + 1, p.images + Images(env, rows[0]), p.complete)
  }

  function CountMovable(env: Env, rows: seq<Row>): nat {
    if rows == [] then 0 else (if Movable(env, rows[0]) then 1 else 0) + CountMovable(env, rows[1..])
  }

  /** How many rows a run reads before its budget is gone. */
  function Seen(env: Env, rows: seq<Row>, budget: nat): nat {
    if rows == [] || budget == 0 then 0
    else 1 + Seen(env, rows[1..], if Movable(env, rows[0]) then budget - 1 else budget)
  }

  // ---- what a rewritten row says -------------------------------------------------------

  /** A string that holds a picture has become the reference to its bytes; any other is
      as it was. */
  ghost predicate RefFollows(env: Env, before: string, after: string) {
    if Storable(env, before) then
      && after == env.base + "/" + env.digest(ParseDataUri(env, before).value.bytes)
      && MediaHashInRef(after) == Some(env.digest(ParseDataUri(env, before).value.bytes))
    else after == before
  }

  ghost predicate CoverFollows(env: Env, before: Option<string>, after: Option<string>) {
    match before
    case None => after.None?
    case Some(s) => after.Some? && RefFollows(env, s, after.value)
  }

  /** The tree has its shape and every value, and its strings follow one by one. */
  ghost predicate TreeFollows(env: Env, before: Json, after: Json) {
    && Shape(after) == Shape(before) && |Strings(after)| == |Strings(before)|
    && forall i :: 0 <= i < |Strings(before)| ==> RefFollows(env, Strings(before)[i], Strings(after)[i])
  }

  /** The row is the same row with its pictures in the store: its identity and its time of
      saving stay, its cover and its content follow. */
  ghost predicate RowFollows(env: Env, before: Row, after: Row) {
    match before
    case QuestRow(q) =>
      && after.QuestRow? && after.quest.id == q.id && after.quest.updatedAt == q.updatedAt
      && CoverFollows(env, q.cover, after.quest.cover) && TreeFollows(env, q.body, after.quest.body)
    case CardRow(c) => after.CardRow? && after.card.quest == c.quest && CoverFollows(env, c.comic, after.card.comic)
    case SnapshotRow(s) => after.SnapshotRow? && after.snapshot.id == s.id && TreeFollows(env, s.data, after.snapshot.data)
  }

  lemma TreeMoves(env: Env, v: Json)
    requires GoodBase(env.base) && Digests(env.digest)
    ensures TreeFollows(env, v, Externalized(env, v))
  {
    ExternalizedAt(env, v);
    hide ParseDataUri, MediaHashInRef, GoodBase, Digests, Externalized;
    forall i | 0 <= i < |Strings(v)| ensures RefFollows(env, Strings(v)[i], Strings(Externalized(env, v))[i]) {
      if Storable(env, Strings(v)[i]) { UrlResolves(env, ParseDataUri(env, Strings(v)[i]).value.bytes); }
    }
  }

  lemma CoverMoves(env: Env, value: Option<string>)
    requires GoodBase(env.base) && Digests(env.digest)
    ensures CoverFollows(env, value, ExternalizedRef(env, value))
  {
    hide ParseDataUri, MediaHashInRef, GoodBase, Digests;
    if value.Some? && Storable(env, value.value) { UrlResolves(env, ParseDataUri(env, value.value).value.bytes); }
  }

  lemma MovedFollows(env: Env, row: Row)
    requires GoodBase(env.base) && Digests(env.digest)
    ensures RowFollows(env, row, Moved(env, row))
  {
    hide CoverFollows, TreeFollows, GoodBase, Digests, Externalized, ExternalizedRef;
    match row {
      case QuestRow(q) =>
        TreeMoves(env, q.body);
        CoverMoves(env, q.cover);
      case CardRow(c) => CoverMoves(env, c.comic);
      case SnapshotRow(s) => TreeMoves(env, s.data);
    }
  }

  lemma NothingFollows(env: Env, row: Row)
    requires !Movable(env, row)
    ensures RowFollows(env, row, row)
  {
    hide ParseDataUri, MediaHashInRef;
    match row {
      case QuestRow(q) => UnmovedTree(env, q.body);
      case CardRow(c) =>
      case SnapshotRow(s) => UnmovedTree(env, s.data);
    }
  }

  lemma UnmovedTree(env: Env, v: Json)
    requires StorableSet(env, v) == {}
    ensures TreeFollows(env, v, v)
  {
    hide ParseDataUri, MediaHashInRef;
    forall i | 0 <= i < |Strings(v)| ensures !Storable(env, Strings(v)[i]) {
      assert Strings(v)[i] in Strings(v);
      assert Strings(v)[i] !in StorableSet(env, v);
    }
  }

  /** Of the rows a run leaves, those it read follow one by one; the rest are as they
      were. */
  lemma {:induction false} RowsFollow(env: Env, rows: seq<Row>, limit: nat)
    requires GoodBase(env.base) && Digests(env.digest)
    ensures var (p, k) := (Walk(env, rows, limit), Seen(env, rows, limit));
            && |p.rows| == |rows| && k <= |rows|
            && (forall i :: 0 <= i < k ==> RowFollows(env, rows[i], p.rows[i]))
            && (forall i :: k <= i < |rows| ==> p.rows[i] == rows[i])
  {
    hide Movable, Moved, Images, GoodBase, Digests, RowFollows;
    if rows != [] && limit > 0 {
      if Movable(env, rows[0]) {
        RowsFollow(env, rows[1..], limit - 1);
        MovedFollows(env, rows[0]);
      } else {
        RowsFollow(env, rows[1..], limit);
        NothingFollows(env, rows[0]);
      }
    }
  }

  // ---- one run ---------------------------------------------------------------------

  lemma MovedIsDone(env: Env, row: Row)
    requires GoodBase(env.base) && Digests(env.digest)
    ensures !Movable(env, Moved(env, row))
  {
    hide Externalized, StorableSet, GoodBase, Digests;
    match row {
      case QuestRow(q) =>
        NothingStorableLeft(env, q.body);
        RefDone(env, q.cover);
      case CardRow(c) => RefDone(env, c.comic);
      case SnapshotRow(s) => NothingStorableLeft(env, s.data);
    }
  }

  lemma RefDone(env: Env, value: Option<string>)
    requires GoodBase(env.base) && Digests(env.digest)
    ensures !StorableRef(env, ExternalizedRef(env, value))
    ensures StorableRef(env, value) <==> InlineRef(value) && !InlineRef(ExternalizedRef(env, value))
  {
    hide GoodBase, Digests, UrlOf;
    if value.Some? && Storable(env, value.value) {
      UrlResolves(env, ParseDataUri(env, value.value).value.bytes);
    }
  }

  /** A run rewrites as many rows as there are to move, up to its limit; it stops
      early only with the limit used up; what it rewrites needs no second visit. */
  lemma {:induction false} RunExactly(env: Env, rows: seq<Row>, limit: nat)
    requires GoodBase(env.base) && Digests(env.digest)
    ensures var p := Walk(env, rows, limit);
            && p.rewritten == (if CountMovable(env, rows) < limit then CountMovable(env, rows) else limit)
            && CountMovable(env, p.rows) == CountMovable(env, rows) - p.rewritten
            && (!p.complete ==> p.rewritten == limit)
            && (p.complete ==> CountMovable(env, p.rows) == 0)
            && |p.rows| == |rows|
            && forall i :: 0 <= i < |rows| ==> p.rows[i] == rows[i] || p.rows[i] == Moved(env, rows[i])
  {
    hide Movable, Moved, Images, GoodBase, Digests;
    if rows != [] && limit > 0 {
      var rest := rows[1..];
      if Movable(env, rows[0]) {
        RunExactly(env, rest, limit - 1);
        MovedIsDone(env, rows[0]);
        CountOneMore(env, Moved(env, rows[0]), Walk(env, rest, limit - 1).rows);
      } else {
        RunExactly(env, rest, limit);
        CountOneMore(env, rows[0], Walk(env, rest, limit).rows);
      }
    }
  }

  /** A run reads on up to the row that uses up its budget, or to the end; it is
      complete exactly when it has read every row. */
  lemma {:induction false} SeenExactly(env: Env, rows: seq<Row>, limit: nat)
    ensures var k := Seen(env, rows, limit);
            && k <= |rows| && (k == |rows| <==> Walk(env, rows, limit).complete)
            && CountMovable(env, rows[..k]) == Walk(env, rows, limit).rewritten
            && (k < |rows| ==> CountMovable(env, rows[..k]) == limit && (k > 0 ==> Movable(env, rows[k - 1])))
  {
    hide Movable, Moved, Images;
    if rows != [] && limit > 0 {
      var left := if Movable(env, rows[0]) then limit - 1 else limit;
      SeenExactly(env, rows[1..], left);
      var k := Seen(env, rows[1..], left);
      assert rows[..k + 1] == [rows[0]] + rows[1..][..k];
      CountOneMore(env, rows[0], rows[1..][..k]);
    }
  }

  lemma CountOneMore(env: Env, row: Row, rows: seq<Row>)
    ensures CountMovable(env, [row] + rows) == (if Movable(env, row) then 1 else 0) + CountMovable(env, rows)
  {
    assert ([row] + rows)[1..] == rows;
  }

  lemma {:induction false} NoneMovable(env: Env, rows: seq<Row>)
    requires CountMovable(env, rows) == 0
    ensures forall i :: 0 <= i < |rows| ==> !Movable(env, rows[i])
  {
    hide Movable;
    if rows != [] {
      NoneMovable(env, rows[1..]);
      forall i | 0 <= i < |rows| ensures !Movable(env, rows[i]) {
        if i > 0 { assert rows[1..][i - 1] == rows[i]; }
      }
    }
  }

  /** A complete run leaves no storable inline picture in any quest body or cover, in
      any card and in any snapshot. */
  lemma CompleteMeansClean(env: Env, rows: seq<Row>, limit: nat)
    requires GoodBase(env.base) && Digests(env.digest) && Walk(env, rows, limit).complete
    ensures forall row :: row in Walk(env, rows, limit).rows ==>
              match row
              case QuestRow(q) => StorableSet(env, q.body) == {} && !StorableRef(env, q.cover)
              case CardRow(c) => !StorableRef(env, c.comic)
              case SnapshotRow(s) => StorableSet(env, s.data) == {}
  {
    RunExactly(env, rows, limit);
    NoneMovable(env, Walk(env, rows, limit).rows);
    hide Walk, GoodBase, Digests, StorableSet;
    forall row | row in Walk(env, rows, limit).rows ensures !Movable(env, row) {}
  }

  /** Once nothing is left to move, later runs change nothing and are complete. */
  lemma {:induction false} LaterRunsChangeNothing(env: Env, rows: seq<Row>, limit: nat)
    requires CountMovable(env, rows) == 0 && limit >= 1
    ensures Walk(env, rows, limit) == Progress(rows, 0, 0, true)
  {
    hide Movable, Moved;
    if rows != [] {
      LaterRunsChangeNothing(env, rows[1..], limit);
      assert rows == [rows[0]] + rows[1..];
    }
  }

  // ---- run after run ------------------------------------------------------------------

  /** The rows after `k` runs. */
  function After(env: Env, rows: seq<Row>, limit: nat, k: nat): seq<Row>
    decreases k
  {
    if k == 0 then rows else After(env, Walk(env, rows, limit).rows, limit, k - 1)
  }

  lemma StillExceeds(k: nat, limit: nat, before: nat, after: nat)
    requires k >= 2 && limit >= 1 && k * limit > before && (after == 0 || after == before - limit)
    ensures (k - 1) * limit > after
  {
    assert (k - 1) * limit == k * limit - limit;
    assert (k - 1) * limit >= limit;
  }

  lemma OneExceeds(k: nat, limit: nat, m: nat)
    requires k == 1 && k * limit > m
    ensures m < limit
  {}

  /** Repeated runs finish: every incomplete one takes a full budget of rows off what
      is left, so run number `k` is complete as soon as `k` budgets exceed the work. */
  lemma {:induction false} RunsFinish(env: Env, rows: seq<Row>, limit: nat, k: nat)
    requires GoodBase(env.base) && Digests(env.digest) && limit >= 1 && k >= 1 && k * limit > CountMovable(env, rows)
    ensures Walk(env, After(env, rows, limit, k - 1), limit).complete
    decreases k
  {
    hide GoodBase, Digests, Walk, CountMovable;
    RunExactly(env, rows, limit);
    if k > 1 {
      var p := Walk(env, rows, limit);
      StillExceeds(k, limit, CountMovable(env, rows), CountMovable(env, p.rows));
      RunsFinish(env, p.rows, limit, k - 1);
    } else {
      OneExceeds(k, limit, CountMovable(env, rows));
      EnoughBudget(env, rows, limit);
    }
  }

  lemma EnoughBudget(env: Env, rows: seq<Row>, limit: nat)
    requires GoodBase(env.base) && Digests(env.digest) && CountMovable(env, rows) < limit
    ensures Walk(env, rows, limit).complete
  {
    RunExactly(env, rows, limit);
  }

  /** With `m` rows to move and a limit of `limit`, the run number m/limit + 1 is
      complete at the latest. */
  lemma CompleteWithin(env: Env, rows: seq<Row>, limit: nat)
    requires GoodBase(env.base) && Digests(env.digest) && limit >= 1
    ensures var m := CountMovable(env, rows);
            Walk(env, After(env, rows, limit, m / limit), limit).complete
  {
    hide GoodBase, Digests, Walk, CountMovable, After;
    var m := CountMovable(env, rows);
    Exceeds(m, limit);
    RunsFinish(env, rows, limit, m / limit + 1);
  }

  lemma Exceeds(m: nat, limit: nat)
    requires limit >= 1
    ensures (m / limit + 1) * limit > m
  {
    assert m == m / limit * limit + m % limit;
    assert (m / limit + 1) * limit == m / limit * limit + limit;
  }

  // ---- the run as code ---------------------------------------------------------------------

  /** A finished stretch hands its budget on to what follows. */
  lemma {:induction false} WalkOn(env: Env, a: seq<Row>, b: seq<Row>, limit: nat)
    requires Walk(env, a, limit).complete
    ensures var p := Walk(env, a, limit);
            && p.rewritten <= limit
            && var q := Walk(env, b, limit - p.rewritten);
               Walk(env, a + b, limit) ==
               Progress(p.rows + q.rows, p.rewritten + q.rewritten, p.images + q.images, q.complete)
  {
    hide Movable, Moved, Images;
    if a == [] {
      assert a + b == b;
      assert [] + Walk(env, b, limit).rows == Walk(env, b, limit).rows;
    } else {
      assert (a + b)[0] == a[0] && (a + b)[1..] == a[1..] + b;
      if Movable(env, a[0]) {
        WalkOn(env, a[1..], b, limit - 1);
        Associative([Moved(env, a[0])], Walk(env, a[1..], limit - 1).rows,
                    Walk(env, b, limit - Walk(env, a, limit).rewritten).rows);
      } else {
        WalkOn(env, a[1..], b, limit);
        Associative([a[0]], Walk(env, a[1..], limit).rows, Walk(env, b, limit - Walk(env, a, limit).rewritten).rows);
      }
    }
  }

  /** A stretch that ran out of budget leaves what follows untouched. */
  lemma {:induction false} WalkStops(env: Env, a: seq<Row>, b: seq<Row>, limit: nat)
    requires !Walk(env, a, limit).complete
    ensures Walk(env, a + b, limit) == Walk(env, a, limit).(rows := Walk(env, a, limit).rows + b)
  {
    hide Movable, Moved, Images;
    assert (a + b)[0] == a[0] && (a + b)[1..] == a[1..] + b;
    if limit > 0 {
      if Movable(env, a[0]) {
        WalkStops(env, a[1..], b, limit - 1);
        Associative([Moved(env, a[0])], Walk(env, a[1..], limit - 1).rows, b);
      } else {
        WalkStops(env, a[1..], b, limit);
        Associative([a[0]], Walk(env, a[1..], limit).rows, b);
      }
    }
  }

  lemma {:induction false} SeenOn(env: Env, a: seq<Row>, b: seq<Row>, limit: nat)
    requires Walk(env, a, limit).complete && Walk(env, a, limit).rewritten <= limit
    ensures Seen(env, a + b, limit) == |a| + Seen(env, b, limit - Walk(env, a, limit).rewritten)
  {
    hide Movable, Moved, Images;
    if a == [] {
      assert a + b == b;
    } else {
      assert (a + b)[0] == a[0] && (a + b)[1..] == a[1..] + b;
      SeenOn(env, a[1..], b, if Movable(env, a[0]) then limit - 1 else limit);
    }
  }

  lemma WalkOne(env: Env, row: Row, budget: nat)
    requires budget > 0
    ensures Walk(env, [row], budget) ==
            if Movable(env, row) then Progress([Moved(env, row)], 1, Images(env, row), true)
            else Progress([row], 0, 0, true)
  {
    assert [row][1..] == [];
    assert [row] + [] == [row] && [Moved(env, row)] + [] == [Moved(env, row)];
  }

  // ---- no picture is lost -------------------------------------------------------------------

  function RefSet(value: Option<string>): set<string> { if value.None? then {} else {value.value} }

  /** Every string of the row that may hold a picture. */
  ghost function Uris(row: Row): set<string> {
    match row
    case QuestRow(q) => InlineSet(q.body) + RefSet(q.cover)
    case CardRow(c) => RefSet(c.comic)
    case SnapshotRow(s) => InlineSet(s.data)
  }

  /** A row is as it was, or follows with the store holding its pictures. */
  ghost predicate Preserved(env: Env, before: seq<Row>, after: seq<Row>, items: map<string, Blob>) {
    && |before| == |after|
    && forall i :: 0 <= i < |before| ==>
                     after[i] == before[i] || (RowFollows(env, before[i], after[i]) && AllNamed(env, Uris(before[i]), items))
  }

  lemma NoneToName(env: Env, items: map<string, Blob>)
    ensures AllNamed(env, {}, items) && Keeps(items, items)
  {}

  lemma KeepsOn(a: map<string, Blob>, b: map<string, Blob>, c: map<string, Blob>)
    requires Keeps(a, b) && Keeps(b, c)
    ensures Keeps(a, c)
  {}

  lemma StillNamed(env: Env, uris: set<string>, items: map<string, Blob>, more: map<string, Blob>)
    requires AllNamed(env, uris, items) && Keeps(items, more)
    ensures AllNamed(env, uris, more)
  {
    hide ParseDataUri;
  }

  lemma NamedTogether(env: Env, a: set<string>, b: set<string>, items: map<string, Blob>)
    requires AllNamed(env, a, items) && AllNamed(env, b, items)
    ensures AllNamed(env, a + b, items)
  {
    hide ParseDataUri;
  }

  lemma StillPreserved(env: Env, before: seq<Row>, after: seq<Row>, items: map<string, Blob>, more: map<string, Blob>)
    requires Preserved(env, before, after, items) && Keeps(items, more)
    ensures Preserved(env, before, after, more)
  {
    hide AllNamed, Uris, Keeps, RowFollows;
    forall i | 0 <= i < |before| && after[i] != before[i] ensures AllNamed(env, Uris(before[i]), more) {
      StillNamed(env, Uris(before[i]), items, more);
    }
  }

  lemma Untouched(env: Env, rows: seq<Row>, items: map<string, Blob>)
    ensures Preserved(env, rows, rows, items)
  {
    hide AllNamed, RowFollows;
  }

  lemma PreservedTogether(env: Env, a: seq<Row>, a': seq<Row>, b: seq<Row>, b': seq<Row>, items: map<string, Blob>)
    requires Preserved(env, a, a', items) && Preserved(env, b, b', items)
    ensures Preserved(env, a + b, a' + b', items)
  {
    hide AllNamed, Uris, RowFollows;
    forall i | 0 <= i < |a + b|
      ensures (a' + b')[i] == (a + b)[i]
              || (RowFollows(env, (a + b)[i], (a' + b')[i]) && AllNamed(env, Uris((a + b)[i]), items))
    {
      if i >= |a| { assert (a + b)[i] == b[i - |a|] && (a' + b')[i] == b'[i - |a|]; }
    }
  }

  lemma OnePreserved(env: Env, row: Row, after: Row, items: map<string, Blob>)
    requires after == row || (RowFollows(env, row, after) && AllNamed(env, Uris(row), items))
    ensures Preserved(env, [row], [after], items)
  {
    hide AllNamed, Uris, RowFollows;
  }

  lemma RestUntouched(env: Env, table: seq<Row>, seen: nat, done: seq<Row>, items: map<string, Blob>)
    requires seen <= |table| && Preserved(env, table[..seen], done, items)
    ensures Preserved(env, table, done + table[seen..], items)
  {
    hide Preserved;
    Untouched(env, table[seen..], items);
    PreservedTogether(env, table[..seen], done, table[seen..], table[seen..], items);
    assert table[..seen] + table[seen..] == table;
  }

  lemma AllPreserved(env: Env, a: seq<Row>, a': seq<Row>, b: seq<Row>, b': seq<Row>, c: seq<Row>, c': seq<Row>,
                     items: map<string, Blob>)
    requires Preserved(env, a, a', items) && Preserved(env, b, b', items) && Preserved(env, c, c', items)
    ensures Preserved(env, a + b + c, a' + b' + c', items)
  {
    hide Preserved;
    PreservedTogether(env, a, a', b, b', items);
    PreservedTogether(env, a + b, a' + b', c, c', items);
  }

  /** What holds of a table walked earlier still holds. */
  lemma Onward(env: Env, before: seq<Row>, after: seq<Row>, held: map<string, Blob>, items: map<string, Blob>,
               more: map<string, Blob>)
    requires Preserved(env, before, after, items) && Keeps(held, items) && Keeps(items, more)
    ensures Preserved(env, before, after, more) && Keeps(held, more)
  {
    hide Preserved;
    StillPreserved(env, before, after, items, more);
    KeepsOn(held, items, more);
  }

  datatype Outcome = Finished | OutOfBudget | UploadFailed

  class Service {
    const media: MediaStore
    const choices: seq<nat>
    const fails: string -> bool
    var quests: seq<Row>
    var cards: seq<Row>
    var snapshots: seq<Row>

    constructor (media: MediaStore, choices: seq<nat>, fails: string -> bool, quests: seq<Row>, cards: seq<Row>,
                 snapshots: seq<Row>)
      ensures this.media == media && this.choices == choices && this.fails == fails
      ensures this.quests == quests && this.cards == cards && this.snapshots == snapshots
    {
      this.media, this.choices, this.fails := media, choices, fails;
      this.quests, this.cards, this.snapshots := quests, cards, snapshots;
    }

    /** Every row, in the order a run walks them. */
    function All(): seq<Row>
      reads this
    {
      quests + cards + snapshots
    }

    ghost predicate Ready()
      reads media
    {
      GoodBase(media.env.base) && Digests(media.env.digest) && Addressed(media.env, media.items)
    }

    /** Look at an authoring row: move the pictures of its body and of its cover. */
    method VisitQuest(q: Quest) returns (ok: bool, row: Option<Quest>, images: nat)
      requires Ready()
      modifies media
      ensures Ready() && Keeps(old(media.items), media.items)
      ensures ok && row.Some? ==>
                && Movable(media.env, QuestRow(q)) && QuestRow(row.value) == Moved(media.env, QuestRow(q))
                && images == Images(media.env, QuestRow(q)) && AllNamed(media.env, Uris(QuestRow(q)), media.items)
                && RowFollows(media.env, QuestRow(q), QuestRow(row.value))
      ensures ok && row.None? ==> !Movable(media.env, QuestRow(q))
    {
      hide Digests, GoodBase, Addressed, Externalized, StorableSet, ParseDataUri, AllNamed, AllStored, NoCollision, Keeps, RowFollows;
      ghost var before := media.items;
      var doc := new Document(q.body);
      var moved, _ := ExternalizeTree(media, doc, choices, fails);
      ghost var middle := media.items;
      assert Keeps(before, middle);
      if moved.None? { return false, None, 0; }
      var cover := Externalize(media, q.cover, choices, fails);
      KeepsOn(before, middle, media.items);
      if cover.Err? { return false, None, 0; }
      RefDone(media.env, q.cover);
      StillNamed(media.env, InlineSet(q.body), middle, media.items);
      assert AllNamed(media.env, RefSet(q.cover), media.items) by { NoneToName(media.env, media.items); }
      NamedTogether(media.env, InlineSet(q.body), RefSet(q.cover), media.items);
      MovedFollows(media.env, QuestRow(q));
      var coverMoved := InlineRef(q.cover) && !InlineRef(cover.value);
      if moved.value == 0 && !coverMoved { return true, None, 0; }
      return true, Some(q.(cover := cover.value, body := doc.value)), moved.value;
    }

    /** Look at a store card: move its cover. */
    method VisitCard(c: Card) returns (ok: bool, row: Option<Card>)
      requires Ready()
      modifies media
      ensures Ready() && Keeps(old(media.items), media.items)
      ensures ok && row.Some? ==>
                && Movable(media.env, CardRow(c)) && CardRow(row.value) == Moved(media.env, CardRow(c))
                && AllNamed(media.env, Uris(CardRow(c)), media.items)
                && RowFollows(media.env, CardRow(c), CardRow(row.value))
      ensures ok && row.None? ==> !Movable(media.env, CardRow(c))
    {
      hide Digests, GoodBase, Addressed, ParseDataUri, AllNamed, RowFollows;
      MovedFollows(media.env, CardRow(c));
      RefDone(media.env, c.comic);
      if !InlineRef(c.comic) { return true, None; }
      var comic := Externalize(media, c.comic, choices, fails);
      if comic.Err? { return false, None; }
      if InlineRef(comic.value) { return true, None; }
      return true, Some(c.(comic := comic.value));
    }

    /** Look at a frozen snapshot: move the pictures of its content. */
    method VisitSnapshot(s: Snapshot) returns (ok: bool, row: Option<Snapshot>, images: nat)
      requires Ready()
      modifies media
      ensures Ready() && Keeps(old(media.items), media.items)
      ensures ok && row.Some? ==>
                && Movable(media.env, SnapshotRow(s)) && SnapshotRow(row.value) == Moved(media.env, SnapshotRow(s))
                && images == Images(media.env, SnapshotRow(s)) && AllNamed(media.env, Uris(SnapshotRow(s)), media.items)
                && RowFollows(media.env, SnapshotRow(s), SnapshotRow(row.value))
      ensures ok && row.None? ==> !Movable(media.env, SnapshotRow(s))
    {
      hide Digests, GoodBase, Addressed, Externalized, StorableSet, ParseDataUri, AllNamed, AllStored, NoCollision, Keeps, RowFollows;
      var doc := new Document(s.data);
      var moved, _ := ExternalizeTree(media, doc, choices, fails);
      if moved.None? { return false, None, 0; }
      if moved.value == 0 { return true, None, 0; }
      MovedFollows(media.env, SnapshotRow(s));
      return true, Some(s.(data := doc.value)), moved.value;
    }

    method Visit(row: Row) returns (ok: bool, after: Option<Row>, images: nat)
      requires Ready()
      modifies media
      ensures Ready() && Keeps(old(media.items), media.items)
      ensures ok && after.Some? ==>
                && Movable(media.env, row) && after.value == Moved(media.env, row) && images == Images(media.env, row)
                && AllNamed(media.env, Uris(row), media.items) && RowFollows(media.env, row, after.value)
      ensures ok && after.None? ==> !Movable(media.env, row)
    {
      hide Ready, Movable, Moved, AllNamed, Uris, Keeps, RowFollows;
      match row {
        case QuestRow(q) =>
          var moved;
          ok, moved, images := VisitQuest(q);
          after := if moved.Some? then Some(QuestRow(moved.value)) else None;
        case CardRow(c) =>
          var moved;
          ok, moved := VisitCard(c);
          after, images := if moved.Some? then Some(CardRow(moved.value)) else None, 1;
        case SnapshotRow(s) =>
          var moved;
          ok, moved, images := VisitSnapshot(s);
          after := if moved.Some? then Some(SnapshotRow(moved.value)) else None;
      }
    }

    /** One table, row by row, while the budget lasts. After a failed upload the rows
        are what a finished run over a first stretch of them leaves. */
    method RunTable(table: seq<Row>, budget: nat)
      returns (rows: seq<Row>, rewritten: nat, images: nat, seen: nat, outcome: Outcome)
      requires Ready()
      modifies media
      ensures Ready() && Keeps(old(media.items), media.items)
      ensures !outcome.UploadFailed? ==> Walk(media.env, table, budget) == Progress(rows, rewritten, images, outcome.Finished?)
      ensures rewritten <= budget && (!outcome.UploadFailed? ==> seen == Seen(media.env, table, budget))
      ensures outcome.UploadFailed? ==>
                && seen < |table| && Walk(media.env, table[..seen], budget).complete
                && rows == Walk(media.env, table[..seen], budget).rows + table[seen..]
      ensures Preserved(media.env, table, rows, media.items)
    {
      hide Ready, Movable, Moved, Images, Walk, Preserved, Keeps, AllNamed, Uris, RowFollows;
      ghost var stored := media.items;
      NoneToName(media.env, stored);
      Untouched(media.env, [], stored);
      rows, rewritten, images, seen := table, 0, 0, 0;
      var done: seq<Row> := [];
      assert Walk(media.env, table[..0], budget) == Progress([], 0, 0, true) by { EmptyWalk(media.env, table[..0], budget); }
      while seen < |table|
        invariant seen <= |table| && Ready() && Keeps(stored, media.items)
        invariant Preserved(media.env, table[..seen], done, media.items)
        invariant Walk(media.env, table[..seen], budget) == Progress(done, rewritten, images, true)
        invariant rewritten <= budget
      {
        assert table == table[..seen] + table[seen..];
        RestUntouched(media.env, table, seen, done, media.items);
        if rewritten == budget {
          WalkOn(media.env, table[..seen], table[seen..], budget);
          NoBudget(media.env, table[seen..]);
          SeenOn(media.env, table[..seen], table[seen..], budget);
          return done + table[seen..], rewritten, images, seen, OutOfBudget;
        }
        var row := table[seen];
        ghost var held := media.items;
        var ok, after, moved := Visit(row);
        KeepsOn(stored, held, media.items);
        StillPreserved(media.env, table[..seen], done, held, media.items);
        if !ok {
          RestUntouched(media.env, table, seen, done, media.items);
          return done + table[seen..], rewritten, images, seen, UploadFailed;
        }
        assert table[..seen + 1] == table[..seen] + [row];
        WalkOn(media.env, table[..seen], [row], budget);
        WalkOne(media.env, row, budget - rewritten);
        OnePreserved(media.env, row, if after.Some? then after.value else row, media.items);
        PreservedTogether(media.env, table[..seen], done, [row], [if after.Some? then after.value else row], media.items);
        if after.Some? {
          rewritten, images := rewritten + 1, images + moved;
          done := done + [after.value];
        } else {
          done := done + [row];
        }
        seen := seen + 1;
      }
      assert table[..seen] == table && table + [] == table;
      SeenOn(media.env, table, [], budget);
      return done, rewritten, images, seen, Finished;
    }

    /** Walk the authoring rows, the store cards and the frozen snapshots, at most
        `limit` rewrites in all. However the run ends, nothing stored is lost, and a row
        is as it was or has its pictures in the store. */
    method Run(limit: nat) returns (report: Option<Report>)
      requires Ready()
      modifies this, media
      ensures Ready() && Keeps(old(media.items), media.items)
      ensures Preserved(media.env, old(All()), All(), media.items)
      ensures report.Some? ==>
                Walk(media.env, old(All()), limit) ==
                Progress(All(), Rewritten(report.value), report.value.images, report.value.complete)
      ensures report.Some? ==> report.value == Tally(media.env, old(quests), old(cards), old(snapshots), limit)
      ensures report.None? ==> StoppedAt(media.env, old(All()), limit, All())
    {
      hide Ready, Walk, Seen, StoppedAt, Keeps, Preserved;
      ghost var a, b, c := quests, cards, snapshots;
      ghost var held := media.items;
      assert a + b + c == a + (b + c);
      var tally := Report(0, 0, 0, 0, 0, false);
      var rows, n, images, seen, outcome := RunTable(quests, limit);
      quests := rows;
      Associative(rows, b, c);
      Untouched(media.env, b, media.items);
      Untouched(media.env, c, media.items);
      AllPreserved(media.env, a, rows, b, b, c, c, media.items);
      tally := tally.(scanned := seen, quests := n, images := images);
      if outcome.UploadFailed? {
        Stopped(media.env, a, b + c, limit, seen, rows);
        return None;
      }
      if outcome.OutOfBudget? {
        WalkStops(media.env, a, b + c, limit);
        return Some(tally);
      }
      WalkOn(media.env, a, b + c, limit);
      ghost var held1 := media.items;
      var rows2, n2, images2, seen2, outcome2 := RunTable(cards, limit - n);
      cards := rows2;
      Associative(rows, rows2, c);
      Onward(media.env, a, rows, held, held1, media.items);
      Untouched(media.env, c, media.items);
      AllPreserved(media.env, a, rows, b, rows2, c, c, media.items);
      tally := tally.(cards := n2, images := images + images2);
      if outcome2.UploadFailed? {
        Stopped(media.env, b, c, limit - n, seen2, rows2);
        StoppedLater(media.env, a, b + c, limit, rows2 + c);
        return None;
      }
      if outcome2.OutOfBudget? {
        WalkStops(media.env, b, c, limit - n);
        return Some(tally);
      }
      WalkOn(media.env, b, c, limit - n);
      ghost var held2 := media.items;
      var rows3, n3, images3, seen3, outcome3 := RunTable(snapshots, limit - n - n2);
      snapshots := rows3;
      Associative(rows, rows2, rows3);
      Onward(media.env, a, rows, held, held2, media.items);
      Onward(media.env, b, rows2, held, held2, media.items);
      AllPreserved(media.env, a, rows, b, rows2, c, rows3, media.items);
      if outcome3.UploadFailed? {
        Stopped(media.env, c, [], limit - n - n2, seen3, rows3);
        assert c + [] == c && rows3 + [] == rows3;
        StoppedLater(media.env, b, c, limit - n, rows3);
        StoppedLater(media.env, a, b + c, limit, rows2 + rows3);
        return None;
      }
      return Some(tally.(snapshots := n3, images := images + images2 + images3, complete := outcome3.Finished?));
    }
  }

  datatype Report = Report(scanned: nat, quests: nat, cards: nat, snapshots: nat, images: nat, complete: bool)

  function Left(limit: nat, used: nat): nat { if used <= limit then limit - used else 0 }

  /** What a run reports, table by table: a table is reached when those before it
      were walked to the end, with what is left of the budget. */
  function Tally(env: Env, quests: seq<Row>, cards: seq<Row>, snapshots: seq<Row>, limit: nat): Report {
    var p := Walk(env, quests, limit);
    var report := Report(Seen(env, quests, limit), p.rewritten, 0, 0, p.images, false);
    if !p.complete then report
    else
      var q := Walk(env, cards, Left(limit, p.rewritten));
      var report' := report.(cards := q.rewritten, images := p.images + q.images);
      if !q.complete then report'
      else
        var s := Walk(env, snapshots, Left(limit, p.rewritten + q.rewritten));
        report'.(snapshots := s.rewritten, images := p.images + q.images + s.images, complete := s.complete)
  }

  function Rewritten(r: Report): nat { r.quests + r.cards + r.snapshots }

  /** The rows after a run that an upload stopped: a first stretch as a finished run
      leaves it, the rest untouched. */
  ghost predicate StoppedAt(env: Env, before: seq<Row>, limit: nat, after: seq<Row>) {
    exists k :: 0 <= k <= |before| && Walk(env, before[..k], limit).complete
             && after == Walk(env, before[..k], limit).rows + before[k..]
  }

  lemma Stopped(env: Env, a: seq<Row>, b: seq<Row>, limit: nat, k: nat, rows: seq<Row>)
    requires k <= |a| && Walk(env, a[..k], limit).complete && rows == Walk(env, a[..k], limit).rows + a[k..]
    ensures StoppedAt(env, a + b, limit, rows + b)
  {
    hide Walk;
    assert (a + b)[..k] == a[..k] && (a + b)[k..] == a[k..] + b;
    Associative(Walk(env, a[..k], limit).rows, a[k..], b);
  }

  lemma StoppedLater(env: Env, a: seq<Row>, b: seq<Row>, limit: nat, after: seq<Row>)
    requires Walk(env, a, limit).complete && Walk(env, a, limit).rewritten <= limit
    requires StoppedAt(env, b, limit - Walk(env, a, limit).rewritten, after)
    ensures StoppedAt(env, a + b, limit, Walk(env, a, limit).rows + after)
  {
    hide Walk;
    var left := limit - Walk(env, a, limit).rewritten;
    var k :| 0 <= k <= |b| && Walk(env, b[..k], left).complete && after == Walk(env, b[..k], left).rows + b[k..];
    LaterAt(env, a, b, limit, k);
  }

  lemma LaterAt(env: Env, a: seq<Row>, b: seq<Row>, limit: nat, k: nat)
    requires Walk(env, a, limit).complete && Walk(env, a, limit).rewritten <= limit && k <= |b|
    requires Walk(env, b[..k], limit - Walk(env, a, limit).rewritten).complete
    ensures var p := Walk(env, a, limit);
            StoppedAt(env, a + b, limit, p.rows + (Walk(env, b[..k], limit - p.rewritten).rows + b[k..]))
  {
    hide Walk, StoppedAt;
    var p := Walk(env, a, limit);
    var q := Walk(env, b[..k], limit - p.rewritten);
    WalkOn(env, a, b[..k], limit);
    SplitFurther(a, b, k);
    Associative(p.rows, q.rows, b[k..]);
    StopsHere(env, a + b, limit, |a| + k, p.rows + (q.rows + b[k..]));
  }

  lemma SplitFurther(a: seq<Row>, b: seq<Row>, k: nat)
    requires k <= |b|
    ensures (a + b)[..|a| + k] == a + b[..k] && (a + b)[|a| + k..] == b[k..]
  {}

  lemma StopsHere(env: Env, before: seq<Row>, limit: nat, k: nat, after: seq<Row>)
    requires k <= |before| && Walk(env, before[..k], limit).complete
    requires after == Walk(env, before[..k], limit).rows + before[k..]
    ensures StoppedAt(env, before, limit, after)
  {
    hide Walk;
  }

  /** The report, table by table: each table is rewritten as far as what the tables before it
      left of the limit goes; the images are those of the rows rewritten. */
  lemma TallyExactly(env: Env, quests: seq<Row>, cards: seq<Row>, snapshots: seq<Row>, limit: nat)
    requires GoodBase(env.base) && Digests(env.digest)
    ensures var r := Tally(env, quests, cards, snapshots, limit);
            && r.quests == AtMost(CountMovable(env, quests), limit)
            && r.cards == AtMost(CountMovable(env, cards), limit - r.quests)
            && r.snapshots == AtMost(CountMovable(env, snapshots), limit - r.quests - r.cards)
            && r.scanned == Seen(env, quests, limit)
  {
    hide Walk, CountMovable, GoodBase, Digests;
    RunExactly(env, quests, limit);
    var p := Walk(env, quests, limit);
    if p.complete {
      RunExactly(env, cards, limit - p.rewritten);
      var q := Walk(env, cards, limit - p.rewritten);
      if q.complete { RunExactly(env, snapshots, limit - p.rewritten - q.rewritten); }
    }
  }

  /** The images of the rows that hold some, together. */
  function ImagesTogether(env: Env, rows: seq<Row>): nat {
    if rows == [] then 0 else (if Movable(env, rows[0]) then Images(env, rows[0]) else 0) + ImagesTogether(env, rows[1..])
  }

  /** A run counts the images of exactly the rows it rewrote. */
  lemma {:induction false} ImagesAddUp(env: Env, rows: seq<Row>, limit: nat)
    ensures Seen(env, rows, limit) <= |rows|
    ensures Walk(env, rows, limit).images == ImagesTogether(env, rows[..Seen(env, rows, limit)])
  {
    hide Movable, Moved, Images;
    if rows != [] && limit > 0 {
      var left := if Movable(env, rows[0]) then limit - 1 else limit;
      ImagesAddUp(env, rows[1..], left);
      var k := Seen(env, rows[1..], left);
      assert rows[..k + 1][0] == rows[0] && rows[..k + 1][1..] == rows[1..][..k];
    }
  }

  function AtMost(n: nat, limit: int): int { if n < limit then n else limit }

  /** The images of a row: the distinct strings of its content that hold a picture, or the one
      picture of a card. */
  lemma ImagesExactly(env: Env, row: Row)
    requires Movable(env, row)
    ensures row.QuestRow? ==> Images(env, row) == |set s | s in Strings(row.quest.body) && Storable(env, s)|
    ensures row.CardRow? ==> Images(env, row) == |set s | s in Uris(row) && Storable(env, s)|
    ensures row.SnapshotRow? ==> Images(env, row) == |set s | s in Strings(row.snapshot.data) && Storable(env, s)|
  {
    hide ParseDataUri;
    if row.CardRow? { assert (set s | s in Uris(row) && Storable(env, s)) == {row.card.comic.value}; }
  }

  lemma EmptyWalk(env: Env, rows: seq<Row>, budget: nat)
    requires rows == []
    ensures Walk(env, rows, budget) == Progress([], 0, 0, true)
  {}

  lemma NoBudget(env: Env, rows: seq<Row>)
    requires rows != []
    ensures Walk(env, rows, 0) == Progress(rows, 0, 0, false)
  {}
}
