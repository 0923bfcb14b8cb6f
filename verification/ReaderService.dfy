/** A pass as code: its copies updated in place, and the store it shares with the
    admin, whose requests run at every await. The class invariant says that the store
    and the copies are always where the shared store's steps lead, so what is proved
    of those steps holds of it. */
module ReaderService {
  import opened Prelude
  import opened Announcement
  import opened Reader
  import opened ChannelPages
  import Shared = SharedStore

  // ---- pictures at hand --------------------------------------------------------------------

  predicate Shows(known: map<PostId, Announcement>, id: PostId, picture: (string, string)) {
    id in known && known[id].image == Some(picture.1) && known[id].imagePrint == Some(picture.0)
  }

  ghost predicate Held(known: map<PostId, Announcement>, left: set<PostId>, picture: (string, string)) {
    exists id :: id !in left && Shows(known, id, picture)
  }

  /** A copy whose picture has a print has that picture at hand. */
  predicate Noted(known: map<PostId, Announcement>, id: PostId, pictures: seq<(string, string)>) {
    id in known && known[id].image.Some? && known[id].imagePrint.Some? ==> !IsNew(pictures, known[id].image.value)
  }

  /** The pictures at hand are exactly those of the announcements with a print, each once. */
  ghost predicate AtHand(known: map<PostId, Announcement>, pictures: seq<(string, string)>) {
    && (forall k :: 0 <= k < |pictures| ==> Held(known, {}, pictures[k]))
    && (forall id :: id in known ==> Noted(known, id, pictures))
    && (forall k, l :: 0 <= k < l < |pictures| ==> pictures[k].1 != pictures[l].1)
  }

  /** Those no longer `left` have their prints, and the pictures noted are exactly theirs. */
  ghost predicate LoadedSoFar(w: World, start: map<PostId, Announcement>, left: set<PostId>,
                              known: map<PostId, Announcement>, pictures: seq<(string, string)>)
  {
    && left <= start.Keys && known.Keys == start.Keys
    && (forall id :: id in known ==> known[id] == if id in left then start[id] else WithPrint(w, start[id]))
    && (forall k :: 0 <= k < |pictures| ==> Held(known, left, pictures[k]))
    && (forall id :: id in known && id !in left ==> Noted(known, id, pictures))
    && (forall k, l :: 0 <= k < l < |pictures| ==> pictures[k].1 != pictures[l].1)
  }

  lemma NoneLoaded(w: World, start: map<PostId, Announcement>)
    ensures LoadedSoFar(w, start, start.Keys, start, [])
  {}

  lemma LeftIsKnown(w: World, start: map<PostId, Announcement>, left: set<PostId>, known: map<PostId, Announcement>,
                    pictures: seq<(string, string)>, id: PostId)
    requires LoadedSoFar(w, start, left, known, pictures) && id in left
    ensures id in known
  {}

  lemma NotedElsewhere(before: map<PostId, Announcement>, known: map<PostId, Announcement>,
                       pictures: seq<(string, string)>, more: seq<(string, string)>, id: PostId)
    requires id in before && id in known && known[id] == before[id] && Noted(before, id, pictures)
    requires pictures <= more
    ensures Noted(known, id, more)
  {
    assert forall k :: 0 <= k < |pictures| ==> pictures[k] == more[k];
  }

  lemma OneLoaded(w: World, start: map<PostId, Announcement>, left: set<PostId>, before: map<PostId, Announcement>,
                  known: map<PostId, Announcement>, pictures: seq<(string, string)>, id: PostId)
    requires LoadedSoFar(w, start, left, before, pictures) && id in left
    requires id in known && id in before && known == before[id := WithPrint(w, before[id])]
    requires Noted(known, id, pictures)
    ensures LoadedSoFar(w, start, left - {id}, known, pictures)
  {
    hide WithPrint, IsNew, Held, Noted;
    forall k | 0 <= k < |pictures| ensures Held(known, left - {id}, pictures[k]) {
      StillHeld(before, known, left, id, pictures[k]);
    }
    forall other | other in known && other !in left ensures Noted(known, other, pictures) {
      NotedElsewhere(before, known, pictures, pictures, other);
    }
  }

  lemma OnePicture(w: World, start: map<PostId, Announcement>, left: set<PostId>, before: map<PostId, Announcement>,
                   known: map<PostId, Announcement>, pictures: seq<(string, string)>, id: PostId,
                   picture: (string, string))
    requires LoadedSoFar(w, start, left, before, pictures) && id in left
    requires id in known && id in before && known == before[id := WithPrint(w, before[id])]
    requires Shows(known, id, picture) && IsNew(pictures, picture.1)
    ensures LoadedSoFar(w, start, left - {id}, known, pictures + [picture])
  {
    hide WithPrint, IsNew, Held, Noted, Shows;
    forall k | 0 <= k < |pictures| ensures Held(known, left - {id}, pictures[k]) {
      StillHeld(before, known, left, id, pictures[k]);
    }
    forall other | other in known && other !in left ensures Noted(known, other, pictures + [picture]) {
      NotedElsewhere(before, known, pictures, pictures + [picture], other);
    }
    NewlyNoted(known, left - {id}, pictures, id, picture);
    EachOnce(pictures, picture);
  }

  lemma NewlyNoted(known: map<PostId, Announcement>, left: set<PostId>, pictures: seq<(string, string)>, id: PostId,
                   picture: (string, string))
    requires id !in left && Shows(known, id, picture)
    ensures Noted(known, id, pictures + [picture]) && Held(known, left, picture)
  {
    assert (pictures + [picture])[|pictures|] == picture;
  }

  lemma EachOnce(pictures: seq<(string, string)>, picture: (string, string))
    requires IsNew(pictures, picture.1)
    requires forall k, l :: 0 <= k < l < |pictures| ==> pictures[k].1 != pictures[l].1
    ensures var more := pictures + [picture]; forall k, l :: 0 <= k < l < |more| ==> more[k].1 != more[l].1
  {}

  lemma AllLoaded(w: World, start: map<PostId, Announcement>, known: map<PostId, Announcement>,
                  pictures: seq<(string, string)>)
    requires LoadedSoFar(w, start, {}, known, pictures)
    ensures known == WithPrints(w, start) && AtHand(known, pictures)
  {
    hide WithPrint, Held, Noted;
  }

  lemma StillHeld(before: map<PostId, Announcement>, known: map<PostId, Announcement>, left: set<PostId>, id: PostId,
                  picture: (string, string))
    requires id in left && id in known && known == before[id := known[id]] && Held(before, left, picture)
    ensures Held(known, left - {id}, picture)
  {
    var i :| i !in left && Shows(before, i, picture);
    assert Shows(known, i, picture);
  }

  predicate IsNew(pictures: seq<(string, string)>, url: string) {
    forall k :: 0 <= k < |pictures| ==> pictures[k].1 != url
  }

  // ---- the shared store under the pass -------------------------------------------------------

  /** The announcements without the stories behind them. */
  function Bare(told: map<PostId, Shared.Told>): map<PostId, Announcement> {
    map id | id in told :: told[id].story.a
  }

  lemma BarePut(told: map<PostId, Shared.Told>, id: PostId, t: Shared.Told)
    ensures Bare(told[id := t]) == Bare(told)[id := t.story.a]
  {}

  /** Only admin requests move. */
  predicate Elsewhere(steps: seq<Shared.Step>) {
    forall i :: 0 <= i < |steps| ==> steps[i].Open? || steps[i].Save? || steps[i].Drop?
  }

  lemma {:induction false} ElsewhereKeeps(r: Shared.Rules, s: Shared.State, steps: seq<Shared.Step>)
    requires Elsewhere(steps)
    ensures Shared.Exec(r, s, steps).reader == s.reader
    decreases |steps|
  {
    hide Shared.Retold, Shared.Refused;
    if steps != [] {
      var n := |steps| - 1;
      ElsewhereKeeps(r, s, steps[..n]);
      assert steps[n].Open? || steps[n].Save? || steps[n].Drop?;
    }
  }

  lemma Then(r: Shared.Rules, s: Shared.State, run: seq<Shared.Step>, step: Shared.Step)
    ensures Shared.Exec(r, s, run + [step]) == Shared.Apply(r, Shared.Exec(r, s, run), step)
  {
    assert (run + [step])[..|run|] == run;
  }

  lemma {:induction false} ExecConcat(r: Shared.Rules, s: Shared.State, a: seq<Shared.Step>, b: seq<Shared.Step>)
    ensures Shared.Exec(r, s, a + b) == Shared.Exec(r, Shared.Exec(r, s, a), b)
    decreases |b|
  {
    if b == [] {
      assert a + b == a;
    } else {
      assert (a + b)[..|a + b| - 1] == a + b[..|b| - 1];
      ExecConcat(r, s, a, b[..|b| - 1]);
    }
  }

  /** How a post's announcement is filed after the read. */
  function Filing(mode: Mode): seq<Action> {
    match mode
    case Feed => []
    case Archive => [ArchiveIt]
    case Import => [ImportIt]
  }

  lemma ReadTold(r: Shared.Rules, t: Shared.Told, post: Post, image: Option<Picture>, mode: Mode, stamp: nat)
    requires t.story.a.channel == r.channel
    ensures Shared.Retold(r, t, [Action.Read(post, image)] + Filing(mode), stamp).story.a ==
            Filed(r.reading, ApplyPost(r.reading, Some(t.story.a), r.channel, post, image), mode)
  {
    hide ApplyPost, FileArchived, FileImported, Shared.Retold;
    var read := Action.Read(post, image);
    if Filing(mode) == [] {
      assert [read] + Filing(mode) == [read];
      Shared.OneAction(r, t, read, stamp);
    } else {
      assert [read] + Filing(mode) == [read, Filing(mode)[0]];
      Shared.TwoActions(r, t, read, Filing(mode)[0], stamp);
    }
  }

  lemma CreateTold(r: Shared.Rules, post: Post, image: Option<Picture>, mode: Mode, stamp: nat)
    ensures Shared.Retold(r, Shared.FirstTold(r, post, image), Filing(mode), stamp).story.a ==
            Filed(r.reading, ApplyPost(r.reading, None, r.channel, post, image), mode)
  {
    hide ApplyPost, FileArchived, FileImported;
    if mode != Feed { assert Filing(mode)[..0] == []; }
  }

  predicate Tallied(before: Report, ids: set<PostId>, left: set<PostId>, report: Report) {
    left <= ids && report.removed == before.removed + |ids - left| && report == before.(removed := report.removed)
  }

  lemma OneTallied(before: Report, ids: set<PostId>, left: set<PostId>, report: Report, id: PostId)
    requires Tallied(before, ids, left, report) && id in left
    ensures Tallied(before, ids, left - {id}, report.(removed := report.removed + 1))
  {
    assert ids - (left - {id}) == ids - left + {id};
  }

  lemma AllTallied(before: Report, ids: set<PostId>, report: Report)
    requires Tallied(before, ids, {}, report)
    ensures report == before.(removed := before.removed + |ids|)
  {
    assert ids - {} == ids;
  }

  /** What a sync leaves and reports: the announcements in step with the posts, as
      many created, updated and removed as changed, and the published ones among the
      removed. */
  ghost predicate InStep(w: World, before: map<PostId, Announcement>, posts: seq<Post>, after: map<PostId, Announcement>,
                         report: Report, gone: seq<Announcement>)
  {
    && Synced(w, before, posts, after)
    && report.created == CountNew(w, before, posts) && report.updated == CountChanged(w, before, posts)
    && report.removed == |Deleted(before, posts)|
    && (forall a :: a in gone <==> a.id in Deleted(before, posts) && a == before[a.id] && a.status == Published)
  }

  /** Reading all posts and then taking down what they no longer list is a sync. */
  lemma SyncEnds(w: World, start: Pass, posts: seq<Post>, after: map<PostId, Announcement>, gone: seq<Announcement>,
                 report: Report)
    requires Numbered(start.known) && start.report == NO_REPORT
    requires var middle := ReadAll(w, start, posts, Feed);
             && RemovedSoFar(middle.known, Deleted(middle.known, posts), {}, after, gone)
             && report == middle.report.(removed := middle.report.removed + |Deleted(middle.known, posts)|)
    ensures after == TakenDown(ReadAll(w, start, posts, Feed).known, posts)
    ensures DistinctIds(posts) ==> InStep(w, start.known, posts, after, report.(read := |posts|), gone)
  {
    hide ReadAll, Deleted, TakenDown, Numbered, Synced, RemovedSoFar, CountNew, CountChanged;
    var middle := ReadAll(w, start, posts, Feed);
    RemovedIsTakenDown(middle.known, posts, after, gone);
    if DistinctIds(posts) {
      SyncedEnd(w, start, posts, after, gone);
      CountedEnd(w, start, posts);
    }
  }

  lemma RemovedIsTakenDown(middle: map<PostId, Announcement>, posts: seq<Post>, after: map<PostId, Announcement>,
                           gone: seq<Announcement>)
    requires RemovedSoFar(middle, Deleted(middle, posts), {}, after, gone)
    ensures after == TakenDown(middle, posts)
  {
    hide Deleted, Remove;
  }

  lemma SyncedEnd(w: World, start: Pass, posts: seq<Post>, after: map<PostId, Announcement>, gone: seq<Announcement>)
    requires Numbered(start.known) && DistinctIds(posts)
    requires var middle := ReadAll(w, start, posts, Feed).known; RemovedSoFar(middle, Deleted(middle, posts), {}, after, gone)
    ensures Synced(w, start.known, posts, after)
    ensures Deleted(ReadAll(w, start, posts, Feed).known, posts) == Deleted(start.known, posts)
    ensures forall a :: a in gone <==>
              a.id in Deleted(start.known, posts) && a == start.known[a.id] && a.status == Published
  {
    var middle := ReadAll(w, start, posts, Feed).known;
    AllRemoved(middle, Deleted(middle, posts), after, gone);
    hide ReadAll, RemovedSoFar, Deleted, Applied, IsCovered, Ids, Synced, Remove;
    ReadAllFeed(w, start, posts);
    SameDeleted(w, start.known, posts, middle);
    SyncedAfter(w, start.known, posts, middle, after);
    GoneAsBefore(start.known, middle, posts, gone);
  }

  lemma CountedEnd(w: World, start: Pass, posts: seq<Post>)
    requires Numbered(start.known) && DistinctIds(posts) && start.report == NO_REPORT
    ensures var report := ReadAll(w, start, posts, Feed).report;
            && report.created == CountNew(w, start.known, posts) && report.updated == CountChanged(w, start.known, posts)
            && report.removed == 0
  {
    hide ReadAll, Applied, Ids, CountNew, CountChanged, DistinctIds;
    ReadAllFeed(w, start, posts);
  }

  lemma GoneAsBefore(before: map<PostId, Announcement>, middle: map<PostId, Announcement>, posts: seq<Post>,
                     gone: seq<Announcement>)
    requires Deleted(middle, posts) == Deleted(before, posts)
    requires forall id :: id !in Ids(posts) ==> Lookup(middle, id) == Lookup(before, id)
    requires forall a :: a in gone <==> a.id in Deleted(middle, posts) && a == middle[a.id] && a.status == Published
    ensures forall a :: a in gone <==> a.id in Deleted(before, posts) && a == before[a.id] && a.status == Published
  {
    hide IsCovered, Ids;
    forall id | id in Deleted(before, posts) ensures middle[id] == before[id] {
      assert Lookup(middle, id) == Lookup(before, id);
    }
  }

  /** The step that stores a read post: a new announcement, or its own copy changed. */
  function ReadingStep(known: bool, post: Post, image: Option<Picture>, mode: Mode): Shared.Step {
    if known then Shared.Write(post.id, [Action.Read(post, image)] + Filing(mode))
    else Shared.Create(post, image, Filing(mode))
  }

  function ReadingTold(r: Shared.Rules, s: Shared.State, post: Post, image: Option<Picture>, mode: Mode): Shared.Told
    requires s.reader.Some?
  {
    var copies := s.reader.value.known;
    if post.id in copies then Shared.Retold(r, copies[post.id], [Action.Read(post, image)] + Filing(mode), s.clock)
    else Shared.Retold(r, Shared.FirstTold(r, post, image), Filing(mode), s.clock)
  }

  lemma ReadingStores(r: Shared.Rules, s: Shared.State, post: Post, image: Option<Picture>, mode: Mode)
    requires Shared.Inv(r, s) && s.reader.Some?
    ensures var copies := s.reader.value.known;
            var t := ReadingTold(r, s, post, image, mode);
            && Shared.Apply(r, s, ReadingStep(post.id in copies, post, image, mode)) == Shared.Put(s, post.id, t)
            && t.story.a ==
               Filed(r.reading, ApplyPost(r.reading, Lookup(Bare(copies), post.id), r.channel, post, image), mode)
  {
    hide Shared.Retold, Shared.FirstTold, Shared.Put, Shared.Follows, ApplyPost, Filed;
    var copies := s.reader.value.known;
    ReadingSuits(post.id, Action.Read(post, image), mode);
    hide Shared.Suits, Filing;
    if post.id in copies {
      assert Shared.CopyOk(r, copies[post.id], post.id);
      ReadTold(r, copies[post.id], post, image, mode, s.clock);
    } else {
      CreateTold(r, post, image, mode, s.clock);
    }
  }

  lemma ReadingSuits(id: PostId, read: Action, mode: Mode)
    requires read.Read? && read.post.id == id
    ensures Shared.Suits(id, [read] + Filing(mode)) && Shared.Suits(id, Filing(mode))
  {}

  lemma WritingStores(r: Shared.Rules, s: Shared.State, id: PostId, action: Action)
    requires s.reader.Some? && id in s.reader.value.known && (action.RemoveIt? || action.PrintIt?)
    ensures var t := Shared.Retold(r, s.reader.value.known[id], [action], s.clock);
            && Shared.Apply(r, s, Shared.Write(id, [action])) == Shared.Put(s, id, t)
            && t.story.a == Next(r.reading, r.trim, s.reader.value.known[id].story, action).a
  {
    hide Shared.Retold, Shared.Put;
    Shared.OneAction(r, s.reader.value.known[id], action, s.clock);
    hide Next;
  }

  /** Those of `ids` no longer `left` are taken down and, if published, reported. */
  ghost predicate RemovedSoFar(start: map<PostId, Announcement>, ids: set<PostId>, left: set<PostId>,
                               known: map<PostId, Announcement>, gone: seq<Announcement>)
  {
    && Numbered(start) && ids <= start.Keys && known.Keys == start.Keys
    && (forall id :: id in known ==> known[id] == if id in ids && id !in left then Remove(start[id]) else start[id])
    && (forall a :: a in gone <==> a.id in ids && a.id !in left && a == start[a.id] && a.status == Published)
  }

  lemma NoneRemoved(start: map<PostId, Announcement>, ids: set<PostId>)
    requires Numbered(start) && ids <= start.Keys
    ensures RemovedSoFar(start, ids, ids, start, [])
  {}

  lemma OneRemoved(start: map<PostId, Announcement>, ids: set<PostId>, left: set<PostId>,
                   known: map<PostId, Announcement>, gone: seq<Announcement>, id: PostId)
    requires RemovedSoFar(start, ids, left, known, gone) && id in left && left <= ids
    ensures id in known && known[id].id == id
    ensures RemovedSoFar(start, ids, left - {id}, known[id := Remove(known[id])],
                         if known[id].status == Published then gone + [known[id]] else gone)
  {}

  lemma AllRemoved(start: map<PostId, Announcement>, ids: set<PostId>, known: map<PostId, Announcement>,
                   gone: seq<Announcement>)
    requires RemovedSoFar(start, ids, {}, known, gone)
    ensures known.Keys == start.Keys && Numbered(known)
    ensures forall id :: id in known ==> known[id] == if id in ids then Remove(start[id]) else start[id]
    ensures forall a :: a in gone <==> a.id in ids && a == start[a.id] && a.status == Published
  {}

  class ReaderPass {
    const w: World
    const r: Shared.Rules
    var shared: Shared.State
    var known: map<PostId, Announcement>
    var pictures: seq<(string, string)>
    var report: Report
    var touched: seq<PostId>
    var drafts: seq<Announcement>
    var gone: seq<Announcement>
    ghost var history: seq<Shared.Step>

    function View(): Pass
      reads this
    {
      Pass(known, pictures, report, touched, drafts, gone)
    }

    function Store(): map<PostId, Announcement>
      reads this
    {
      Bare(shared.store)
    }

    /** The shared store stands where the steps so far lead, and the pass holds the
        copies it gives the pass. */
    ghost predicate Valid()
      reads this`known, this`shared, this`history
    {
      && r.reading == w.reading && r.channel == w.channel && shared == Shared.Exec(r, Shared.START, history)
      && shared.reader.Some? && known == Bare(shared.reader.value.known)
    }

    /** Where no admin is ahead, the store holds what the pass holds; and the copies
        are filed under their own numbers. */
    lemma Agrees()
      requires Valid()
      ensures Numbered(known) && known.Keys == Store().Keys
      ensures forall id :: id !in shared.ahead ==> Lookup(Store(), id) == Lookup(known, id)
    {
      Shared.EveryRunKeeps(r, history);
      hide Shared.Exec, Shared.Follows;
      var told := shared.reader.value.known;
      assert forall id :: id in told ==> Shared.CopyOk(r, told[id], id);
    }

    /** What admin requests do while an await of the pass is pending. */
    method Others(world: seq<Shared.Step>)
      requires Valid() && Elsewhere(world)
      modifies this`shared, this`history
      ensures Valid() && history == old(history) + world && Shared.Past(old(history), history)
    {
      ElsewhereKeeps(r, shared, world);
      ExecConcat(r, Shared.START, history, world);
      hide Shared.Exec;
      shared := Shared.Exec(r, shared, world);
      history := history + world;
    }

    /** After this write the shared store and the pass's copies hold exactly `a` under its
        id and are unchanged elsewhere; the write is one step of the shared store. */
    method Upsert(a: Announcement, step: Shared.Step, ghost t: Shared.Told)
      requires Valid() && t.story.a == a && Shared.Apply(r, shared, step) == Shared.Put(shared, a.id, t)
      modifies this`known, this`shared, this`history
      ensures Valid() && history == old(history) + [step] && Shared.Past(old(history), history)
      ensures known == old(known)[a.id := a] && Store() == old(Store())[a.id := a]
    {
      Then(r, Shared.START, history, step);
      BarePut(shared.store, a.id, t);
      BarePut(shared.reader.value.known, a.id, t);
      hide Shared.Exec, Shared.Apply;
      known := known[a.id := a];
      shared := Shared.Apply(r, shared, step);
      history := history + [step];
    }

    /** Load the channel's announcements and their pictures. */
    constructor (w: World, r: Shared.Rules, s: Shared.State, ghost past: seq<Shared.Step>, world: nat -> seq<Shared.Step>)
      requires r.reading == w.reading && r.channel == w.channel
      requires s == Shared.Exec(r, Shared.START, past) && s.reader.None? && forall k :: Elsewhere(world(k))
      ensures Valid() && this.w == w && this.r == r && Shared.Past(past, history)
      ensures known == WithPrints(w, Bare(s.store)) && AtHand(known, pictures)
      ensures report == NO_REPORT && touched == [] && drafts == [] && gone == []
    {
      this.w, this.r := w, r;
      shared, known := Shared.Apply(r, s, Shared.Load), Bare(s.store);
      pictures, report, touched, drafts, gone := [], NO_REPORT, [], [], [];
      history := past + [Shared.Load];
      new;
      Shared.PastOrder();
      Then(r, Shared.START, past, Shared.Load);
      hide Shared.Exec;
      LoadPictures(world);
    }

    /** Afterwards each loaded copy has the print its picture can be given, and the pictures
        at hand are those of the copies, each once. */
    method LoadPictures(world: nat -> seq<Shared.Step>)
      requires Valid() && pictures == [] && forall k :: Elsewhere(world(k))
      modifies this`known, this`shared, this`history, this`pictures
      ensures Valid() && Shared.Past(old(history), history)
      ensures known == WithPrints(w, old(known)) && AtHand(known, pictures)
    {
      Shared.PastOrder();
      ghost var start := known;
      var left := known.Keys;
      NoneLoaded(w, start);
      hide Valid, Shared.Past, LoadedSoFar, WithPrint, WithPrints, AtHand, IsNew;
      while left != {}
        invariant Valid() && Shared.Past(old(history), history) && LoadedSoFar(w, start, left, known, pictures)
        decreases |left|
      {
        var id :| id in left;
        ghost var before := known;
        LeftIsKnown(w, start, left, known, pictures, id);
        FillPrint(id, world(|left|));
        var a := known[id];
        if a.image.Some? && a.imagePrint.Some? && IsNew(pictures, a.image.value) {
          OnePicture(w, start, left, before, known, pictures, id, (a.imagePrint.value, a.image.value));
          pictures := pictures + [(a.imagePrint.value, a.image.value)];
        } else {
          OneLoaded(w, start, left, before, known, pictures, id);
        }
        left := left - {id};
      }
      AllLoaded(w, start, known, pictures);
    }

    method FillPrint(id: PostId, world: seq<Shared.Step>)
      requires Valid() && id in known && Elsewhere(world)
      modifies this`known, this`shared, this`history
      ensures Valid() && Shared.Past(old(history), history) && known == old(known)[id := WithPrint(w, old(known)[id])]
    {
      Shared.PastOrder();
      Agrees();
      var a := known[id];
      if a.image.None? || a.imagePrint.Some? { return; }
      var found := w.printOf(a.image.value);
      if found.None? { return; }
      Others(world);
      WritingStores(r, shared, id, PrintIt(found.value));
      hide Shared.Exec, Shared.Apply, Shared.Retold;
      Upsert(a.(imagePrint := found), Shared.Write(id, [PrintIt(found.value)]),
             Shared.Retold(r, shared.reader.value.known[id], [PrintIt(found.value)], shared.clock));
    }

    method CopyPicture(post: Post) returns (image: Option<Picture>)
      modifies this`pictures, this`report
      ensures (View(), image) == CopyPhoto(w, old(View()), post)
    {
      if post.photo.None? { return None; }
      var photo := w.download(post);
      if photo.None? { return None; }
      if photo.value.imagePrint.Some? {
        var held := FindPicture(w.same, pictures, photo.value.imagePrint.value);
        if held.Some? {
          report := report.(reused := report.reused + 1);
          return Some(Picture(held.value, photo.value.imagePrint));
        }
      }
      var url := w.keep(photo.value);
      if url.None? { return None; }
      report := report.(stored := report.stored + 1);
      if photo.value.imagePrint.Some? {
        pictures := pictures + [(photo.value.imagePrint.value, url.value)];
      }
      return Some(Picture(url.value, photo.value.imagePrint));
    }

    /** Takes the pass exactly where `ReadOne` says: copies, pictures, counters and drafts,
        whatever admins store in between. */
    method Read(post: Post, mode: Mode, world: seq<Shared.Step>)
      requires Valid() && Elsewhere(world)
      modifies this
      ensures Valid() && Shared.Past(old(history), history) && View() == ReadOne(w, old(View()), post, mode)
    {
      Shared.PastOrder();
      hide CopyPhoto, ApplyPost, Filed, Wants, Valid, Shared.Past, Elsewhere, Lookup, Store;
      if !Wants(w.reading, known, post, mode) { return; }
      var existing := Lookup(known, post.id);
      ghost var before := View();
      var image := CopyPicture(post);
      CopyTouchesNoAnnouncement(w, before, post);
      Others(world);
      var a := Filed(w.reading, ApplyPost(w.reading, existing, w.channel, post, image), mode);
      var wasPublished := existing.Some? && existing.value.status == Published;
      if wasPublished || a.status == Published { touched := touched + [a.id]; }
      if a.status == Draft && (existing.None? || existing.value.status != Draft) { drafts := drafts + [a]; }
      if existing.Some? {
        report := report.(updated := report.updated + 1);
      } else {
        report := report.(created := report.created + 1);
      }
      StoreRead(post, image, mode, a);
    }

    method StoreRead(post: Post, image: Option<Picture>, mode: Mode, a: Announcement)
      requires Valid() && a == Filed(w.reading, ApplyPost(w.reading, Lookup(known, post.id), w.channel, post, image), mode)
      modifies this`known, this`shared, this`history
      ensures Valid() && Shared.Past(old(history), history) && known == old(known)[a.id := a]
    {
      Agrees();
      Shared.EveryRunKeeps(r, history);
      ReadingStores(r, shared, post, image, mode);
      AppliedId(w.reading, Lookup(known, post.id), w.channel, post, image, mode);
      hide Shared.Exec, Shared.Apply, Shared.Retold, Shared.Inv, ApplyPost, Filed;
      Upsert(a, ReadingStep(post.id in known, post, image, mode), ReadingTold(r, shared, post, image, mode));
    }

    /** Marks one copy and its stored announcement removed, and counts it; only one that was
        published is reported to the site and to the admins. */
    method RemoveEvent(a: Announcement, world: seq<Shared.Step>)
      requires Valid() && Elsewhere(world) && a.id in known && known[a.id] == a
      modifies this`known, this`shared, this`history, this`touched, this`gone, this`report
      ensures Valid() && Shared.Past(old(history), history)
      ensures known == old(known)[a.id := Remove(a)]
      ensures report == old(report).(removed := old(report).removed + 1)
      ensures touched == if a.status == Published then old(touched) + [a.id] else old(touched)
      ensures gone == if a.status == Published then old(gone) + [a] else old(gone)
    {
      Shared.PastOrder();
      Others(world);
      if a.status == Published {
        touched := touched + [a.id];
        gone := gone + [a];
      }
      report := report.(removed := report.removed + 1);
      WritingStores(r, shared, a.id, RemoveIt);
      hide Shared.Exec, Shared.Apply, Shared.Retold, Shared.Past, Elsewhere, Shared.Put;
      Upsert(Remove(a), Shared.Write(a.id, [RemoveIt]),
             Shared.Retold(r, shared.reader.value.known[a.id], [RemoveIt], shared.clock));
    }

    method ReadPosts(posts: seq<Post>, mode: Mode, world: nat -> seq<Shared.Step>)
      requires Valid() && forall k :: Elsewhere(world(k))
      modifies this
      ensures Valid() && Shared.Past(old(history), history) && View() == ReadAll(w, old(View()), posts, mode)
    {
      Shared.PastOrder();
      ghost var start := View();
      hide ReadOne, Valid, Shared.Past;
      var i := 0;
      while i < |posts|
        invariant 0 <= i <= |posts| && Valid() && Shared.Past(old(history), history)
        invariant View() == ReadAll(w, start, posts[..i], mode)
      {
        assert posts[..i + 1][..i] == posts[..i];
        Read(posts[i], mode, world(i));
        i := i + 1;
      }
      assert posts[..i] == posts;
    }

    method RemoveAll(ids: set<PostId>, world: nat -> seq<Shared.Step>)
      requires Valid() && Numbered(known) && ids <= known.Keys && gone == [] && forall k :: Elsewhere(world(k))
      modifies this`known, this`shared, this`history, this`touched, this`gone, this`report
      ensures Valid() && Shared.Past(old(history), history)
      ensures RemovedSoFar(old(known), ids, {}, known, gone)
      ensures report == old(report).(removed := old(report).removed + |ids|)
    {
      Shared.PastOrder();
      ghost var start, before := known, report;
      var left := ids;
      assert RemovedSoFar(start, ids, left, known, gone) by { NoneRemoved(start, ids); }
      assert Tallied(before, ids, left, report);
      hide RemovedSoFar, Tallied, Valid, Shared.Past, Remove, Elsewhere, Numbered;
      while left != {}
        invariant left <= ids && Valid() && Shared.Past(old(history), history)
        invariant RemovedSoFar(start, ids, left, known, gone)
        invariant Tallied(before, ids, left, report)
        decreases |left|
      {
        var id :| id in left;
        OneRemoved(start, ids, left, known, gone, id);
        OneTallied(before, ids, left, report, id);
        RemoveEvent(known[id], world(|left|));
        left := left - {id};
      }
      AllTallied(before, ids, report);
    }

    /** Bring the announcements into step with the posts of the pages read: apply them
        in order, then take down what the pages cover and no longer list. Where no
        admin got ahead meanwhile, the store is left as the pass has it. */
    method Sync(posts: seq<Post>, world: nat -> seq<Shared.Step>)
      requires Valid() && posts != [] && report == NO_REPORT && gone == [] && forall k :: Elsewhere(world(k))
      modifies this
      ensures Valid() && Shared.Past(old(history), history) && report.read == |posts|
      ensures known == TakenDown(ReadAll(w, old(View()), posts, Feed).known, posts)
      ensures forall id :: id !in shared.ahead ==> Lookup(Store(), id) == Lookup(known, id)
      ensures DistinctIds(posts) ==> InStep(w, old(known), posts, known, report, gone)
    {
      Shared.PastOrder();
      Agrees();
      ghost var start := View();
      hide InStep, ReadAll, TakenDown, DistinctIds, Valid, Shared.Past, Store, Elsewhere, Numbered, Lookup;
      ReadPosts(posts, Feed, world);
      ReadAllNumbered(w, start, posts);
      var deleted := Deleted(known, posts);
      hide Deleted, RemovedSoFar;
      RemoveAll(deleted, Later(world, |posts|));
      SyncEnds(w, start, posts, known, gone, report);
      report := report.(read := |posts|);
      Agrees();
    }

    /** Read the feed, page back after a pause, and sync. */
    method SyncFeed(feed: seq<Post>, older: int -> seq<Post>, world: nat -> seq<Shared.Step>)
      returns (result: Option<Report>, ghost posts: seq<Post>)
      requires Valid() && report == NO_REPORT && gone == [] && forall k :: Elsewhere(world(k))
      modifies this
      ensures Valid() && Shared.Past(old(history), history)
      ensures feed == [] ==> result.None? && View() == old(View()) && shared == old(shared)
      ensures feed != [] ==>
                && result == Some(report) && posts == CaughtUp(older, feed, old(known).Keys)
                && known == TakenDown(ReadAll(w, old(View()), posts, Feed).known, posts)
                && forall id :: id !in shared.ahead ==> Lookup(Store(), id) == Lookup(known, id)
      ensures feed != [] && DistinctIds(feed) && PagesBack(older) ==>
                DistinctIds(posts) && InStep(w, old(known), posts, known, report, gone)
    {
      Shared.PastOrder();
      posts := [];
      if feed == [] { return None, posts; }
      hide Shared.Past, Valid, ReadAll, TakenDown, InStep;
      var all := CatchUp(feed, older, known.Keys);
      posts := all;
      if DistinctIds(feed) && PagesBack(older) && known.Keys != {} {
        PagedAreDistinct(older, feed, Newest(known.Keys).number, MAX_PAGES);
      }
      hide DistinctIds, PagesBack;
      Sync(all, world);
      return Some(report), posts;
    }

    /** One page of the archive. The posts of the year act as archive posts one after the
        other, no published announcement changes and no draft appears; `nextBefore` is where
        the following page would begin, if there is one. */
    method ImportArchivePage(posts: seq<Post>, start: Option<string>, world: nat -> seq<Shared.Step>)
      requires Valid() && report == NO_REPORT && drafts == [] && forall k :: Elsewhere(world(k))
      modifies this
      ensures Valid() && Shared.Past(old(history), history)
      ensures known == ReadAll(w, old(View()), InYear(posts, start), Archive).known
      ensures ArchiveKept(old(known), known) && drafts == []
      ensures report.read == |InYear(posts, start)| && report.nextBefore == NextBefore(posts, start)
      ensures forall id :: id !in shared.ahead ==> Lookup(Store(), id) == Lookup(known, id)
    {
      Shared.PastOrder();
      Agrees();
      hide Valid, Shared.Past, ReadOne, InRange, ArchiveKept;
      ghost var before := View();
      var inYear := KeepInYear(posts, start);
      ReadPosts(inYear, Archive, world);
      ArchiveLeavesTheSiteAlone(w, before, inYear);
      var reached := ReachesStart(posts, start);
      var next: Option<int> := None;
      if !reached && posts != [] {
        var oldest := OldestOf(posts);
        next := Some(oldest);
      }
      report := report.(read := |inYear|, nextBefore := next);
      Agrees();
    }
  }

  method ReachesStart(posts: seq<Post>, start: Option<string>) returns (reached: bool)
    ensures reached <==> exists i :: 0 <= i < |posts| && !InRange(start, posts[i])
  {
    hide InRange;
    reached := false;
    var i := 0;
    while i < |posts|
      invariant 0 <= i <= |posts| && (reached <==> exists k :: 0 <= k < i && !InRange(start, posts[k]))
    {
      if !InRange(start, posts[i]) { reached := true; }
      i := i + 1;
    }
  }

  method KeepInYear(posts: seq<Post>, start: Option<string>) returns (kept: seq<Post>)
    ensures kept == InYear(posts, start)
  {
    hide InRange;
    kept := [];
    var i := 0;
    while i < |posts|
      invariant 0 <= i <= |posts| && kept == InYear(posts[..i], start)
    {
      assert posts[..i + 1][..i] == posts[..i];
      if InRange(start, posts[i]) { kept := kept + [posts[i]]; }
      i := i + 1;
    }
    assert posts[..i] == posts;
  }

  // ---- how passes are remembered -----------------------------------------------------------

  const CHECK_EVERY := 86_400

  class Memory {
    var lastError: Option<string>
    var failures: nat
    var lastCheck: nat

    /** Remember how a pass went; says whether the admin is to be mailed. */
    method Record(error: Option<string>) returns (mail: bool)
      modifies this`lastError, this`failures
      ensures failures == Failures(old(failures), error.None?) && lastError == error
      ensures mail == (error.Some? && failures == 2)
    {
      lastError := error;
      if error.None? {
        failures := 0;
        return false;
      }
      failures := failures + 1;
      return failures == 2;
    }

    /** Answers yes at most once in any `CHECK_EVERY` seconds: a yes moves `lastCheck` to
        `now`, a no leaves it. */
    method CheckDue(now: nat) returns (due: bool)
      modifies this`lastCheck
      ensures due == (now >= old(lastCheck) + 24 * 3600)
      ensures lastCheck == if due then now else old(lastCheck)
    {
      due := (if now >= lastCheck then now - lastCheck else 0) >= CHECK_EVERY;
      if due { lastCheck := now; }
    }
  }

  function Failures(before: nat, ok: bool): nat { if ok then 0 else before + 1 }

  /** The failures in a row after these passes. */
  function Streak(passes: seq<bool>): nat {
    if passes == [] then 0 else Failures(Streak(passes[..|passes| - 1]), passes[|passes| - 1])
  }

  lemma LastPass(passes: seq<bool>)
    requires passes != []
    ensures Streak(passes) == Failures(Streak(passes[..|passes| - 1]), passes[|passes| - 1])
  {}

  /** The mail goes out exactly at the second failure of every streak: after a
      failure that follows a failure that follows a success, or the beginning. */
  lemma MailOncePerStreak(passes: seq<bool>)
    requires passes != []
    ensures var n := |passes| - 1;
            !passes[n] && Streak(passes) == 2 <==>
            n >= 1 && !passes[n] && !passes[n - 1] && (n == 1 || passes[n - 2])
  {
    var n := |passes| - 1;
    hide Streak;
    LastPass(passes);
    if n == 0 {
      NoStreak(passes[..n]);
    } else {
      LastPass(passes[..n]);
      assert passes[..n][..n - 1] == passes[..n - 1];
      if n == 1 { NoStreak(passes[..0]); } else { LastPass(passes[..n - 1]); }
    }
  }

  lemma NoStreak(passes: seq<bool>)
    requires passes == []
    ensures Streak(passes) == 0
  {}
}
