/** The pages of a channel: how a sync pages back, what of the channel it then has
    seen, and how the import of the archive walks from page to page. */
module ChannelPages {
  import opened Prelude
  import opened Announcement
  import opened Reader

  // ---- paging back --------------------------------------------------------------------

  /** The least post number. */
  function Oldest(posts: seq<Post>): (m: int)
    requires posts != []
    ensures forall i :: 0 <= i < |posts| ==> m <= posts[i].id.number
    ensures exists i :: 0 <= i < |posts| && posts[i].id.number == m
  {
    if |posts| == 1 then posts[0].id.number
    else
      var m := Oldest(posts[1..]);
      assert forall i :: 1 <= i < |posts| ==> posts[i] == posts[1..][i - 1];
      if posts[0].id.number < m then posts[0].id.number else m
  }

  /** The greatest number of a known post. */
  ghost function Newest(keys: set<PostId>): (m: PostId)
    requires keys != {}
    ensures m in keys && forall k :: k in keys ==> k.number <= m.number
    decreases |keys|
  {
    var k :| k in keys;
    if keys == {k} then k
    else
      var m := Newest(keys - {k});
      if k.number > m.number then k else m
  }

  /** Does the reader page on: the known posts are not met, and there is more? */
  predicate PagesOn(older: int -> seq<Post>, posts: seq<Post>, newest: int)
    requires posts != []
  {
    Oldest(posts) > newest + 1 && older(Oldest(posts)) != []
  }

  /** The posts with up to `pages` pages before them: the page before the oldest post
      is added until a known post is met or the channel ends. */
  function Paged(older: int -> seq<Post>, posts: seq<Post>, newest: int, pages: nat): (r: seq<Post>)
    requires posts != []
    ensures r != [] && posts <= r
    decreases pages
  {
    if pages > 0 && PagesOn(older, posts, newest)
    then Paged(older, posts + older(Oldest(posts)), newest, pages - 1)
    else posts
  }

  /** How many pages that takes. */
  function PagesRead(older: int -> seq<Post>, posts: seq<Post>, newest: int, pages: nat): (n: nat)
    requires posts != []
    ensures n <= pages
    ensures n < pages ==> !PagesOn(older, Paged(older, posts, newest, pages), newest)
    decreases pages
  {
    if pages > 0 && PagesOn(older, posts, newest)
    then 1 + PagesRead(older, posts + older(Oldest(posts)), newest, pages - 1)
    else 0
  }

  const MAX_PAGES := 5

  /** What a sync reads: the feed, and pages before it down to a known post. */
  ghost function CaughtUp(older: int -> seq<Post>, feed: seq<Post>, known: set<PostId>): (r: seq<Post>)
    requires feed != []
    ensures r != [] && feed <= r
  {
    if known == {} then feed else Paged(older, feed, Newest(known).number, MAX_PAGES)
  }

  method NewestOf(keys: set<PostId>) returns (m: PostId)
    requires keys != {}
    ensures m == Newest(keys)
  {
    m :| m in keys;
    var left := keys;
    while left != {}
      invariant left <= keys && m in keys && forall k :: k in keys && k !in left ==> k.number <= m.number
      decreases |left|
    {
      var k :| k in left;
      if k.number > m.number { m := k; }
      left := left - {k};
    }
    assert m.number == Newest(keys).number;
  }

  method OldestOf(posts: seq<Post>) returns (m: int)
    requires posts != []
    ensures m == Oldest(posts)
  {
    m := posts[0].id.number;
    var i := 1;
    while i < |posts|
      invariant 1 <= i <= |posts|
      invariant forall j :: 0 <= j < i ==> m <= posts[j].id.number
      invariant exists j :: 0 <= j < i && m == posts[j].id.number
    {
      if posts[i].id.number < m { m := posts[i].id.number; }
      i := i + 1;
    }
  }

  /** Page back from the feed until a known post is met, the channel ends, or five
      pages are read. */
  method CatchUp(feed: seq<Post>, older: int -> seq<Post>, known: set<PostId>) returns (posts: seq<Post>)
    requires feed != []
    ensures posts == CaughtUp(older, feed, known)
  {
    posts := feed;
    if known == {} { return; }
    var newest := NewestOf(known);
    var pages := 0;
    while pages < MAX_PAGES
      invariant pages <= MAX_PAGES && posts != []
      invariant Paged(older, posts, newest.number, MAX_PAGES - pages) == Paged(older, feed, newest.number, MAX_PAGES)
      decreases MAX_PAGES - pages
    {
      var oldest := OldestOf(posts);
      if oldest <= newest.number + 1 { break; }
      var more := older(oldest);
      if more == [] { break; }
      posts := posts + more;
      pages := pages + 1;
    }
  }

  /** The page before post `n` lists older posts only, each once. */
  ghost predicate PagesBack(older: int -> seq<Post>) {
    forall n :: DistinctIds(older(n)) && forall i :: 0 <= i < |older(n)| ==> older(n)[i].id.number < n
  }

  lemma OlderAreOthers(posts: seq<Post>, more: seq<Post>, oldest: int)
    requires DistinctIds(posts) && DistinctIds(more)
    requires forall i :: 0 <= i < |posts| ==> oldest <= posts[i].id.number
    requires forall i :: 0 <= i < |more| ==> more[i].id.number < oldest
    ensures DistinctIds(posts + more)
  {
    var all := posts + more;
    forall i, j | 0 <= i < j < |all| ensures all[i].id != all[j].id {
      if i < |posts| <= j { assert all[j] == more[j - |posts|]; }
    }
  }

  /** Pages that list older posts only, each once, add up to distinct posts. */
  lemma {:induction false} PagedAreDistinct(older: int -> seq<Post>, posts: seq<Post>, newest: int, pages: nat)
    requires posts != [] && DistinctIds(posts) && PagesBack(older)
    ensures DistinctIds(Paged(older, posts, newest, pages))
    decreases pages
  {
    if pages > 0 && PagesOn(older, posts, newest) {
      OlderAreOthers(posts, older(Oldest(posts)), Oldest(posts));
      hide DistinctIds, PagesBack;
      PagedAreDistinct(older, posts + older(Oldest(posts)), newest, pages - 1);
    }
  }

  // ---- what the pages show of the channel ------------------------------------------------

  predicate InFront(id: PostId, before: Option<int>) { before.None? || id.number < before.value }

  /** The page lists the newest of the channel's posts in front of `before`, each
      once and without a gap; it is empty only when there is none. */
  ghost predicate Lists(channel: map<PostId, Post>, page: seq<Post>, before: Option<int>) {
    && DistinctIds(page)
    && (forall i :: 0 <= i < |page| ==>
          page[i].id in channel && channel[page[i].id] == page[i] && InFront(page[i].id, before))
    && (forall id :: id in channel && InFront(id, before) && (page == [] || Oldest(page) <= id.number) ==> id in Ids(page))
  }

  /** The posts are the channel's, each once, down to the oldest without a gap. */
  ghost predicate Complete(channel: map<PostId, Post>, posts: seq<Post>)
    requires posts != []
  {
    && DistinctIds(posts)
    && (forall i :: 0 <= i < |posts| ==> posts[i].id in channel && channel[posts[i].id] == posts[i])
    && (forall id :: id in channel && Oldest(posts) <= id.number ==> id in Ids(posts))
  }

  lemma OldestOfBoth(posts: seq<Post>, more: seq<Post>)
    requires posts != [] && more != [] && forall i :: 0 <= i < |more| ==> more[i].id.number < Oldest(posts)
    ensures Oldest(posts + more) == Oldest(more)
  {
    var all := posts + more;
    var i :| 0 <= i < |more| && more[i].id.number == Oldest(more);
    assert all[|posts| + i] == more[i];
    var k :| 0 <= k < |all| && all[k].id.number == Oldest(all);
    if k >= |posts| { assert all[k] == more[k - |posts|]; }
  }

  lemma IdsOfBoth(posts: seq<Post>, more: seq<Post>)
    ensures Ids(posts + more) == Ids(posts) + Ids(more)
  {
    var all := posts + more;
    forall id ensures id in Ids(all) <==> id in Ids(posts) || id in Ids(more) {
      if i :| 0 <= i < |posts| && posts[i].id == id { assert all[i].id == id; }
      if i :| 0 <= i < |more| && more[i].id == id { assert all[|posts| + i].id == id; }
    }
  }

  lemma OnePageMore(channel: map<PostId, Post>, posts: seq<Post>, more: seq<Post>)
    requires posts != [] && more != [] && Complete(channel, posts) && Lists(channel, more, Some(Oldest(posts)))
    ensures Complete(channel, posts + more)
  {
    OlderAreOthers(posts, more, Oldest(posts));
    OldestOfBoth(posts, more);
    IdsOfBoth(posts, more);
    hide DistinctIds, Ids, Oldest;
    var all := posts + more;
    forall i | 0 <= i < |all| ensures all[i].id in channel && channel[all[i].id] == all[i] {
      if i < |posts| { assert all[i] == posts[i]; } else { assert all[i] == more[i - |posts|]; }
    }
    forall id | id in channel && Oldest(all) <= id.number ensures id in Ids(all) {
      if id.number < Oldest(posts) { assert id in Ids(more); }
    }
  }

  lemma NothingInFront(channel: map<PostId, Post>, before: Option<int>)
    requires Lists(channel, [], before)
    ensures forall id :: id in channel ==> !InFront(id, before)
  {}

  /** On a still channel, paging back leaves no gap down to the oldest post read; and
      if five pages were not needed, every post newer than the known ones is read. */
  lemma {:induction false} PagingMissesNothing(channel: map<PostId, Post>, older: int -> seq<Post>, posts: seq<Post>,
                                               newest: int, pages: nat)
    requires posts != [] && Complete(channel, posts) && forall n :: Lists(channel, older(n), Some(n))
    ensures var all := Paged(older, posts, newest, pages);
            && Complete(channel, all)
            && (PagesRead(older, posts, newest, pages) < pages ==>
                  forall id :: id in channel && id.number > newest ==> id in Ids(all))
    decreases pages
  {
    hide Complete, Lists, Ids, Oldest;
    assert Lists(channel, older(Oldest(posts)), Some(Oldest(posts)));
    if pages > 0 && PagesOn(older, posts, newest) {
      OnePageMore(channel, posts, older(Oldest(posts)));
      PagingMissesNothing(channel, older, posts + older(Oldest(posts)), newest, pages - 1);
    } else if !PagesOn(older, posts, newest) {
      NothingNewer(channel, posts, older(Oldest(posts)), newest);
    }
  }

  /** Where paging stops before its last page, every newer post is among the posts. */
  lemma NothingNewer(channel: map<PostId, Post>, posts: seq<Post>, more: seq<Post>, newest: int)
    requires posts != [] && Complete(channel, posts) && Lists(channel, more, Some(Oldest(posts)))
    requires Oldest(posts) <= newest + 1 || more == []
    ensures forall id :: id in channel && id.number > newest ==> id in Ids(posts)
  {
    if more == [] { NothingInFront(channel, Some(Oldest(posts))); }
    hide Lists, Ids, Oldest;
  }

  /** What a sync reads of a still channel has no gap; and after a pause shorter than
      five pages, every post newer than the known ones is read. */
  lemma CatchUpMissesNothing(channel: map<PostId, Post>, older: int -> seq<Post>, feed: seq<Post>, known: set<PostId>)
    requires feed != [] && Lists(channel, feed, None) && forall n :: Lists(channel, older(n), Some(n))
    ensures Complete(channel, CaughtUp(older, feed, known))
    ensures known != {} && PagesRead(older, feed, Newest(known).number, MAX_PAGES) < 5 ==>
              forall id :: id in channel && id.number > Newest(known).number ==> id in Ids(CaughtUp(older, feed, known))
  {
    hide DistinctIds, Ids;
    assert Complete(channel, feed);
    if known != {} {
      hide Complete;
      PagingMissesNothing(channel, older, feed, Newest(known).number, MAX_PAGES);
    }
  }

  /** Every post of the channel after `newest` is among the posts. */
  ghost predicate ReadsAllNewer(channel: map<PostId, Post>, posts: seq<Post>, newest: int) {
    forall id :: id in channel && id.number > newest ==> id in Ids(posts)
  }

  /** Some post of the channel lies between what was known and what was read. */
  ghost predicate LeavesGap(channel: map<PostId, Post>, posts: seq<Post>, newest: int)
    requires posts != []
  {
    exists id :: id in channel && newest < id.number < Oldest(posts)
  }

  lemma GapExactly(channel: map<PostId, Post>, posts: seq<Post>, newest: int)
    requires posts != [] && Complete(channel, posts)
    ensures ReadsAllNewer(channel, posts, newest) <==> !LeavesGap(channel, posts, newest)
  {
    hide DistinctIds;
    if LeavesGap(channel, posts, newest) {
      var id :| id in channel && newest < id.number < Oldest(posts);
      assert id !in Ids(posts);
    }
  }

  lemma NextPageTells(channel: map<PostId, Post>, posts: seq<Post>, next: seq<Post>, newest: int)
    requires posts != [] && Lists(channel, next, Some(Oldest(posts)))
    ensures LeavesGap(channel, posts, newest) <==> exists i :: 0 <= i < |next| && next[i].id.number > newest
  {
    hide DistinctIds;
    if LeavesGap(channel, posts, newest) {
      var id :| id in channel && newest < id.number < Oldest(posts);
      assert next != [];
      if Oldest(next) <= id.number {
        assert id in Ids(next);
      } else {
        assert next[0].id.number > newest;
      }
    }
    if i :| 0 <= i < |next| && next[i].id.number > newest {
      assert next[i].id in channel;
    }
  }

  /** Exactly when a sync of a still channel misses a newer post: when one lies below all
      that was read, which the page after the last one read shows; and then all five
      pages were read. */
  lemma CatchUpMissesExactly(channel: map<PostId, Post>, older: int -> seq<Post>, feed: seq<Post>, known: set<PostId>)
    requires feed != [] && Lists(channel, feed, None) && forall n :: Lists(channel, older(n), Some(n))
    requires known != {}
    ensures var (read, newest) := (CaughtUp(older, feed, known), Newest(known).number);
            var next := older(Oldest(read));
            && (ReadsAllNewer(channel, read, newest) <==> !LeavesGap(channel, read, newest))
            && (ReadsAllNewer(channel, read, newest) <==> forall i :: 0 <= i < |next| ==> next[i].id.number <= newest)
            && (LeavesGap(channel, read, newest) ==> PagesRead(older, feed, newest, MAX_PAGES) == 5)
  {
    var (read, newest) := (CaughtUp(older, feed, known), Newest(known).number);
    CatchUpMissesNothing(channel, older, feed, known);
    hide CaughtUp, PagesRead, Lists, Complete, Ids, Oldest;
    assert Lists(channel, older(Oldest(read)), Some(Oldest(read)));
    GapExactly(channel, read, newest);
    NextPageTells(channel, read, older(Oldest(read)), newest);
  }

  /** After a sync over posts without a gap, an announcement within the covered part
      is removed exactly when the channel no longer has its post, and every own event
      from there on is stored as the channel has it. */
  lemma SyncFollowsTheChannel(w: World, before: map<PostId, Announcement>, posts: seq<Post>,
                              after: map<PostId, Announcement>, channel: map<PostId, Post>)
    requires Numbered(before) && Synced(w, before, posts, after) && posts != [] && Complete(channel, posts)
    ensures forall id :: id in after && IsCovered(posts, id) ==> (after[id].status == Removed <==> id !in channel)
    ensures forall id :: id in channel && Oldest(posts) <= id.number && IsOwnEvent(w.reading, channel[id]) ==>
              id in after && after[id].status != Removed && after[id].text == channel[id].text
  {
    RemovedExactlyUnlisted(w, before, posts, after);
    hide Applied, IsOwnEvent;
    forall id | id in after && IsCovered(posts, id) ensures id in Ids(posts) <==> id in channel {
      var i :| 0 <= i < |posts| && posts[i].id.number <= id.number;
      if id in Ids(posts) { var k :| 0 <= k < |posts| && posts[k].id == id; }
    }
    forall id | id in channel && Oldest(posts) <= id.number && IsOwnEvent(w.reading, channel[id])
      ensures id in after && after[id].status != Removed && after[id].text == channel[id].text
    {
      var k :| 0 <= k < |posts| && posts[k].id == id;
      assert posts[k] == channel[id];
      AppliedIsThere(w, before, after, posts[k]);
    }
  }

  // ---- the archive, page by page ---------------------------------------------------------

  /** Published from the start of the year on; dates compare as text. */
  predicate InRange(start: Option<string>, post: Post) { start.None? || LexLe(start.value, post.postedAt) }

  function InYear(posts: seq<Post>, start: Option<string>): (r: seq<Post>)
    ensures forall p :: p in r <==> p in posts && InRange(start, p)
  {
    if posts == [] then []
    else
      var p := posts[|posts| - 1];
      InYear(posts[..|posts| - 1], start) + if InRange(start, p) then [p] else []
  }

  /** Where the next page starts: nowhere once the year's start is passed or the
      channel ends. */
  function NextBefore(posts: seq<Post>, start: Option<string>): Option<int> {
    if posts == [] || exists i :: 0 <= i < |posts| && !InRange(start, posts[i]) then None else Some(Oldest(posts))
  }

  /** The import goes on before the oldest post of the page, unless the page is empty or shows
      a post from before the year. */
  lemma GoesOnExactly(posts: seq<Post>, start: Option<string>)
    ensures NextBefore(posts, start).Some? <==>
            posts != [] && forall i :: 0 <= i < |posts| ==> start.None? || LexLe(start.value, posts[i].postedAt)
    ensures NextBefore(posts, start).Some? ==>
              && (forall i :: 0 <= i < |posts| ==> NextBefore(posts, start).value <= posts[i].id.number)
              && (exists i :: 0 <= i < |posts| && NextBefore(posts, start).value == posts[i].id.number)
  {
    hide LexLe;
    if posts != [] && exists i :: 0 <= i < |posts| && !InRange(start, posts[i]) {
      var i :| 0 <= i < |posts| && !InRange(start, posts[i]);
    }
  }

  ghost predicate Honest(channel: map<PostId, Post>, page: Option<int> -> seq<Post>) {
    forall before :: Lists(channel, page(before), before)
  }

  function Rest(channel: map<PostId, Post>, before: Option<int>): set<PostId> {
    set id | id in channel && InFront(id, before)
  }

  lemma PagesShrink(channel: map<PostId, Post>, posts: seq<Post>, before: Option<int>)
    requires Lists(channel, posts, before) && posts != []
    ensures Rest(channel, Some(Oldest(posts))) < Rest(channel, before)
  {
    var i :| 0 <= i < |posts| && posts[i].id.number == Oldest(posts);
    assert posts[i].id in Rest(channel, before) && posts[i].id !in Rest(channel, Some(Oldest(posts)));
  }

  /** Paging stops once the known posts are met, next to each other or overlapping, or where
      the channel ends; until then, while pages are left, it goes on. */
  lemma PagesUntilMet(older: int -> seq<Post>, posts: seq<Post>, newest: int, pages: nat)
    requires posts != [] && pages > 0
    ensures Oldest(posts) <= newest + 1 || older(Oldest(posts)) == [] ==> Paged(older, posts, newest, pages) == posts
    ensures Oldest(posts) > newest + 1 && older(Oldest(posts)) != [] ==> posts + older(Oldest(posts)) <= Paged(older, posts, newest, pages)
  {
    hide Oldest;
  }

  /** What the whole import reads, called again with the next page until none is
      named. */
  ghost function Imported(channel: map<PostId, Post>, page: Option<int> -> seq<Post>, start: Option<string>,
                          before: Option<int>): seq<Post>
    requires Honest(channel, page)
    decreases Rest(channel, before)
  {
    var posts := page(before);
    var next := NextBefore(posts, start);
    if next.None? then InYear(posts, start)
    else
      PagesShrink(channel, posts, before);
      InYear(posts, start) + Imported(channel, page, start, next)
  }

  /** Later posts have later dates. */
  ghost predicate InOrder(channel: map<PostId, Post>) {
    forall a, b :: a in channel && b in channel && a.number <= b.number ==> LexLe(channel[a].postedAt, channel[b].postedAt)
  }

  lemma LaterInRange(start: Option<string>, a: Post, b: Post)
    requires InRange(start, a) && LexLe(a.postedAt, b.postedAt)
    ensures InRange(start, b)
  {
    hide LexLess;
    if start.Some? && start.value != a.postedAt && a.postedAt != b.postedAt {
      LexTransitive(start.value, a.postedAt, b.postedAt);
    }
  }

  lemma {:induction false} InYearDistinct(posts: seq<Post>, start: Option<string>)
    requires DistinctIds(posts)
    ensures DistinctIds(InYear(posts, start))
    decreases |posts|
  {
    if posts != [] {
      var n := |posts| - 1;
      InYearDistinct(posts[..n], start);
      hide InRange;
      forall i | 0 <= i < |InYear(posts[..n], start)| ensures InYear(posts[..n], start)[i].id != posts[n].id {
        assert InYear(posts[..n], start)[i] in posts[..n];
      }
    }
  }

  /** What one page settles: of the posts it reaches down to, exactly those in range
      are read. */
  lemma PageSettles(channel: map<PostId, Post>, posts: seq<Post>, start: Option<string>, before: Option<int>, id: PostId)
    requires Lists(channel, posts, before) && id in channel && InFront(id, before)
    requires posts != [] ==> Oldest(posts) <= id.number
    ensures channel[id] in InYear(posts, start) <==> InRange(start, channel[id])
    ensures posts != []
  {
    hide InRange, InYear;
    assert id in Ids(posts);
    var k :| 0 <= k < |posts| && posts[k].id == id;
    assert posts[k] == channel[id];
  }

  lemma PageIsAbove(channel: map<PostId, Post>, posts: seq<Post>, start: Option<string>, before: Option<int>)
    requires Lists(channel, posts, before)
    ensures DistinctIds(InYear(posts, start))
    ensures forall p :: p in InYear(posts, start) ==>
              p.id in channel && channel[p.id] == p && InFront(p.id, before) && Oldest(posts) <= p.id.number
  {
    InYearDistinct(posts, start);
    hide InRange, InYear, DistinctIds;
  }

  /** Nothing older than a post out of range is in range. */
  lemma NothingBeyond(channel: map<PostId, Post>, posts: seq<Post>, start: Option<string>, before: Option<int>, id: PostId)
    requires InOrder(channel) && Lists(channel, posts, before) && posts != [] && NextBefore(posts, start).None?
    requires id in channel && id.number < Oldest(posts)
    ensures !InRange(start, channel[id])
  {
    hide InRange, LexLe, DistinctIds, Ids;
    var i :| 0 <= i < |posts| && !InRange(start, posts[i]);
    if InRange(start, channel[id]) { LaterInRange(start, channel[id], posts[i]); }
  }

  /** Of the channel's posts in front of `before`, exactly those in range are read,
      each once. */
  ghost predicate ReadsExactly(channel: map<PostId, Post>, read: seq<Post>, start: Option<string>, before: Option<int>) {
    && DistinctIds(read)
    && (forall p :: p in read ==> p.id in channel && channel[p.id] == p && InFront(p.id, before))
    && (forall id :: id in channel && InFront(id, before) ==> (channel[id] in read <==> InRange(start, channel[id])))
  }

  lemma LastPage(channel: map<PostId, Post>, posts: seq<Post>, start: Option<string>, before: Option<int>)
    requires InOrder(channel) && Lists(channel, posts, before) && NextBefore(posts, start).None?
    ensures ReadsExactly(channel, InYear(posts, start), start, before)
  {
    hide InRange, InYear, DistinctIds, Lists, NextBefore, InOrder, LexLe, Oldest;
    PageIsAbove(channel, posts, start, before);
    forall id | id in channel && InFront(id, before)
      ensures channel[id] in InYear(posts, start) <==> InRange(start, channel[id])
    {
      if posts == [] || Oldest(posts) <= id.number {
        PageSettles(channel, posts, start, before, id);
      } else {
        BelowIsOut(channel, posts, start, before, id);
      }
    }
  }

  lemma BelowIsOut(channel: map<PostId, Post>, posts: seq<Post>, start: Option<string>, before: Option<int>, id: PostId)
    requires InOrder(channel) && Lists(channel, posts, before) && posts != [] && NextBefore(posts, start).None?
    requires id in channel && id.number < Oldest(posts)
    ensures channel[id] !in InYear(posts, start) && !InRange(start, channel[id])
  {
    NothingBeyond(channel, posts, start, before, id);
  }

  lemma PageThenRest(channel: map<PostId, Post>, posts: seq<Post>, start: Option<string>, before: Option<int>, rest: seq<Post>)
    requires Lists(channel, posts, before) && posts != [] && (before.Some? ==> Oldest(posts) < before.value)
    requires ReadsExactly(channel, rest, start, Some(Oldest(posts)))
    ensures ReadsExactly(channel, InYear(posts, start) + rest, start, before)
  {
    PageIsAbove(channel, posts, start, before);
    var (mine, oldest) := (InYear(posts, start), Oldest(posts));
    OlderAreOthers(mine, rest, oldest);
    hide InRange, InYear, DistinctIds, Oldest, ReadsExactly;
    forall id | id in channel && InFront(id, before) && oldest <= id.number
      ensures channel[id] in mine <==> InRange(start, channel[id])
    {
      PageSettles(channel, posts, start, before, id);
    }
    hide Lists;
    ReadTogether(channel, mine, rest, start, before, oldest);
  }

  lemma ReadTogether(channel: map<PostId, Post>, mine: seq<Post>, rest: seq<Post>, start: Option<string>, before: Option<int>,
                     oldest: int)
    requires DistinctIds(mine + rest) && ReadsExactly(channel, rest, start, Some(oldest))
    requires before.Some? ==> oldest < before.value
    requires forall p :: p in mine ==> p.id in channel && channel[p.id] == p && InFront(p.id, before) && oldest <= p.id.number
    requires forall id :: id in channel && InFront(id, before) && oldest <= id.number ==>
                            (channel[id] in mine <==> InRange(start, channel[id]))
    ensures ReadsExactly(channel, mine + rest, start, before)
  {
    hide InRange, DistinctIds;
  }

  /** On a still channel whose dates run with its numbers, the import of the archive
      ends, and reads exactly the posts of the year and after, each once. */
  lemma {:induction false} ArchiveReadsTheYear(channel: map<PostId, Post>, page: Option<int> -> seq<Post>,
                                               start: Option<string>, before: Option<int>)
    requires Honest(channel, page) && InOrder(channel)
    ensures ReadsExactly(channel, Imported(channel, page, start, before), start, before)
    decreases Rest(channel, before)
  {
    var posts := page(before);
    assert Lists(channel, posts, before);
    hide InRange, InYear, DistinctIds, ReadsExactly, InOrder;
    if NextBefore(posts, start).None? {
      LastPage(channel, posts, start, before);
    } else {
      PagesShrink(channel, posts, before);
      ArchiveReadsTheYear(channel, page, start, NextBefore(posts, start));
      var i :| 0 <= i < |posts| && posts[i].id.number == Oldest(posts);
      PageThenRest(channel, posts, start, before, Imported(channel, page, start, NextBefore(posts, start)));
    }
  }
}
