/** The pass that brings the stored announcements of a channel into step with its
    pages. */
module Reader {
  import opened Prelude
  import opened Announcement
  import opened AnnouncementEffects

  datatype Photo = Photo(bytes: string, mediaType: string, imagePrint: Option<string>)

  /** What the pass asks of the world: how a post is read, the picture a download
      yields, the media store's answer, the print of a stored picture, and when two
      prints are of one picture. */
  datatype World = World(
    reading: Reading,
    channel: string,
    download: Post -> Option<Photo>,
    keep: Photo -> Option<string>,
    printOf: string -> Option<string>,
    same: (string, string) -> bool)

  datatype Mode = Feed | Archive | Import

  datatype Report = Report(read: nat, created: nat, updated: nat, removed: nat, stored: nat, reused: nat,
                           nextBefore: Option<int>)

  const NO_REPORT := Report(0, 0, 0, 0, 0, 0, None)

  /** A pass under way: the announcements by post number, the pictures at hand, what
      it did, the pages that changed, the drafts and the deletions to mail about. */
  datatype Pass = Pass(known: map<PostId, Announcement>, pictures: seq<(string, string)>, report: Report,
                       touched: seq<PostId>, drafts: seq<Announcement>, gone: seq<Announcement>)

  function Lookup(known: map<PostId, Announcement>, id: PostId): Option<Announcement> {
    if id in known then Some(known[id]) else None
  }

  /** Stored as untagged, with no kind read and none set by hand, though its text marks
      it as an own event. */
  predicate Unfiled(reading: Reading, a: Announcement, post: Post) {
    a.status == Untagged && a.kind.None? && KindMark !in a.edited && IsOwnEvent(reading, post)
  }

  predicate Wants(reading: Reading, known: map<PostId, Announcement>, post: Post, mode: Mode) {
    if mode == Import then true
    else if post.id !in known then IsOwnEvent(reading, post)
    else
      var a := known[post.id];
      if mode == Archive then Unfiled(reading, a, post)
      else
        var asRead := a.status != Removed && a.text == post.text && (a.image.Some? || post.photo.None?);
        !asRead || Unfiled(reading, a, post)
  }

  function FindPicture(same: (string, string) -> bool, pictures: seq<(string, string)>, imagePrint: string): Option<string> {
    if pictures == [] then None
    else if same(pictures[0].0, imagePrint) then Some(pictures[0].1)
    else FindPicture(same, pictures[1..], imagePrint)
  }

  /** Copy the post's picture: reuse one already held, else store it. */
  function CopyPhoto(w: World, p: Pass, post: Post): (Pass, Option<Picture>) {
    if post.photo.None? then (p, None)
    else
      match w.download(post)
      case None => (p, None)
      case Some(photo) =>
        var held := if photo.imagePrint.Some? then FindPicture(w.same, p.pictures, photo.imagePrint.value) else None;
        if held.Some? then
          (p.(report := p.report.(reused := p.report.reused + 1)), Some(Picture(held.value, photo.imagePrint)))
        else
          match w.keep(photo)
          case None => (p, None)
          case Some(url) =>
            (p.(report := p.report.(stored := p.report.stored + 1),
                pictures := if photo.imagePrint.Some? then p.pictures + [(photo.imagePrint.value, url)] else p.pictures),
             Some(Picture(url, photo.imagePrint)))
  }

  function Filed(reading: Reading, a: Announcement, mode: Mode): Announcement {
    match mode
    case Feed => a
    case Archive => FileArchived(a)
    case Import => FileImported(reading, a)
  }

  /** Apply one post, if the pass wants it, and note what changed. */
  function ReadOne(w: World, p: Pass, post: Post, mode: Mode): Pass {
    if !Wants(w.reading, p.known, post, mode) then p
    else
      var existing := Lookup(p.known, post.id);
      var (q, image) := CopyPhoto(w, p, post);
      var a := Filed(w.reading, ApplyPost(w.reading, existing, w.channel, post, image), mode);
      var wasPublished := existing.Some? && existing.value.status == Published;
      var newDraft := a.status == Draft && (existing.None? || existing.value.status != Draft);
      q.(known := q.known[a.id := a],
         touched := if wasPublished || a.status == Published then q.touched + [a.id] else q.touched,
         drafts := if newDraft then q.drafts + [a] else q.drafts,
         report := if existing.Some? then q.report.(updated := q.report.updated + 1)
                   else q.report.(created := q.report.created + 1))
  }

  function ReadAll(w: World, p: Pass, posts: seq<Post>, mode: Mode): Pass
    decreases |posts|
  {
    if posts == [] then p else ReadOne(w, ReadAll(w, p, posts[..|posts| - 1], mode), posts[|posts| - 1], mode)
  }

  /** Every announcement is stored under its own number. */
  predicate Numbered(known: map<PostId, Announcement>) { forall id :: id in known ==> known[id].id == id }

  function WithPrint(w: World, a: Announcement): Announcement {
    if a.image.Some? && a.imagePrint.None? then a.(imagePrint := w.printOf(a.image.value)) else a
  }

  function WithPrints(w: World, known: map<PostId, Announcement>): map<PostId, Announcement> {
    map id | id in known :: WithPrint(w, known[id])
  }

  function Ids(posts: seq<Post>): set<PostId> { set i | 0 <= i < |posts| :: posts[i].id }

  predicate DistinctIds(posts: seq<Post>) { forall i, j :: 0 <= i < j < |posts| ==> posts[i].id != posts[j].id }

  // ---- what reading does ------------------------------------------------------------

  lemma CopyTouchesNoAnnouncement(w: World, p: Pass, post: Post)
    ensures var q := CopyPhoto(w, p, post).0;
            && q.known == p.known && q.touched == p.touched && q.drafts == p.drafts && q.gone == p.gone
            && q.report.created == p.report.created && q.report.updated == p.report.updated
            && q.report.removed == p.report.removed && q.report.read == p.report.read
  {}

  lemma AppliedId(reading: Reading, existing: Option<Announcement>, channel: string, post: Post, image: Option<Picture>,
                  mode: Mode)
    requires existing.Some? ==> existing.value.id == post.id
    ensures var a := Filed(reading, ApplyPost(reading, existing, channel, post, image), mode);
            a.id == post.id && a.status != Removed && a.text == post.text && !Unfiled(reading, a, post)
  {
    hide KeepEdited, MissingFields;
  }

  /** What copying the post's photo yields: nothing without a photo or a download, a
      picture under the download's print whenever the store takes it. */
  ghost predicate Copied(w: World, post: Post, image: Option<Picture>) {
    if post.photo.None? || w.download(post).None? then image.None?
    else
      var photo := w.download(post).value;
      && (w.keep(photo).Some? ==> image.Some?)
      && (image.Some? ==> image.value.imagePrint == photo.imagePrint)
      && (photo.imagePrint.None? && image.Some? ==> w.keep(photo) == Some(image.value.url))
  }

  /** The first picture at hand with this print. */
  ghost predicate FirstSame(w: World, pictures: seq<(string, string)>, imagePrint: string, k: nat) {
    && k < |pictures| && w.same(pictures[k].0, imagePrint)
    && forall j :: 0 <= j < k ==> !w.same(pictures[j].0, imagePrint)
  }

  lemma {:induction false} FindsTheFirst(w: World, pictures: seq<(string, string)>, imagePrint: string)
    ensures match FindPicture(w.same, pictures, imagePrint)
            case None => forall k :: 0 <= k < |pictures| ==> !w.same(pictures[k].0, imagePrint)
            case Some(url) => exists k: nat :: FirstSame(w, pictures, imagePrint, k) && pictures[k].1 == url
  {
    if pictures != [] {
      if w.same(pictures[0].0, imagePrint) {
        assert FirstSame(w, pictures, imagePrint, 0);
      } else {
        FindsTheFirst(w, pictures[1..], imagePrint);
        var found := FindPicture(w.same, pictures[1..], imagePrint);
        if found.Some? {
          var k: nat :| FirstSame(w, pictures[1..], imagePrint, k) && pictures[1..][k].1 == found.value;
          assert FirstSame(w, pictures, imagePrint, k + 1);
        }
      }
    }
  }

  /** A downloaded photo is the first picture at hand with its print, or else what the store
      makes of it, which is then at hand as well; and the report counts it. */
  lemma CopiedExactly(w: World, p: Pass, post: Post)
    ensures var (q, image) := CopyPhoto(w, p, post);
            && Copied(w, post, image)
            && (image.None? ==> q == p)
            && (image.Some? ==>
                  var photo := w.download(post).value;
                  if photo.imagePrint.Some? && exists k: nat :: FirstSame(w, p.pictures, photo.imagePrint.value, k)
                  then
                    && (exists k: nat :: FirstSame(w, p.pictures, photo.imagePrint.value, k) && image.value.url == p.pictures[k].1)
                    && q == p.(report := p.report.(reused := p.report.reused + 1))
                  else
                    && w.keep(photo) == Some(image.value.url)
                    && q == p.(report := p.report.(stored := p.report.stored + 1),
                               pictures := p.pictures + if photo.imagePrint.Some?
                                                        then [(photo.imagePrint.value, image.value.url)] else []))
  {
    if post.photo.Some? && w.download(post).Some? {
      var photo := w.download(post).value;
      if photo.imagePrint.Some? { FindsTheFirst(w, p.pictures, photo.imagePrint.value); }
      hide FindPicture;
      assert p.pictures + [] == p.pictures;
    }
  }

  /** What the feed leaves of one listed post. */
  ghost predicate Applied(w: World, before: map<PostId, Announcement>, after: map<PostId, Announcement>, post: Post) {
    if Wants(w.reading, before, post, Feed) then
      && post.id in after
      && exists image ::
           Copied(w, post, image) && after[post.id] == ApplyPost(w.reading, Lookup(before, post.id), w.channel, post, image)
    else Lookup(after, post.id) == Lookup(before, post.id)
  }

  lemma ReadOneFeed(w: World, p: Pass, post: Post)
    requires Numbered(p.known)
    ensures var q := ReadOne(w, p, post, Feed);
            && Numbered(q.known) && Applied(w, p.known, q.known, post)
            && (forall id :: id != post.id ==> Lookup(q.known, id) == Lookup(p.known, id))
            && q.gone == p.gone && q.report.removed == p.report.removed
            && q.report.created == p.report.created + (if Wants(w.reading, p.known, post, Feed) && post.id !in p.known then 1 else 0)
            && q.report.updated == p.report.updated + (if Wants(w.reading, p.known, post, Feed) && post.id in p.known then 1 else 0)
  {
    var image := CopyPhoto(w, p, post).1;
    CopyTouchesNoAnnouncement(w, p, post);
    AppliedId(w.reading, Lookup(p.known, post.id), w.channel, post, image, Feed);
    CopiedExactly(w, p, post);
    hide ApplyPost, CopyPhoto, Wants, Copied;
  }

  function CountNew(w: World, known: map<PostId, Announcement>, posts: seq<Post>): nat {
    if posts == [] then 0
    else
      var post := posts[|posts| - 1];
      CountNew(w, known, posts[..|posts| - 1])
      + (if Wants(w.reading, known, post, Feed) && post.id !in known then 1 else 0)
  }

  function CountChanged(w: World, known: map<PostId, Announcement>, posts: seq<Post>): nat {
    if posts == [] then 0
    else
      var post := posts[|posts| - 1];
      CountChanged(w, known, posts[..|posts| - 1])
      + (if Wants(w.reading, known, post, Feed) && post.id in known then 1 else 0)
  }

  lemma WantsLocal(reading: Reading, a: map<PostId, Announcement>, b: map<PostId, Announcement>, post: Post)
    requires Lookup(a, post.id) == Lookup(b, post.id)
    ensures Wants(reading, a, post, Feed) == Wants(reading, b, post, Feed)
  {}

  lemma AppliedLocal(w: World, before: map<PostId, Announcement>, before': map<PostId, Announcement>, after: map<PostId, Announcement>,
                     after': map<PostId, Announcement>, post: Post)
    requires Applied(w, before, after, post)
    requires Lookup(before, post.id) == Lookup(before', post.id) && Lookup(after, post.id) == Lookup(after', post.id)
    ensures Applied(w, before', after', post)
  {
    WantsLocal(w.reading, before, before', post);
    hide ApplyPost, Wants;
  }

  /** Posts with distinct numbers do not meet: each leaves what it would alone. */
  lemma {:induction false} ReadAllFeed(w: World, p: Pass, posts: seq<Post>)
    requires Numbered(p.known) && DistinctIds(posts)
    ensures var q := ReadAll(w, p, posts, Feed);
            && Numbered(q.known)
            && (forall i :: 0 <= i < |posts| ==> Applied(w, p.known, q.known, posts[i]))
            && (forall id :: id !in Ids(posts) ==> Lookup(q.known, id) == Lookup(p.known, id))
            && q.gone == p.gone && q.report.removed == p.report.removed
            && q.report.created == p.report.created + CountNew(w, p.known, posts)
            && q.report.updated == p.report.updated + CountChanged(w, p.known, posts)
    decreases |posts|
  {
    if posts != [] {
      var n := |posts| - 1;
      var rest, post := posts[..n], posts[n];
      ReadAllFeed(w, p, rest);
      var m := ReadAll(w, p, rest, Feed);
      ReadOneFeed(w, m, post);
      hide ReadOne, Applied, Wants;
      IdsOfLast(posts, rest);
      WantsLocal(w.reading, p.known, m.known, post);
      OneMorePost(w, p.known, m.known, ReadOne(w, m, post, Feed).known, posts, rest);
      hide Ids, Numbered;
    }
  }

  lemma IdsOfLast(posts: seq<Post>, rest: seq<Post>)
    requires posts != [] && DistinctIds(posts) && rest == posts[..|posts| - 1]
    ensures posts[|posts| - 1].id !in Ids(rest) && Ids(posts) == Ids(rest) + {posts[|posts| - 1].id}
  {
    var n := |posts| - 1;
    forall id ensures id in Ids(posts) <==> id in Ids(rest) || id == posts[n].id {
      if id in Ids(rest) {
        var i :| 0 <= i < n && rest[i].id == id;
        assert posts[i].id in Ids(posts);
      }
      if id in Ids(posts) && id != posts[n].id {
        var i :| 0 <= i < |posts| && posts[i].id == id;
        assert rest[i].id in Ids(rest);
      }
    }
  }

  lemma OneMorePost(w: World, before: map<PostId, Announcement>, middle: map<PostId, Announcement>,
                    after: map<PostId, Announcement>, posts: seq<Post>, rest: seq<Post>)
    requires posts != [] && DistinctIds(posts) && rest == posts[..|posts| - 1]
    requires forall i :: 0 <= i < |rest| ==> Applied(w, before, middle, rest[i])
    requires forall id :: id !in Ids(rest) ==> Lookup(middle, id) == Lookup(before, id)
    requires Applied(w, middle, after, posts[|posts| - 1])
    requires forall id :: id != posts[|posts| - 1].id ==> Lookup(after, id) == Lookup(middle, id)
    ensures forall i :: 0 <= i < |posts| ==> Applied(w, before, after, posts[i])
    ensures forall id :: id !in Ids(posts) ==> Lookup(after, id) == Lookup(before, id)
  {
    hide Applied;
    var post := posts[|posts| - 1];
    IdsOfLast(posts, rest);
    AppliedLocal(w, middle, before, after, after, post);
    forall i | 0 <= i < |rest| ensures Applied(w, before, after, posts[i]) {
      assert rest[i] == posts[i];
      AppliedLocal(w, before, before, middle, after, posts[i]);
    }
  }

  // ---- what a sync guarantees --------------------------------------------------------------

  /** Some listed post is at or below the number and some at or above it. */
  predicate IsCovered(posts: seq<Post>, id: PostId) {
    && (exists i :: 0 <= i < |posts| && posts[i].id.number <= id.number)
    && (exists j :: 0 <= j < |posts| && id.number <= posts[j].id.number)
  }

  /** What the pages no longer list, within what they cover. */
  function Deleted(known: map<PostId, Announcement>, posts: seq<Post>): set<PostId> {
    set id | id in known && IsCovered(posts, id) && id !in Ids(posts) && known[id].status != Removed
  }

  /** The store after a sync: a listed post left its announcement, an unlisted one
      within the covered part was taken down, everything else is untouched. */
  ghost predicate Synced(w: World, before: map<PostId, Announcement>, posts: seq<Post>, after: map<PostId, Announcement>) {
    && (forall i :: 0 <= i < |posts| ==> Applied(w, before, after, posts[i]))
    && (forall id :: id !in Ids(posts) ==>
          Lookup(after, id) == if id in Deleted(before, posts) then Some(Remove(before[id])) else Lookup(before, id))
  }

  /** The announcements with those no longer listed marked as removed. */
  function TakenDown(known: map<PostId, Announcement>, posts: seq<Post>): map<PostId, Announcement> {
    var deleted := Deleted(known, posts);
    map id | id in known :: if id in deleted then Remove(known[id]) else known[id]
  }

  lemma {:induction false} ReadAllNumbered(w: World, p: Pass, posts: seq<Post>)
    requires Numbered(p.known)
    ensures var q := ReadAll(w, p, posts, Feed); Numbered(q.known) && q.gone == p.gone
    decreases |posts|
  {
    hide ReadOne, Applied;
    if posts != [] {
      var n := |posts| - 1;
      ReadAllNumbered(w, p, posts[..n]);
      ReadOneFeed(w, ReadAll(w, p, posts[..n], Feed), posts[n]);
    }
  }

  lemma SameDeleted(w: World, before: map<PostId, Announcement>, posts: seq<Post>, middle: map<PostId, Announcement>)
    requires forall id :: id !in Ids(posts) ==> Lookup(middle, id) == Lookup(before, id)
    ensures Deleted(middle, posts) == Deleted(before, posts)
  {
    hide IsCovered, Ids;
    forall id ensures id in Deleted(middle, posts) <==> id in Deleted(before, posts) {
      if id !in Ids(posts) { assert Lookup(middle, id) == Lookup(before, id); }
    }
  }

  lemma SyncedAfter(w: World, before: map<PostId, Announcement>, posts: seq<Post>, middle: map<PostId, Announcement>,
                    after: map<PostId, Announcement>)
    requires forall i :: 0 <= i < |posts| ==> Applied(w, before, middle, posts[i])
    requires forall id :: id !in Ids(posts) ==> Lookup(middle, id) == Lookup(before, id)
    requires after.Keys == middle.Keys
    requires forall id :: id in after ==>
               after[id] == if id in Deleted(before, posts) then Remove(middle[id]) else middle[id]
    ensures Synced(w, before, posts, after)
  {
    hide Applied;
    forall i | 0 <= i < |posts| ensures Applied(w, before, after, posts[i]) {
      assert posts[i].id in Ids(posts);
      AppliedLocal(w, before, before, middle, after, posts[i]);
    }
  }

  lemma AppliedIsThere(w: World, before: map<PostId, Announcement>, after: map<PostId, Announcement>, post: Post)
    requires Applied(w, before, after, post) && Numbered(before)
    ensures post.id in after ==> after[post.id].status != Removed && after[post.id].id == post.id
    ensures post.id in after ==> after[post.id].text == post.text && !Unfiled(w.reading, after[post.id], post)
    ensures post.id in before || IsOwnEvent(w.reading, post) <==> post.id in after
  {
    if Wants(w.reading, before, post, Feed) {
      var image :| Copied(w, post, image)
                   && after[post.id] == ApplyPost(w.reading, Lookup(before, post.id), w.channel, post, image);
      AppliedId(w.reading, Lookup(before, post.id), w.channel, post, image, Feed);
    }
  }

  /** After a sync an announcement within the covered part is removed exactly when
      the pages do not list its post; outside that part nothing changed; every
      listed own event is there. */
  lemma RemovedExactlyUnlisted(w: World, before: map<PostId, Announcement>, posts: seq<Post>, after: map<PostId, Announcement>)
    requires Synced(w, before, posts, after) && Numbered(before)
    ensures forall id :: id in after && IsCovered(posts, id) ==> (after[id].status == Removed <==> id !in Ids(posts))
    ensures forall id :: !IsCovered(posts, id) ==> Lookup(after, id) == Lookup(before, id)
    ensures forall i :: 0 <= i < |posts| && IsOwnEvent(w.reading, posts[i]) ==> posts[i].id in after
    ensures forall id :: id in before ==> id in after
  {
    hide Applied;
    forall i | 0 <= i < |posts|
      ensures posts[i].id in after ==> after[posts[i].id].status != Removed
      ensures IsOwnEvent(w.reading, posts[i]) || posts[i].id in before ==> posts[i].id in after
    {
      AppliedIsThere(w, before, after, posts[i]);
    }
    forall id ensures !IsCovered(posts, id) ==> id !in Ids(posts) {
      if id in Ids(posts) {
        var i :| 0 <= i < |posts| && posts[i].id == id;
      }
    }
    forall id | id !in Ids(posts)
      ensures Lookup(after, id) == if id in Deleted(before, posts) then Some(Remove(before[id])) else Lookup(before, id)
    {}
  }

  /** A wanted post with its photo downloaded and stored left its announcement with that
      picture's print; one without a photo left none; and where the download failed, the
      announcement has the picture it had. */
  ghost predicate PictureFollows(w: World, before: map<PostId, Announcement>, post: Post, a: Announcement) {
    if post.photo.None? then a.image.None? && a.imagePrint.None?
    else
      var had := Lookup(before, post.id);
      match w.download(post)
      case None => a.image == (if had.Some? then had.value.image else None)
                   && a.imagePrint == if had.Some? then had.value.imagePrint else None
      case Some(photo) =>
        && (w.keep(photo).Some? ==> a.image.Some? && a.imagePrint == photo.imagePrint)
        && (a.image.Some? ==>
              a.imagePrint == photo.imagePrint
              || (had.Some? && a.image == had.value.image && a.imagePrint == had.value.imagePrint))
  }

  /** After a sync every post that was wanted shows in its announcement: text, date, link,
      and the picture, as far as it could be had. */
  lemma SyncShowsThePosts(w: World, before: map<PostId, Announcement>, posts: seq<Post>, after: map<PostId, Announcement>)
    requires Synced(w, before, posts, after)
    ensures forall i :: 0 <= i < |posts| && Wants(w.reading, before, posts[i], Feed) ==>
              && posts[i].id in after
              && var a := after[posts[i].id];
                 && a.text == posts[i].text && a.postedAt == posts[i].postedAt
                 && a.registerUrl == w.reading.register(posts[i].links)
                 && PictureFollows(w, before, posts[i], a)
  {
    hide Wants, Copied, ApplyPost;
    forall i | 0 <= i < |posts| && Wants(w.reading, before, posts[i], Feed)
      ensures posts[i].id in after
      ensures var a := after[posts[i].id];
              && a.text == posts[i].text && a.postedAt == posts[i].postedAt
              && a.registerUrl == w.reading.register(posts[i].links)
              && PictureFollows(w, before, posts[i], a)
    {
      assert Applied(w, before, after, posts[i]);
      var image :| Copied(w, posts[i], image)
                   && after[posts[i].id] == ApplyPost(w.reading, Lookup(before, posts[i].id), w.channel, posts[i], image);
      OneShown(w, before, posts[i], image);
    }
  }

  lemma OneShown(w: World, before: map<PostId, Announcement>, post: Post, image: Option<Picture>)
    requires Copied(w, post, image)
    ensures var a := ApplyPost(w.reading, Lookup(before, post.id), w.channel, post, image);
            && a.text == post.text && a.postedAt == post.postedAt && a.registerUrl == w.reading.register(post.links)
            && PictureFollows(w, before, post, a)
  {
    var had := Lookup(before, post.id);
    if had.Some? {
      ReadShowsThePost(w.reading, had.value, w.channel, post, image);
      ReadShowsThePicture(w.reading, had.value, w.channel, post, image);
    } else {
      NewShowsThePost(w.reading, w.channel, post, image);
    }
    hide ApplyPost;
  }

  /** Every photo of the posts could be downloaded and stored. */
  ghost predicate AllToBeHad(w: World, posts: seq<Post>) {
    forall i :: 0 <= i < |posts| && posts[i].photo.Some? ==>
                  w.download(posts[i]).Some? && w.keep(w.download(posts[i]).value).Some?
  }

  /** If every photo can be had, a sync leaves every listed announcement with its picture. */
  lemma SyncCopiesThePictures(w: World, before: map<PostId, Announcement>, posts: seq<Post>, after: map<PostId, Announcement>)
    requires Synced(w, before, posts, after) && AllToBeHad(w, posts)
    ensures PicturesCopied(after, posts)
  {
    SyncShowsThePosts(w, before, posts, after);
    hide ApplyPost, Copied;
    forall i | 0 <= i < |posts| && posts[i].id in after && posts[i].photo.Some? ensures after[posts[i].id].image.Some? {
      assert Applied(w, before, after, posts[i]);
      if !Wants(w.reading, before, posts[i], Feed) { assert Lookup(after, posts[i].id) == Lookup(before, posts[i].id); }
    }
  }

  ghost predicate PicturesCopied(known: map<PostId, Announcement>, posts: seq<Post>) {
    forall i :: 0 <= i < |posts| && posts[i].id in known && posts[i].photo.Some? ==> known[posts[i].id].image.Some?
  }

  /** A second sync over the same posts, all pictures copied, wants no post and
      removes nothing: it creates, updates and removes nothing. */
  lemma SecondSyncIsIdle(w: World, before: map<PostId, Announcement>, posts: seq<Post>, after: map<PostId, Announcement>, w': World)
    requires Synced(w, before, posts, after) && Numbered(before) && PicturesCopied(after, posts)
    requires w'.reading.register == w.reading.register
    ensures var known := WithPrints(w', after);
            && CountNew(w', known, posts) == 0 && CountChanged(w', known, posts) == 0 && Deleted(known, posts) == {}
            && forall again :: Synced(w', known, posts, again) ==> again == known
  {
    var known := WithPrints(w', after);
    forall i | 0 <= i < |posts| ensures !Wants(w'.reading, known, posts[i], Feed) {
      AppliedIsThere(w, before, after, posts[i]);
    }
    NothingWanted(w', known, posts);
    RemovedExactlyUnlisted(w, before, posts, after);
    hide Wants;
    assert Deleted(known, posts) == {} by {
      hide IsCovered, Ids;
      forall id ensures id !in Deleted(known, posts) {}
    }
    forall again | Synced(w', known, posts, again) ensures again == known {
      forall id ensures Lookup(again, id) == Lookup(known, id) {
        if i :| 0 <= i < |posts| && posts[i].id == id {
          assert Applied(w', known, again, posts[i]);
        }
      }
      SameMap(again, known);
    }
  }

  lemma SameMap(a: map<PostId, Announcement>, b: map<PostId, Announcement>)
    requires forall id :: Lookup(a, id) == Lookup(b, id)
    ensures a == b
  {
    forall id ensures id in a <==> id in b { assert Lookup(a, id) == Lookup(b, id); }
    forall id | id in a ensures a[id] == b[id] { assert Lookup(a, id) == Lookup(b, id); }
  }

  lemma {:induction false} NothingWanted(w: World, known: map<PostId, Announcement>, posts: seq<Post>)
    requires forall i :: 0 <= i < |posts| ==> !Wants(w.reading, known, posts[i], Feed)
    ensures CountNew(w, known, posts) == 0 && CountChanged(w, known, posts) == 0
  {
    hide Wants;
    if posts != [] { NothingWanted(w, known, posts[..|posts| - 1]); }
  }

  // ---- the archive and single imports ---------------------------------------------------

  /** The archive touches only what is stored unfiled, and makes no drafts. */
  ghost predicate ArchiveKept(before: map<PostId, Announcement>, after: map<PostId, Announcement>) {
    && (forall id :: id in before ==>
          id in after && (after[id] == before[id] || (before[id].status == Untagged && before[id].kind.None?)))
    && (forall id :: id in after && after[id].status == Draft ==> id in before && before[id].status == Draft)
  }

  lemma ArchiveOne(w: World, p: Pass, post: Post)
    requires Numbered(p.known)
    ensures var q := ReadOne(w, p, post, Archive);
            && Numbered(q.known) && ArchiveKept(p.known, q.known) && q.drafts == p.drafts
  {
    CopyTouchesNoAnnouncement(w, p, post);
    AppliedId(w.reading, Lookup(p.known, post.id), w.channel, post, CopyPhoto(w, p, post).1, Archive);
    hide ApplyPost, CopyPhoto, IsOwnEvent, ArchiveKept, Unfiled;
    var q := ReadOne(w, p, post, Archive);
    assert q.known == p.known || (post.id in q.known && q.known == p.known[post.id := q.known[post.id]]);
    assert q.known != p.known ==> post.id in q.known && q.known[post.id].status != Draft;
    assert q.known != p.known && post.id in p.known ==> Unfiled(w.reading, p.known[post.id], post);
    hide ReadOne, Numbered;
    OneFiled(w, p.known, q.known, post);
  }

  lemma OneFiled(w: World, before: map<PostId, Announcement>, after: map<PostId, Announcement>, post: Post)
    requires after == before || (post.id in after && after == before[post.id := after[post.id]])
    requires after != before ==> after[post.id].status != Draft
    requires after != before && post.id in before ==> Unfiled(w.reading, before[post.id], post)
    ensures ArchiveKept(before, after)
  {}

  /** Importing a page of the archive leaves alone what is on the site, hidden or
      drafted, and turns nothing into a draft for the admin to chase. */
  lemma {:induction false} ArchiveLeavesTheSiteAlone(w: World, p: Pass, posts: seq<Post>)
    requires Numbered(p.known)
    ensures var q := ReadAll(w, p, posts, Archive);
            && Numbered(q.known) && ArchiveKept(p.known, q.known) && q.drafts == p.drafts
    decreases |posts|
  {
    if posts != [] {
      var n := |posts| - 1;
      ArchiveLeavesTheSiteAlone(w, p, posts[..n]);
      var m := ReadAll(w, p, posts[..n], Archive);
      ArchiveOne(w, m, posts[n]);
      hide ReadOne, Numbered;
      KeptTwice(p.known, m.known, ReadOne(w, m, posts[n], Archive).known);
    }
  }

  lemma KeptTwice(a: map<PostId, Announcement>, b: map<PostId, Announcement>, c: map<PostId, Announcement>)
    requires ArchiveKept(a, b) && ArchiveKept(b, c)
    ensures ArchiveKept(a, c)
  {}

  /** A post imported by its link is filed under a kind, and a later feed keeps it:
      unless its post text or picture changes, the feed no longer wants it. */
  lemma ImportFiles(w: World, p: Pass, post: Post)
    requires Numbered(p.known)
    ensures var q := ReadOne(w, p, post, Import);
            && post.id in q.known && q.known[post.id].kind.Some? && q.known[post.id].text == post.text
            && (q.known[post.id].image.Some? || post.photo.None? ==> !Wants(w.reading, q.known, post, Feed))
  {
    CopyTouchesNoAnnouncement(w, p, post);
    AppliedId(w.reading, Lookup(p.known, post.id), w.channel, post, CopyPhoto(w, p, post).1, Import);
    hide ApplyPost, CopyPhoto;
  }

  /** Loading fills in a missing print of a picture and nothing else. */
  lemma PrintFilled(w: World, a: Announcement)
    ensures var b := WithPrint(w, a);
            && b == a.(imagePrint := b.imagePrint)
            && b.imagePrint == if a.imagePrint.Some? || a.image.None? then a.imagePrint else w.printOf(a.image.value)
  {}

  // ---- what a pass notes ------------------------------------------------------------------

  /** Reading one post notes its page if it was or is on the site, and the announcement if it
      has become a draft; a post not wanted leaves the pass as it was. */
  lemma NotesExactly(w: World, p: Pass, post: Post, mode: Mode)
    requires Numbered(p.known)
    ensures var q := ReadOne(w, p, post, mode);
            && (!Wants(w.reading, p.known, post, mode) ==> q == p)
            && (Wants(w.reading, p.known, post, mode) ==>
                  && post.id in q.known
                  && var onSite := (post.id in p.known && p.known[post.id].status == Published) || q.known[post.id].status == Published;
                     var drafted := q.known[post.id].status == Draft && (post.id in p.known ==> p.known[post.id].status != Draft);
                     && q.touched == (if onSite then p.touched + [post.id] else p.touched)
                     && q.drafts == (if drafted then p.drafts + [q.known[post.id]] else p.drafts)
                     && q.gone == p.gone)
  {
    CopyTouchesNoAnnouncement(w, p, post);
    AppliedId(w.reading, Lookup(p.known, post.id), w.channel, post, CopyPhoto(w, p, post).1, mode);
    hide ApplyPost, CopyPhoto, Wants, Filed;
  }

  /** What the feed wants: an own event it does not know; of those it knows one whose text
      changed, whose picture is missing, whose announcement was removed, or that became an own
      event. */
  lemma WantsExactly(reading: Reading, known: map<PostId, Announcement>, post: Post)
    ensures post.id !in known ==> (Wants(reading, known, post, Feed) <==> reading.register(post.links).Some?)
    ensures post.id in known ==>
              var a := known[post.id];
              Wants(reading, known, post, Feed) <==>
                || a.text != post.text || a.status == Removed || (a.image.None? && post.photo.Some?)
                || (a.status == Untagged && a.kind.None? && KindMark !in a.edited && reading.register(post.links).Some?)
    ensures Wants(reading, known, post, Archive) <==>
              && reading.register(post.links).Some?
              && (post.id in known ==>
                    known[post.id].status == Untagged && known[post.id].kind.None? && KindMark !in known[post.id].edited)
  {}

  /** An own event read from the archive is stored, with its text, unless it was stored filed
      already. */
  lemma {:induction false} ArchiveStores(w: World, p: Pass, posts: seq<Post>, i: nat)
    requires Numbered(p.known) && DistinctIds(posts) && i < |posts| && w.reading.register(posts[i].links).Some?
    ensures StoredFrom(p, ReadAll(w, p, posts, Archive), posts[i])
    decreases |posts|
  {
    hide ReadOne, StoredFrom;
    var n := |posts| - 1;
    var m := ReadAll(w, p, posts[..n], Archive);
    ArchiveLeavesTheSiteAlone(w, p, posts[..n]);
    hide ArchiveKept;
    if i < n {
      ArchiveStores(w, p, posts[..n], i);
      OtherStays(w, m, posts[n], posts[i].id);
      StillStored(p, m, ReadOne(w, m, posts[n], Archive), posts[i]);
    } else {
      UnreadStays(w, p, posts[..n], posts[n].id);
      OneStored(w, p, m, posts[n]);
    }
  }

  /** The post has an announcement; if it had none before, one with its text that is no draft. */
  ghost predicate StoredFrom(p: Pass, q: Pass, post: Post) {
    && post.id in q.known
    && (post.id !in p.known ==> q.known[post.id].text == post.text && q.known[post.id].status != Draft)
  }

  lemma StillStored(p: Pass, m: Pass, q: Pass, post: Post)
    requires StoredFrom(p, m, post) && Lookup(q.known, post.id) == Lookup(m.known, post.id)
    ensures StoredFrom(p, q, post)
  {}

  lemma OneStored(w: World, p: Pass, m: Pass, post: Post)
    requires Numbered(m.known) && w.reading.register(post.links).Some? && Lookup(m.known, post.id) == Lookup(p.known, post.id)
    ensures StoredFrom(p, ReadOne(w, m, post, Archive), post)
  {
    CopyTouchesNoAnnouncement(w, m, post);
    AppliedId(w.reading, Lookup(m.known, post.id), w.channel, post, CopyPhoto(w, m, post).1, Archive);
    WantsExactly(w.reading, m.known, post);
    hide CopyPhoto, ApplyPost, Wants;
  }

  lemma OtherStays(w: World, p: Pass, post: Post, id: PostId)
    requires Numbered(p.known) && id != post.id
    ensures Lookup(ReadOne(w, p, post, Archive).known, id) == Lookup(p.known, id)
  {
    CopyTouchesNoAnnouncement(w, p, post);
    AppliedId(w.reading, Lookup(p.known, post.id), w.channel, post, CopyPhoto(w, p, post).1, Archive);
    hide ApplyPost, CopyPhoto, Wants;
  }

  lemma {:induction false} UnreadStays(w: World, p: Pass, posts: seq<Post>, id: PostId)
    requires Numbered(p.known) && forall j :: 0 <= j < |posts| ==> posts[j].id != id
    ensures Lookup(ReadAll(w, p, posts, Archive).known, id) == Lookup(p.known, id)
    decreases |posts|
  {
    hide ReadOne;
    if posts != [] {
      var n := |posts| - 1;
      UnreadStays(w, p, posts[..n], id);
      ArchiveLeavesTheSiteAlone(w, p, posts[..n]);
      OtherStays(w, ReadAll(w, p, posts[..n], Archive), posts[n], id);
    }
  }
}
