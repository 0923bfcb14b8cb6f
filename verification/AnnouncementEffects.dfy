/** What each action makes of an announcement, value by value: which come from the post,
    the picture copied or the form, which stay, and where the announcement then stands. */
module AnnouncementEffects {
  import opened Prelude
  import opened Announcement

  /** Nothing is missing for the site: a kind, a date, a time and a city. */
  predicate IsComplete(a: Announcement) {
    a.kind.Some? && a.fields.date.Some? && a.fields.time.Some? && a.fields.city.Some?
  }

  /** The problem names exactly the missing ones of date, time and city. */
  predicate NamesProblem(a: Announcement) {
    if a.fields.date.Some? && a.fields.time.Some? && a.fields.city.Some? then a.problem == None
    else
      && a.problem.Some?
      && (a.problem.value.noDate <==> a.fields.date.None?) && (a.problem.value.noTime <==> a.fields.time.None?)
      && (a.problem.value.noCity <==> a.fields.city.None?)
  }

  /** Where an announcement stands that was not hidden: on the site if complete, among the
      untagged ones without a kind, and else among the drafts. */
  predicate Stands(a: Announcement) {
    && NamesProblem(a)
    && a.status == (if IsComplete(a) then Published else if a.kind.None? then Untagged else Draft)
  }

  predicate StandsUnlessHidden(before: Announcement, a: Announcement) {
    if before.status == Hidden then a.status == Hidden && NamesProblem(a) else Stands(a)
  }

  /** A read takes everything from the post but what is set by hand. The picture is the one
      copied; without a copy it stays, unless the post has none. */
  lemma ReadShowsThePost(reading: Reading, a: Announcement, channel: string, post: Post, copied: Option<Picture>)
    ensures var b := ApplyPost(reading, Some(a), channel, post, copied);
            && b.channel == a.channel && b.id == a.id && b.edited == a.edited
            && b.text == post.text && b.postedAt == post.postedAt && b.registerUrl == reading.register(post.links)
            && (forall n :: Get(b.fields, n) == if Field(n) in a.edited then Get(a.fields, n)
                                                else Get(reading.parse(post.text), n))
            && b.kind == (if KindMark in a.edited then a.kind
                          else if reading.register(post.links).Some? then Some(reading.kindOf(post.text)) else None)
            && StandsUnlessHidden(a, b)
  {
    hide KeepEdited, Get;
  }

  /** The picture after a read. */
  lemma ReadShowsThePicture(reading: Reading, a: Announcement, channel: string, post: Post, copied: Option<Picture>)
    ensures var b := ApplyPost(reading, Some(a), channel, post, copied);
            && (copied.Some? ==> b.image == Some(copied.value.url) && b.imagePrint == copied.value.imagePrint)
            && (copied.None? && post.photo.None? ==> b.image.None? && b.imagePrint.None?)
            && (copied.None? && post.photo.Some? ==> b.image == a.image && b.imagePrint == a.imagePrint)
  {
    hide KeepEdited, MissingFields;
  }

  /** A new announcement has nothing of its own. */
  lemma NewShowsThePost(reading: Reading, channel: string, post: Post, copied: Option<Picture>)
    ensures var b := ApplyPost(reading, None, channel, post, copied);
            && b.channel == channel && b.id == post.id && b.edited == {}
            && b.text == post.text && b.postedAt == post.postedAt && b.registerUrl == reading.register(post.links)
            && (forall n :: Get(b.fields, n) == Get(reading.parse(post.text), n))
            && b.kind == (if reading.register(post.links).Some? then Some(reading.kindOf(post.text)) else None)
            && b.image == (if copied.Some? then Some(copied.value.url) else None)
            && b.imagePrint == (if copied.Some? then copied.value.imagePrint else None)
            && Stands(b)
  {
    hide KeepEdited, Get;
  }

  /** A saved form is what the announcement says, down to the last value. */
  lemma EditTakesTheForm(a: Announcement, kind: Option<Kind>, form: Fields)
    ensures var b := Edited(a, kind, form);
            && b.fields == form && b.kind == kind && StandsUnlessHidden(a, b)
            && b == a.(fields := b.fields, kind := b.kind, edited := b.edited, status := b.status, problem := b.problem)
  {
    hide Changed;
  }

  /** Showing puts a complete announcement back on the site, hidden or not; hiding and
      removing touch the status alone. */
  lemma ShownHiddenRemoved(a: Announcement)
    ensures Stands(Show(a)) && Show(a) == a.(status := Show(a).status, problem := Show(a).problem)
    ensures Hide(a).status == Hidden && Hide(a) == a.(status := Hide(a).status)
    ensures Remove(a).status == Removed && Remove(a) == a.(status := Remove(a).status)
  {}

  /** Hiding and then showing a sound announcement is as if nothing had happened. */
  lemma HideAndShow(a: Announcement)
    requires Stands(a)
    ensures Show(Hide(a)) == a
  {
    assert a.problem == MissingFields(a.fields) by { ProblemIsMissing(a); }
  }

  lemma ProblemIsMissing(a: Announcement)
    ensures NamesProblem(a) <==> a.problem == MissingFields(a.fields)
  {}

  /** An import without a kind is given the one its text speaks of, by hand; one with a kind
      stays. A draft from the archive waits untagged, everything else stays. */
  lemma FiledExactly(reading: Reading, a: Announcement)
    ensures var b := FileImported(reading, a);
            && (a.kind.Some? ==> b == a)
            && (a.kind.None? ==>
                  && b.kind == Some(reading.kindOf(a.text)) && b.edited == a.edited + {KindMark} && b.fields == a.fields
                  && StandsUnlessHidden(a, b)
                  && b == a.(kind := b.kind, edited := b.edited, status := b.status, problem := b.problem))
    ensures FileArchived(a) == a.(status := if a.status == Draft then Untagged else a.status)
  {}

  // ---- over a whole story --------------------------------------------------------------------------

  /** The picture of the last read that decided about it, by a copy or by a post without
      a photo. */
  function LastPicture(image: Option<string>, actions: seq<Action>): Option<string> {
    if actions == [] then image
    else
      var (before, last) := (LastPicture(image, actions[..|actions| - 1]), actions[|actions| - 1]);
      if last.Read? && last.image.Some? then Some(last.image.value.url)
      else if last.Read? && last.post.photo.None? then None
      else before
  }

  /** However its actions follow each other, an announcement keeps its number, shows the
      text, the date and the link of the last post read, and the last picture that a read
      decided on. */
  lemma {:induction false} EveryStoryShowsItsPost(reading: Reading, trim: string -> string, channel: string, post: Post,
                                                  image: Option<Picture>, actions: seq<Action>)
    ensures var (start, s) := (Begin(reading, channel, post, image), Tell(reading, trim, Begin(reading, channel, post, image), actions));
            && s.a.channel == channel && s.a.id == post.id
            && s.a.text == s.last.text && s.a.postedAt == s.last.postedAt
            && s.a.registerUrl == reading.register(s.last.links)
            && s.a.image == LastPicture(if image.Some? then Some(image.value.url) else None, actions)
    decreases |actions|
  {
    if actions == [] {
      NewShowsThePost(reading, channel, post, image);
      hide ApplyPost;
    } else {
      var n := |actions| - 1;
      EveryStoryShowsItsPost(reading, trim, channel, post, image, actions[..n]);
      var s := Tell(reading, trim, Begin(reading, channel, post, image), actions[..n]);
      NextShows(reading, trim, s, actions[n]);
      hide Next, Begin;
    }
  }

  lemma NextShows(reading: Reading, trim: string -> string, s: Story, action: Action)
    ensures var t := Next(reading, trim, s, action);
            && t.a.channel == s.a.channel && t.a.id == s.a.id
            && t.last == (if action.Read? then action.post else s.last)
            && t.a.text == (if action.Read? then action.post.text else s.a.text)
            && t.a.postedAt == (if action.Read? then action.post.postedAt else s.a.postedAt)
            && t.a.registerUrl == (if action.Read? then reading.register(action.post.links) else s.a.registerUrl)
            && (action.PrintIt? ==> t.a == s.a.(imagePrint := Some(action.imagePrint)))
            && t.a.image == (if action.Read? && action.image.Some? then Some(action.image.value.url)
                             else if action.Read? && action.post.photo.None? then None
                             else s.a.image)
  {
    match action {
      case Read(post, image) =>
        ReadShowsThePost(reading, s.a, s.a.channel, post, image);
        ReadShowsThePicture(reading, s.a, s.a.channel, post, image);
        hide ApplyPost;
      case Edit(kind, form) =>
        hide Normalized;
        if Normalized(trim, form).Ok? { EditTakesTheForm(s.a, kind, Normalized(trim, form).value); }
        hide Edited;
      case _ =>
        ShownHiddenRemoved(s.a);
        FiledExactly(reading, s.a);
        hide Show, FileImported, FileArchived;
    }
  }
}
