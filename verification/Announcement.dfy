/** One announcement of the events page: what re-reads of its post, the admin's hand
    edits, hiding, showing, removal and imports make of it. */
module Announcement {
  import opened Prelude
  import opened Calendar
  import opened Schedule

  datatype Kind = Hiking | GroupQuest

  datatype Status = Published | Draft | Hidden | Untagged | Removed

  /** What an announcement says: the title and thirteen optional values. */
  datatype Fields = Fields(
    title: string, date: Option<string>, time: Option<string>, city: Option<string>, place: Option<string>,
    distance: Option<string>, duration: Option<string>, route: Option<string>, difficulty: Option<string>,
    guide: Option<string>, price: Option<string>, expenses: Option<string>, bring: Option<string>,
    description: Option<string>)

  datatype Name =
    | Title | Date | Time | City | Place | Distance | Duration | Route | Difficulty | Guide | Price | Expenses
    | Bring | Description

  /** What the admin may set by hand. */
  datatype Mark = Field(name: Name) | KindMark

  function Get(f: Fields, n: Name): Option<string> {
    match n
    case Title => Some(f.title)
    case Date => f.date
    case Time => f.time
    case City => f.city
    case Place => f.place
    case Distance => f.distance
    case Duration => f.duration
    case Route => f.route
    case Difficulty => f.difficulty
    case Guide => f.guide
    case Price => f.price
    case Expenses => f.expenses
    case Bring => f.bring
    case Description => f.description
  }

  datatype Picture = Picture(url: string, imagePrint: Option<string>)

  /** A post's number in its channel. */
  datatype PostId = PostId(number: int)

  datatype Post = Post(id: PostId, postedAt: string, text: string, links: seq<string>, photo: Option<string>)

  /** How a post's text is read: the template parser over a fixed list of cities,
      the kind a text speaks of, and the registration link among the links. */
  datatype Reading = Reading(parse: string -> Fields, kindOf: string -> Kind, register: seq<string> -> Option<string>)

  datatype Problem = Problem(noDate: bool, noTime: bool, noCity: bool)

  datatype Announcement = Announcement(
    channel: string, id: PostId, status: Status, kind: Option<Kind>, fields: Fields, edited: set<Mark>,
    image: Option<string>, imagePrint: Option<string>, registerUrl: Option<string>, text: string, postedAt: string,
    problem: Option<Problem>)

  // ---- the steps ---------------------------------------------------------------------

  function Pick<T>(edited: set<Mark>, n: Name, mine: T, read: T): T { if Field(n) in edited then mine else read }

  /** Every value as read except those set by hand. */
  function KeepEdited(mine: Fields, read: Fields, edited: set<Mark>): (f: Fields)
    ensures forall n :: Get(f, n) == if Field(n) in edited then Get(mine, n) else Get(read, n)
  {
    Fields(Pick(edited, Title, mine.title, read.title), Pick(edited, Date, mine.date, read.date),
           Pick(edited, Time, mine.time, read.time), Pick(edited, City, mine.city, read.city),
           Pick(edited, Place, mine.place, read.place), Pick(edited, Distance, mine.distance, read.distance),
           Pick(edited, Duration, mine.duration, read.duration), Pick(edited, Route, mine.route, read.route),
           Pick(edited, Difficulty, mine.difficulty, read.difficulty), Pick(edited, Guide, mine.guide, read.guide),
           Pick(edited, Price, mine.price, read.price), Pick(edited, Expenses, mine.expenses, read.expenses),
           Pick(edited, Bring, mine.bring, read.bring), Pick(edited, Description, mine.description, read.description))
  }

  /** The names whose value the form changes. */
  function Changed(before: Fields, form: Fields): set<Mark> {
    set n: Name | Get(before, n) != Get(form, n) :: Field(n)
  }

  function MissingFields(f: Fields): Option<Problem> {
    if f.date.Some? && f.time.Some? && f.city.Some? then None
    else Some(Problem(f.date.None?, f.time.None?, f.city.None?))
  }

  function Settled(a: Announcement): Announcement {
    var problem := MissingFields(a.fields);
    a.(problem := problem,
       status := if a.status == Hidden then Hidden
                 else if a.kind.None? then Untagged
                 else if problem.Some? then Draft
                 else Published)
  }

  datatype FormError = BlankTitle | LongTitle | BadDate | BadTime | LongDescription | LongLine

  function TrimmedValue(trim: string -> string, v: Option<string>): Option<string> {
    if v.None? || trim(v.value) == "" then None else Some(trim(v.value))
  }

  predicate TooLong(v: Option<string>, max: nat) { v.Some? && |v.value| > max }

  function Trimmed(trim: string -> string, f: Fields): Fields {
    Fields(trim(f.title), TrimmedValue(trim, f.date), TrimmedValue(trim, f.time), TrimmedValue(trim, f.city),
           TrimmedValue(trim, f.place), TrimmedValue(trim, f.distance), TrimmedValue(trim, f.duration),
           TrimmedValue(trim, f.route), TrimmedValue(trim, f.difficulty), TrimmedValue(trim, f.guide),
           TrimmedValue(trim, f.price), TrimmedValue(trim, f.expenses), TrimmedValue(trim, f.bring),
           TrimmedValue(trim, f.description))
  }

  predicate HasLongLine(t: Fields) {
    TooLong(t.city, 300) || TooLong(t.place, 300) || TooLong(t.distance, 300) || TooLong(t.duration, 300)
    || TooLong(t.route, 300) || TooLong(t.difficulty, 300) || TooLong(t.guide, 300) || TooLong(t.price, 300)
    || TooLong(t.expenses, 300) || TooLong(t.bring, 300)
  }

  /** The admin's form as stored: trimmed, blank meaning none, and validated. */
  function Normalized(trim: string -> string, f: Fields): Result<Fields, FormError> {
    var t := Trimmed(trim, f);
    if t.title == "" then Err(BlankTitle)
    else if |t.title| > 200 then Err(LongTitle)
    else if t.date.Some? && ParseDay(t.date.value).None? then Err(BadDate)
    else if t.time.Some? && MinuteOfDay(t.time.value).None? then Err(BadTime)
    else if TooLong(t.description, 5000) then Err(LongDescription)
    else if HasLongLine(t) then Err(LongLine)
    else Ok(t)
  }

  function Edited(a: Announcement, kind: Option<Kind>, form: Fields): Announcement {
    Settled(a.(fields := form, kind := kind,
               edited := a.edited + Changed(a.fields, form) + if kind != a.kind then {KindMark} else {}))
  }

  function Hide(a: Announcement): Announcement { a.(status := Hidden) }

  function Show(a: Announcement): Announcement { Settled(a.(status := Draft)) }

  function Remove(a: Announcement): Announcement { a.(status := Removed) }

  const NO_FIELDS := Fields("", None, None, None, None, None, None, None, None, None, None, None, None, None)

  function Blank(channel: string, post: Post): Announcement {
    Announcement(channel, post.id, Untagged, None, NO_FIELDS, {}, None, None, None, "", post.postedAt, None)
  }

  predicate IsOwnEvent(reading: Reading, post: Post) { reading.register(post.links).Some? }

  function KindGiven(reading: Reading, post: Post): Option<Kind> {
    if IsOwnEvent(reading, post) then Some(reading.kindOf(post.text)) else None
  }

  /** Apply a read post: what the admin did not set follows the post, the picture
      follows the copy, and a removed announcement comes back. */
  function ApplyPost(reading: Reading, existing: Option<Announcement>, channel: string, post: Post,
                     image: Option<Picture>): Announcement
  {
    var a := if existing.Some? then existing.value else Blank(channel, post);
    var read := a.(fields := KeepEdited(a.fields, reading.parse(post.text), a.edited),
                   kind := if KindMark in a.edited then a.kind else KindGiven(reading, post),
                   registerUrl := reading.register(post.links),
                   text := post.text,
                   postedAt := post.postedAt,
                   image := if image.Some? then Some(image.value.url) else if post.photo.None? then None else a.image,
                   imagePrint := if image.Some? then image.value.imagePrint else if post.photo.None? then None else a.imagePrint,
                   status := if a.status == Removed then Untagged else a.status);
    Settled(read)
  }

  /** An imported post without the registration link gets its kind by hand. */
  function FileImported(reading: Reading, a: Announcement): Announcement {
    if a.kind.None?
    then Settled(a.(kind := Some(reading.kindOf(a.text)), edited := a.edited + {KindMark}))
    else a
  }

  /** An incomplete post of the archive stays unpublished, not a draft. */
  function FileArchived(a: Announcement): Announcement {
    if a.status == Draft then a.(status := Untagged) else a
  }

  // ---- an announcement updated in place ---------------------------------------------------

  class Event {
    const channel: string
    const id: PostId
    var status: Status
    var kind: Option<Kind>
    var fields: Fields
    var edited: set<Mark>
    var image: Option<string>
    var imagePrint: Option<string>
    var registerUrl: Option<string>
    var text: string
    var postedAt: string
    var problem: Option<Problem>

    function View(): Announcement
      reads this
    {
      Announcement(channel, id, status, kind, fields, edited, image, imagePrint, registerUrl, text, postedAt, problem)
    }

    constructor Stored(a: Announcement)
      ensures View() == a
    {
      channel, id, status, kind, fields, edited := a.channel, a.id, a.status, a.kind, a.fields, a.edited;
      image, imagePrint, registerUrl := a.image, a.imagePrint, a.registerUrl;
      text, postedAt, problem := a.text, a.postedAt, a.problem;
    }

    method Settle()
      modifies this`status, this`problem
      ensures View() == Settled(old(View()))
    {
      problem := MissingFields(fields);
      if status == Hidden { return; }
      status := if kind.None? then Untagged else if problem.Some? then Draft else Published;
    }

    /** Mark what the form changes as set by hand, and take the form. */
    method Edit(trim: string -> string, newKind: Option<Kind>, form: Fields) returns (result: Result<(), FormError>)
      modifies this`status, this`problem, this`kind, this`fields, this`edited
      ensures match Normalized(trim, form)
              case Err(e) => result == Err(e) && View() == old(View())
              case Ok(normalized) => result == Ok(()) && View() == Edited(old(View()), newKind, normalized)
    {
      var normalized := Normalized(trim, form);
      if normalized.Err? { return Err(normalized.error); }
      ghost var before := View();
      var names := ChangedNames(fields, normalized.value);
      edited := edited + names;
      if newKind != kind {
        edited := edited + {KindMark};
        kind := newKind;
      }
      fields := normalized.value;
      Settle();
      assert edited == before.edited + Changed(before.fields, fields) + (if newKind != before.kind then {KindMark} else {});
      return Ok(());
    }

    /** Follow the post as read, wherever the admin set nothing by hand. */
    method Take(reading: Reading, post: Post, picture: Option<Picture>)
      modifies this
      ensures View() == ApplyPost(reading, Some(old(View())), channel, post, picture)
      ensures picture.Some? ==> image == Some(picture.value.url) && imagePrint == picture.value.imagePrint
      ensures picture.None? && post.photo.None? ==> image.None? && imagePrint.None?
      ensures picture.None? && post.photo.Some? ==> image == old(image) && imagePrint == old(imagePrint)
    {
      hide KeepEdited, MissingFields, KindGiven, Settled;
      fields := KeepEdited(fields, reading.parse(post.text), edited);
      if KindMark !in edited { kind := KindGiven(reading, post); }
      registerUrl, text, postedAt := reading.register(post.links), post.text, post.postedAt;
      if picture.Some? {
        image, imagePrint := Some(picture.value.url), picture.value.imagePrint;
      } else if post.photo.None? {
        image, imagePrint := None, None;
      }
      if status == Removed { status := Untagged; }
      Settle();
    }

    method HideIt()
      modifies this`status
      ensures View() == Hide(old(View()))
    {
      status := Hidden;
    }

    method ShowIt()
      modifies this`status, this`problem
      ensures View() == Show(old(View()))
    {
      status := Draft;
      Settle();
    }

    method RemoveIt()
      modifies this`status
      ensures View() == Remove(old(View()))
    {
      status := Removed;
    }

    method FileAsImported(reading: Reading)
      modifies this`kind, this`edited, this`status, this`problem
      ensures View() == FileImported(reading, old(View()))
    {
      if kind.None? {
        kind := Some(reading.kindOf(text));
        edited := edited + {KindMark};
        Settle();
      }
    }

    method FileAsArchived()
      modifies this`status
      ensures View() == FileArchived(old(View()))
    {
      if status == Draft { status := Untagged; }
    }
  }

  /** Walk the names and collect those whose value differs. */
  method ChangedNames(before: Fields, form: Fields) returns (names: set<Mark>)
    ensures names == Changed(before, form)
  {
    names := {};
    var all := [Title, Date, Time, City, Place, Distance, Duration, Route, Difficulty, Guide, Price, Expenses, Bring,
                Description];
    var i := 0;
    while i < |all|
      invariant 0 <= i <= |all|
      invariant names == set n: Name | n in all[..i] && Get(before, n) != Get(form, n) :: Field(n)
    {
      if Get(before, all[i]) != Get(form, all[i]) { names := names + {Field(all[i])}; }
      i := i + 1;
    }
    assert all[..i] == all;
    forall n: Name ensures n in all { AllNames(all, n); }
  }

  lemma AllNames(all: seq<Name>, n: Name)
    requires all == [Title, Date, Time, City, Place, Distance, Duration, Route, Difficulty, Guide, Price, Expenses,
                     Bring, Description]
    ensures n in all
  {
    match n {
      case Title => assert all[0] == n;
      case Date => assert all[1] == n;
      case Time => assert all[2] == n;
      case City => assert all[3] == n;
      case Place => assert all[4] == n;
      case Distance => assert all[5] == n;
      case Duration => assert all[6] == n;
      case Route => assert all[7] == n;
      case Difficulty => assert all[8] == n;
      case Guide => assert all[9] == n;
      case Price => assert all[10] == n;
      case Expenses => assert all[11] == n;
      case Bring => assert all[12] == n;
      case Description => assert all[13] == n;
    }
  }

  /** Apply a read post to its announcement, or to a new one. */
  method ReadPost(reading: Reading, existing: Option<Announcement>, channel: string, post: Post, image: Option<Picture>)
    returns (event: Event)
    ensures fresh(event) && event.View() == ApplyPost(reading, existing, channel, post, image)
  {
    hide KeepEdited, MissingFields, KindGiven, Settled;
    event := new Event.Stored(if existing.Some? then existing.value else Blank(channel, post));
    event.Take(reading, post, image);
  }

  // ---- the form ---------------------------------------------------------------------

  /** What an accepted form holds: a title, a real date, a time of day, and no value
      longer than the form allows. */
  ghost predicate ProperForm(f: Fields) {
    && f.title != "" && |f.title| <= 200
    && (f.date.Some? ==> ParseDay(f.date.value).Some?)
    && (f.time.Some? ==> MinuteOfDay(f.time.value).Some?)
    && forall n :: n !in {Title, Date, Time} && Get(f, n).Some? ==>
         |Get(f, n).value| <= if n == Description then 5000 else 300
  }

  /** A form is accepted exactly when it is proper once trimmed, and is then stored
      as trimmed. */
  lemma NormalizedExactly(trim: string -> string, f: Fields)
    ensures Normalized(trim, f).Ok? <==> ProperForm(Trimmed(trim, f))
    ensures Normalized(trim, f).Ok? ==> Normalized(trim, f).value == Trimmed(trim, f)
  {
    hide ParseDay, MinuteOfDay, Trimmed, HasLongLine;
    LinesFit(Trimmed(trim, f));
  }

  /** What an improper form is refused for: its title first, then the day, the time, the
      description, and last any other line. */
  lemma RefusedFormExactly(trim: string -> string, f: Fields)
    ensures var (r, t) := (Normalized(trim, f), Trimmed(trim, f));
            var badDay := t.date.Some? && ParseDay(t.date.value).None?;
            var badTime := t.time.Some? && MinuteOfDay(t.time.value).None?;
            var longText := t.description.Some? && |t.description.value| > 5000;
            && (r == Err(BlankTitle) <==> t.title == "")
            && (r == Err(LongTitle) <==> |t.title| > 200)
            && (r == Err(BadDate) <==> 0 < |t.title| <= 200 && badDay)
            && (r == Err(BadTime) <==> 0 < |t.title| <= 200 && !badDay && badTime)
            && (r == Err(LongDescription) <==> 0 < |t.title| <= 200 && !badDay && !badTime && longText)
            && (r.Err? && r.error !in {BlankTitle, LongTitle, BadDate, BadTime, LongDescription} ==> r == Err(LongLine))
  {
    hide ParseDay, MinuteOfDay, Trimmed, HasLongLine;
  }

  /** The form as stored, value by value: trimmed, and a blank one left out. */
  lemma TrimmedByName(trim: string -> string, f: Fields, n: Name)
    ensures Get(Trimmed(trim, f), n) ==
            if n == Title then Some(trim(f.title))
            else if Get(f, n).None? || trim(Get(f, n).value) == "" then None
            else Some(trim(Get(f, n).value))
  {}

  lemma LinesFit(t: Fields)
    ensures !HasLongLine(t) && !TooLong(t.description, 5000) <==>
            forall n :: n !in {Title, Date, Time} && Get(t, n).Some? ==>
              |Get(t, n).value| <= if n == Description then 5000 else 300
  {
    assert Get(t, City) == t.city && Get(t, Place) == t.place && Get(t, Distance) == t.distance;
    assert Get(t, Duration) == t.duration && Get(t, Route) == t.route && Get(t, Difficulty) == t.difficulty;
    assert Get(t, Guide) == t.guide && Get(t, Price) == t.price && Get(t, Expenses) == t.expenses;
    assert Get(t, Bring) == t.bring && Get(t, Description) == t.description;
  }

  lemma TrimmedTwice(trim: string -> string, f: Fields)
    requires forall v :: trim(trim(v)) == trim(v)
    ensures Trimmed(trim, Trimmed(trim, f)) == Trimmed(trim, f)
  {}

  /** Trimming again changes nothing, so an accepted form is accepted as it is. */
  lemma AcceptedAgain(trim: string -> string, f: Fields)
    requires (forall v :: trim(trim(v)) == trim(v)) && Normalized(trim, f).Ok?
    ensures Normalized(trim, Normalized(trim, f).value) == Normalized(trim, f)
  {
    TrimmedTwice(trim, f);
    hide ParseDay, MinuteOfDay, Trimmed, HasLongLine;
  }

  // ---- one step at a time -----------------------------------------------------------

  /** The status says no more than the kind and the fields allow. */
  predicate Sound(a: Announcement) {
    && a.problem == MissingFields(a.fields)
    && (a.status == Published ==> a.kind.Some? && a.problem.None?)
  }

  /** An edit marks exactly what it changes, and nothing loses its mark. */
  lemma EditMarks(a: Announcement, kind: Option<Kind>, form: Fields, n: Name)
    ensures Field(n) in Edited(a, kind, form).edited <==> Field(n) in a.edited || Get(a.fields, n) != Get(form, n)
    ensures KindMark in Edited(a, kind, form).edited <==> KindMark in a.edited || kind != a.kind
    ensures a.edited <= Edited(a, kind, form).edited
  {
    assert Field(n) in Changed(a.fields, form) <==> Get(a.fields, n) != Get(form, n);
  }

  lemma SameFields(a: Fields, b: Fields)
    requires forall n :: Get(a, n) == Get(b, n)
    ensures a == b
  {
    assert Get(a, Title) == Get(b, Title) && Get(a, Date) == Get(b, Date) && Get(a, Time) == Get(b, Time);
    assert Get(a, City) == Get(b, City) && Get(a, Place) == Get(b, Place) && Get(a, Distance) == Get(b, Distance);
    assert Get(a, Duration) == Get(b, Duration) && Get(a, Route) == Get(b, Route);
    assert Get(a, Difficulty) == Get(b, Difficulty) && Get(a, Guide) == Get(b, Guide) && Get(a, Price) == Get(b, Price);
    assert Get(a, Expenses) == Get(b, Expenses) && Get(a, Bring) == Get(b, Bring);
    assert Get(a, Description) == Get(b, Description);
  }

  /** Reading a post a second time changes nothing, whether its picture is copied
      again or the copy fails. */
  lemma ReadingTwiceIsOnce(reading: Reading, existing: Option<Announcement>, channel: string, post: Post,
                           image: Option<Picture>, again: Option<Picture>)
    requires again == image || (again.None? && post.photo.Some?)
    ensures var a := ApplyPost(reading, existing, channel, post, image);
            ApplyPost(reading, Some(a), channel, post, again) == a
  {
    var a := ApplyPost(reading, existing, channel, post, image);
    var b := ApplyPost(reading, Some(a), channel, post, again);
    forall n ensures Get(b.fields, n) == Get(a.fields, n) {}
    hide KeepEdited, Get;
    SameFields(a.fields, b.fields);
  }

  /** No step but showing or removing takes a hidden announcement out of hiding. */
  lemma HiddenStays(reading: Reading, a: Announcement, channel: string, post: Post, image: Option<Picture>,
                    kind: Option<Kind>, form: Fields)
    ensures ApplyPost(reading, Some(a), channel, post, image).status == Hidden <==> a.status == Hidden
    ensures Edited(a, kind, form).status == Hidden <==> a.status == Hidden
    ensures FileImported(reading, a).status == Hidden <==> a.status == Hidden
    ensures FileArchived(a).status == Hidden <==> a.status == Hidden
  {
    hide KeepEdited, MissingFields;
  }

  /** But a hidden announcement whose post is gone and then shows up again is back
      on the site if it is complete: removal forgets that it was hidden. */
  lemma RemovalForgetsHiding(reading: Reading, a: Announcement, channel: string, post: Post, image: Option<Picture>)
    requires a.status == Hidden
    ensures var back := ApplyPost(reading, Some(Remove(a)), channel, post, image);
            && back.status != Hidden
            && (back.status == Published <==> back.kind.Some? && back.problem.None?)
  {
    hide KeepEdited, MissingFields;
  }

  /** And an edit of a removed announcement brings it back, deleted post or not. */
  lemma EditRevivesRemoved(a: Announcement, kind: Option<Kind>, form: Fields)
    requires a.status == Removed
    ensures Edited(a, kind, form).status != Removed
    ensures Edited(a, kind, form).status == Published <==> kind.Some? && MissingFields(form).None?
  {
    hide MissingFields;
  }

  // ---- every story ------------------------------------------------------------------------

  datatype Action =
    | Read(post: Post, image: Option<Picture>)
    | Edit(kind: Option<Kind>, form: Fields)
    | HideIt
    | ShowIt
    | RemoveIt
    | ImportIt
    | ArchiveIt
    | PrintIt(imagePrint: string)

  /** An announcement with what was last read and what the admin last set. */
  datatype Story = Story(a: Announcement, last: Post, form: Fields, hand: Option<Kind>)

  function Begin(reading: Reading, channel: string, post: Post, image: Option<Picture>): Story {
    Story(ApplyPost(reading, None, channel, post, image), post, NO_FIELDS, None)
  }

  function Next(reading: Reading, trim: string -> string, s: Story, action: Action): Story {
    match action
    case Read(post, image) => s.(a := ApplyPost(reading, Some(s.a), s.a.channel, post, image), last := post)
    case Edit(kind, form) =>
      (match Normalized(trim, form)
       case Err(_) => s
       case Ok(normalized) => s.(a := Edited(s.a, kind, normalized), form := normalized, hand := kind))
    case HideIt => s.(a := Hide(s.a))
    case ShowIt => s.(a := Show(s.a))
    case RemoveIt => s.(a := Remove(s.a))
    case ImportIt =>
      s.(a := FileImported(reading, s.a), hand := if s.a.kind.None? then Some(reading.kindOf(s.a.text)) else s.hand)
    case ArchiveIt => s.(a := FileArchived(s.a))
    case PrintIt(imagePrint) => s.(a := s.a.(imagePrint := Some(imagePrint)))
  }

  function Tell(reading: Reading, trim: string -> string, s: Story, actions: seq<Action>): Story
    decreases |actions|
  {
    if actions == [] then s
    else Next(reading, trim, Tell(reading, trim, s, actions[..|actions| - 1]), actions[|actions| - 1])
  }

  /** What is not set by hand is what the last read post gives; what is keeps the
      admin's value; the status is sound. */
  ghost predicate Faithful(reading: Reading, s: Story) {
    && (forall n :: Field(n) !in s.a.edited ==> Get(s.a.fields, n) == Get(reading.parse(s.last.text), n))
    && (forall n :: Field(n) in s.a.edited ==> Get(s.a.fields, n) == Get(s.form, n))
    && (KindMark !in s.a.edited ==> s.a.kind == KindGiven(reading, s.last))
    && (KindMark in s.a.edited ==> s.a.kind == s.hand)
    && s.a.text == s.last.text
    && s.a.registerUrl == reading.register(s.last.links)
    && Sound(s.a)
  }

  lemma ReadFaithful(reading: Reading, s: Story, post: Post, image: Option<Picture>)
    requires Faithful(reading, s)
    ensures Faithful(reading, s.(a := ApplyPost(reading, Some(s.a), s.a.channel, post, image), last := post))
  {
    hide Get, MissingFields;
  }

  lemma EditFaithful(reading: Reading, s: Story, kind: Option<Kind>, form: Fields)
    requires Faithful(reading, s)
    ensures Faithful(reading, s.(a := Edited(s.a, kind, form), form := form, hand := kind))
  {
    forall n
      ensures Field(n) in Edited(s.a, kind, form).edited <==> Field(n) in s.a.edited || Get(s.a.fields, n) != Get(form, n)
      ensures KindMark in Edited(s.a, kind, form).edited <==> KindMark in s.a.edited || kind != s.a.kind
    {
      EditMarks(s.a, kind, form, n);
    }
    EditMarks(s.a, kind, form, Title);
    hide Get, MissingFields, Changed;
  }

  lemma NextFaithful(reading: Reading, trim: string -> string, s: Story, action: Action)
    requires Faithful(reading, s)
    ensures Faithful(reading, Next(reading, trim, s, action))
  {
    match action {
      case Read(post, image) =>
        hide Faithful, ApplyPost;
        ReadFaithful(reading, s, post, image);
      case Edit(kind, form) =>
        hide Faithful, Edited, Normalized;
        if Normalized(trim, form).Ok? { EditFaithful(reading, s, kind, Normalized(trim, form).value); }
      case _ => hide Get, MissingFields;
    }
  }

  /** However reads, edits, hiding, showing, removal and imports follow each other:
      a field or kind not set by hand equals what the last read post gives, one set
      by hand keeps its value, and what is published has a kind, a date, a time and
      a city. */
  lemma {:induction false} EveryStory(reading: Reading, trim: string -> string, channel: string, post: Post,
                                      image: Option<Picture>, actions: seq<Action>)
    ensures var s := Tell(reading, trim, Begin(reading, channel, post, image), actions);
            && Faithful(reading, s)
            && (s.a.status == Published ==>
                  s.a.kind.Some? && s.a.fields.date.Some? && s.a.fields.time.Some? && s.a.fields.city.Some?)
    decreases |actions|
  {
    var begin := Begin(reading, channel, post, image);
    if actions == [] {
      assert Faithful(reading, begin) by { BeginFaithful(reading, channel, post, image); }
    } else {
      var n := |actions| - 1;
      EveryStory(reading, trim, channel, post, image, actions[..n]);
      NextFaithful(reading, trim, Tell(reading, trim, begin, actions[..n]), actions[n]);
    }
    hide Get, Next, Begin;
  }

  lemma BeginFaithful(reading: Reading, channel: string, post: Post, image: Option<Picture>)
    ensures Faithful(reading, Begin(reading, channel, post, image))
  {
    hide Get, MissingFields;
  }

  /** An action leaves the announcement hidden exactly when it hides it, or finds it
      hidden and neither shows nor removes it. */
  lemma HiddenUntilShown(reading: Reading, trim: string -> string, s: Story, action: Action)
    ensures Next(reading, trim, s, action).a.status == Hidden <==>
            action.HideIt? || (s.a.status == Hidden && !action.ShowIt? && !action.RemoveIt?)
  {
    match action {
      case Read(post, image) => HiddenStays(reading, s.a, s.a.channel, post, image, None, NO_FIELDS);
      case Edit(kind, form) =>
        hide Normalized;
        if Normalized(trim, form).Ok? {
          HiddenStays(reading, s.a, "", s.last, None, kind, Normalized(trim, form).value);
        }
      case ImportIt => HiddenStays(reading, s.a, "", s.last, None, None, NO_FIELDS);
      case ArchiveIt => HiddenStays(reading, s.a, "", s.last, None, None, NO_FIELDS);
      case _ => hide MissingFields;
    }
  }

  /** The announcement was hidden, and since then neither shown nor removed. */
  ghost predicate HiddenSince(actions: seq<Action>) {
    exists k :: 0 <= k < |actions| && actions[k].HideIt? && NotShownIn(actions[k + 1..])
  }

  predicate NotShownIn(actions: seq<Action>) {
    forall j :: 0 <= j < |actions| ==> !actions[j].ShowIt? && !actions[j].RemoveIt?
  }

  /** A story ends with the announcement hidden exactly when somebody hid it and nobody
      showed or removed it since. */
  lemma {:induction false} HiddenExactly(reading: Reading, trim: string -> string, channel: string, post: Post,
                                         image: Option<Picture>, actions: seq<Action>)
    ensures Tell(reading, trim, Begin(reading, channel, post, image), actions).a.status == Hidden <==> HiddenSince(actions)
    decreases |actions|
  {
    hide Next, NotShownIn, ApplyPost;
    if actions == [] {
      NotHiddenYet(reading, channel, post, image);
    } else {
      var n := |actions| - 1;
      HiddenExactly(reading, trim, channel, post, image, actions[..n]);
      HiddenUntilShown(reading, trim, Tell(reading, trim, Begin(reading, channel, post, image), actions[..n]), actions[n]);
      OneActionSince(actions);
    }
  }

  lemma NotHiddenYet(reading: Reading, channel: string, post: Post, image: Option<Picture>)
    ensures ApplyPost(reading, None, channel, post, image).status != Hidden
  {
    hide KeepEdited, MissingFields;
  }

  lemma OneActionSince(actions: seq<Action>)
    requires actions != []
    ensures var (rest, last) := (actions[..|actions| - 1], actions[|actions| - 1]);
            HiddenSince(actions) <==> last.HideIt? || (HiddenSince(rest) && !last.ShowIt? && !last.RemoveIt?)
  {
    var n := |actions| - 1;
    var rest := actions[..n];
    if actions[n].HideIt? { assert actions[n + 1..] == []; }
    if k :| 0 <= k < |actions| && actions[k].HideIt? && NotShownIn(actions[k + 1..]) {
      if k < n {
        assert actions[k + 1..][n - k - 1] == actions[n] && rest[k] == actions[k];
        assert rest[k + 1..] == actions[k + 1..][..n - k - 1];
      }
    }
    if k :| 0 <= k < n && rest[k].HideIt? && NotShownIn(rest[k + 1..]) {
      assert actions[k + 1..] == rest[k + 1..] + [actions[n]] && rest[k] == actions[k];
    }
  }

  /** The last accepted form stays proper, so in every story a date and a time set by
      hand are a real day and a time of day. */
  lemma {:induction false} HandSetScheduleIsReal(reading: Reading, trim: string -> string, channel: string, post: Post,
                                                 image: Option<Picture>, actions: seq<Action>)
    ensures var s := Tell(reading, trim, Begin(reading, channel, post, image), actions);
            && (s.form == NO_FIELDS || ProperForm(s.form))
            && (Field(Date) in s.a.edited && s.a.fields.date.Some? ==> ParseDay(s.a.fields.date.value).Some?)
            && (Field(Time) in s.a.edited && s.a.fields.time.Some? ==> MinuteOfDay(s.a.fields.time.value).Some?)
    decreases |actions|
  {
    hide ParseDay, MinuteOfDay, Begin;
    var begin := Begin(reading, channel, post, image);
    EveryStory(reading, trim, channel, post, image, actions);
    if actions == [] {
      assert begin.form == NO_FIELDS by { FirstForm(reading, channel, post, image); }
    } else {
      var n := |actions| - 1;
      HandSetScheduleIsReal(reading, trim, channel, post, image, actions[..n]);
      FormStaysProper(reading, trim, Tell(reading, trim, begin, actions[..n]), actions[n]);
    }
    var s := Tell(reading, trim, begin, actions);
    hide Tell, ProperForm;
    SetByHand(reading, s);
  }

  lemma FirstForm(reading: Reading, channel: string, post: Post, image: Option<Picture>)
    ensures Begin(reading, channel, post, image).form == NO_FIELDS
  {}

  lemma FormStaysProper(reading: Reading, trim: string -> string, s: Story, action: Action)
    requires s.form == NO_FIELDS || ProperForm(s.form)
    ensures Next(reading, trim, s, action).form == NO_FIELDS || ProperForm(Next(reading, trim, s, action).form)
  {
    hide Normalized, ProperForm, Edited, ApplyPost, FileImported;
    if action.Edit? { NormalizedExactly(trim, action.form); }
  }

  lemma SetByHand(reading: Reading, s: Story)
    requires Faithful(reading, s) && (s.form == NO_FIELDS || ProperForm(s.form))
    ensures Field(Date) in s.a.edited && s.a.fields.date.Some? ==> ParseDay(s.a.fields.date.value).Some?
    ensures Field(Time) in s.a.edited && s.a.fields.time.Some? ==> MinuteOfDay(s.a.fields.time.value).Some?
  {
    hide ParseDay, MinuteOfDay;
    if Field(Date) in s.a.edited { assert Get(s.a.fields, Date) == Get(s.form, Date); }
    if Field(Time) in s.a.edited { assert Get(s.a.fields, Time) == Get(s.form, Time); }
  }
}
