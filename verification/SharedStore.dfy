/** The announcements as the reader and the admin share them. A pass of the reader
    loads every announcement once and later stores what it makes of its copies; an
    admin request reads one announcement and stores it changed. Every load and every
    store is a step of its own, steps interleave freely, and a pass or a request may
    stop between two of them. */
module SharedStore {
  import opened Prelude
  import opened Announcement

  datatype Rules = Rules(reading: Reading, trim: string -> string, channel: string)

  /** An action on an announcement, stamped with the time it was stored. */
  datatype Entry = Entry(stamp: nat, action: Action)

  /** An announcement with the post it began with and what was done to it since. */
  datatype Told = Told(first: Post, image: Option<Picture>, story: Story, tale: seq<Entry>)

  /** What the running pass holds, loaded at time `at`. */
  datatype Copies = Copies(known: map<PostId, Told>, at: nat)

  /** An admin request that read its announcement at time `at`. */
  datatype Desk = Desk(id: PostId, copy: Told, at: nat)

  /** `ahead` are the announcements an admin saved since the running pass last loaded
      or stored them; the clock counts the writes. */
  datatype State = State(store: map<PostId, Told>, reader: Option<Copies>, desks: map<nat, Desk>, ahead: set<PostId>,
                         clock: nat)

  datatype Step =
    | Load
    | Create(post: Post, image: Option<Picture>, actions: seq<Action>)
    | Write(id: PostId, actions: seq<Action>)
    | Finish
    | Open(pid: nat, id: PostId)
    | Save(pid: nat, action: Action)
    | Drop(pid: nat)

  predicate ByAdmin(action: Action) { action.Edit? || action.HideIt? || action.ShowIt? }

  predicate ByReader(actions: seq<Action>) { forall i :: 0 <= i < |actions| ==> !ByAdmin(actions[i]) }

  /** The form of the edit is refused, so nothing is stored. */
  predicate Refused(r: Rules, action: Action) { action.Edit? && Normalized(r.trim, action.form).Err? }

  function Retold(r: Rules, t: Told, actions: seq<Action>, stamp: nat): Told {
    if actions == [] then t
    else
      var u := Retold(r, t, actions[..|actions| - 1], stamp);
      var action := actions[|actions| - 1];
      u.(story := Next(r.reading, r.trim, u.story, action), tale := u.tale + [Entry(stamp, action)])
  }

  lemma OneAction(r: Rules, t: Told, action: Action, stamp: nat)
    ensures Retold(r, t, [action], stamp) ==
            t.(story := Next(r.reading, r.trim, t.story, action), tale := t.tale + [Entry(stamp, action)])
  {
    hide Next;
    assert [action][..0] == [];
  }

  lemma TwoActions(r: Rules, t: Told, a: Action, b: Action, stamp: nat)
    ensures Retold(r, t, [a, b], stamp).story == Next(r.reading, r.trim, Next(r.reading, r.trim, t.story, a), b)
  {
    hide Next;
    OneAction(r, t, a, stamp);
    assert [a, b][..1] == [a];
  }

  function FirstTold(r: Rules, post: Post, image: Option<Picture>): Told {
    Told(post, image, Begin(r.reading, r.channel, post, image), [])
  }

  /** The reader stores its announcement. */
  function Put(s: State, id: PostId, t: Told): State
    requires s.reader.Some?
  {
    s.(store := s.store[id := t], reader := Some(s.reader.value.(known := s.reader.value.known[id := t])),
       ahead := s.ahead - {id}, clock := s.clock + 1)
  }

  /** One step; a step that is not possible changes nothing. */
  function Apply(r: Rules, s: State, step: Step): State {
    match step
    case Load =>
      if s.reader.Some? then s else s.(reader := Some(Copies(s.store, s.clock)), ahead := {})
    case Create(post, image, actions) =>
      if s.reader.None? || post.id in s.reader.value.known || !Suits(post.id, actions) then s
      else Put(s, post.id, Retold(r, FirstTold(r, post, image), actions, s.clock))
    case Write(id, actions) =>
      if s.reader.None? || id !in s.reader.value.known || !Suits(id, actions) then s
      else Put(s, id, Retold(r, s.reader.value.known[id], actions, s.clock))
    case Finish => s.(reader := None)
    case Open(pid, id) =>
      if pid in s.desks || id !in s.store then s
      else s.(desks := s.desks[pid := Desk(id, s.store[id], s.clock)])
    case Save(pid, action) =>
      if pid !in s.desks || !ByAdmin(action) then s
      else
        var desk := s.desks[pid];
        var s' := s.(desks := s.desks - {pid});
        if Refused(r, action) then s'
        else s'.(store := s.store[desk.id := Retold(r, desk.copy, [action], s.clock)], ahead := s.ahead + {desk.id},
                 clock := s.clock + 1)
    case Drop(pid) => s.(desks := s.desks - {pid})
  }

  /** The reader applies to an announcement only reads of its own post. */
  predicate Suits(id: PostId, actions: seq<Action>) {
    ByReader(actions) && forall i :: 0 <= i < |actions| && actions[i].Read? ==> actions[i].post.id == id
  }

  function Exec(r: Rules, s: State, run: seq<Step>): State
    decreases |run|
  {
    if run == [] then s else Apply(r, Exec(r, s, run[..|run| - 1]), run[|run| - 1])
  }

  const START := State(map[], None, map[], {}, 0)

  /** What has happened stays the beginning of what happens. */
  predicate Past(before: seq<Step>, after: seq<Step>) { before <= after }

  lemma PastOrder()
    ensures forall a: seq<Step> :: Past(a, a)
    ensures forall a, b, c :: Past(a, b) && Past(b, c) ==> Past(a, c)
  {}

  // ---- every stored announcement is the end of some story ---------------------------------

  function ActionOf(e: Entry): Action { e.action }

  /** The announcement is what its story, told one action at a time, ends with. */
  ghost predicate Follows(r: Rules, t: Told) {
    t.story == Tell(r.reading, r.trim, Begin(r.reading, r.channel, t.first, t.image), Map(ActionOf, t.tale))
  }

  ghost predicate CopyOk(r: Rules, t: Told, id: PostId) {
    Follows(r, t) && t.story.a.id == id && t.story.a.channel == r.channel
  }

  ghost predicate StoreOk(r: Rules, store: map<PostId, Told>) {
    forall id :: id in store ==> CopyOk(r, store[id], id)
  }

  /** All of it happened before `now`. */
  ghost predicate Stamped(t: Told, now: nat) { forall i :: 0 <= i < |t.tale| ==> t.tale[i].stamp < now }

  ghost predicate AllStamped(store: map<PostId, Told>, now: nat) { forall id :: id in store ==> Stamped(store[id], now) }

  /** Nothing is stamped later than now, and the pass holds a copy of everything
      stored. */
  ghost predicate Timed(s: State) {
    && AllStamped(s.store, s.clock)
    && (forall pid :: pid in s.desks ==>
          s.desks[pid].id in s.store && s.desks[pid].at <= s.clock && Stamped(s.desks[pid].copy, s.clock))
    && (s.reader.Some? ==>
          && s.reader.value.at <= s.clock && s.reader.value.known.Keys == s.store.Keys
          && AllStamped(s.reader.value.known, s.clock))
  }

  ghost predicate DesksOk(r: Rules, desks: map<nat, Desk>) {
    forall pid :: pid in desks ==> CopyOk(r, desks[pid].copy, desks[pid].id)
  }

  /** What the pass holds and the store holds differ only where an admin is ahead. */
  ghost predicate InStep(store: map<PostId, Told>, known: map<PostId, Told>, ahead: set<PostId>) {
    forall id :: id in store && id in known && id !in ahead ==> known[id] == store[id]
  }

  ghost predicate Inv(r: Rules, s: State) {
    && Timed(s) && StoreOk(r, s.store) && DesksOk(r, s.desks)
    && (s.reader.Some? ==> StoreOk(r, s.reader.value.known) && InStep(s.store, s.reader.value.known, s.ahead))
  }

  lemma NextStays(r: Rules, s: Story, action: Action)
    ensures Next(r.reading, r.trim, s, action).a.id == s.a.id
    ensures Next(r.reading, r.trim, s, action).a.channel == s.a.channel
  {
    hide Normalized, KeepEdited, MissingFields, Changed;
  }

  lemma {:induction false} RetoldOk(r: Rules, t: Told, actions: seq<Action>, id: PostId, stamp: nat)
    requires CopyOk(r, t, id)
    ensures CopyOk(r, Retold(r, t, actions, stamp), id)
  {
    if actions != [] {
      var n := |actions| - 1;
      RetoldOk(r, t, actions[..n], id, stamp);
      OneRetold(r, Retold(r, t, actions[..n], stamp), actions[n], id, stamp);
    }
  }

  lemma OneRetold(r: Rules, t: Told, action: Action, id: PostId, stamp: nat)
    requires CopyOk(r, t, id)
    ensures CopyOk(r, t.(story := Next(r.reading, r.trim, t.story, action), tale := t.tale + [Entry(stamp, action)]), id)
  {
    hide Next, Begin;
    NextStays(r, t.story, action);
    MapConcat(ActionOf, t.tale, [Entry(stamp, action)]);
    assert Map(ActionOf, [Entry(stamp, action)]) == [action];
    var all := Map(ActionOf, t.tale) + [action];
    assert all[..|all| - 1] == Map(ActionOf, t.tale);
  }

  lemma {:induction false} RetoldStamped(r: Rules, t: Told, actions: seq<Action>, stamp: nat)
    requires Stamped(t, stamp)
    ensures Stamped(Retold(r, t, actions, stamp), stamp + 1)
  {
    hide Next;
    if actions != [] { RetoldStamped(r, t, actions[..|actions| - 1], stamp); }
  }

  lemma FirstOk(r: Rules, post: Post, image: Option<Picture>)
    ensures CopyOk(r, FirstTold(r, post, image), post.id)
  {
    hide KeepEdited, MissingFields;
  }

  lemma StampedLater(store: map<PostId, Told>, now: nat, id: PostId, t: Told)
    requires AllStamped(store, now) && Stamped(t, now + 1)
    ensures AllStamped(store[id := t], now + 1) && AllStamped(store, now + 1)
  {}

  lemma DesksLater(s: State, t: State)
    requires Timed(s) && t.clock == s.clock + 1 && s.store.Keys <= t.store.Keys
    requires forall pid :: pid in t.desks ==> pid in s.desks && t.desks[pid] == s.desks[pid]
    ensures forall pid :: pid in t.desks ==>
              t.desks[pid].id in t.store && t.desks[pid].at <= t.clock && Stamped(t.desks[pid].copy, t.clock)
  {
    hide AllStamped;
  }

  lemma PutTimed(s: State, id: PostId, t: Told)
    requires Timed(s) && s.reader.Some? && Stamped(t, s.clock + 1)
    ensures Timed(Put(s, id, t))
  {
    StampedLater(s.store, s.clock, id, t);
    StampedLater(s.reader.value.known, s.clock, id, t);
    DesksLater(s, Put(s, id, t));
    hide AllStamped, Stamped;
  }

  lemma SaveTimed(r: Rules, s: State, pid: nat, action: Action)
    requires Timed(s)
    ensures Timed(Apply(r, s, Save(pid, action)))
  {
    hide Retold, Refused, AllStamped, Stamped;
    if pid in s.desks {
      var desk := s.desks[pid];
      var told := Retold(r, desk.copy, [action], s.clock);
      RetoldStamped(r, desk.copy, [action], s.clock);
      StampedLater(s.store, s.clock, desk.id, told);
      if s.reader.Some? { StampedLater(s.reader.value.known, s.clock, desk.id, told); }
      if ByAdmin(action) && !Refused(r, action) { DesksLater(s, Apply(r, s, Save(pid, action))); }
    }
  }

  lemma ApplyTimed(r: Rules, s: State, step: Step)
    requires Timed(s)
    ensures Timed(Apply(r, s, step))
  {
    hide Retold, Refused, Put, Suits, AllStamped, Stamped;
    match step {
      case Create(post, image, actions) =>
        if s.reader.Some? {
          assert Stamped(FirstTold(r, post, image), s.clock) by { FirstStamped(r, post, image, s.clock); }
          RetoldStamped(r, FirstTold(r, post, image), actions, s.clock);
          PutTimed(s, post.id, Retold(r, FirstTold(r, post, image), actions, s.clock));
        }
      case Write(id, actions) =>
        if s.reader.Some? && id in s.reader.value.known {
          assert Stamped(s.reader.value.known[id], s.clock) by { StampOf(s.reader.value.known, s.clock, id); }
          RetoldStamped(r, s.reader.value.known[id], actions, s.clock);
          PutTimed(s, id, Retold(r, s.reader.value.known[id], actions, s.clock));
        }
      case Open(pid, id) => if id in s.store { StampOf(s.store, s.clock, id); }
      case Save(pid, action) => SaveTimed(r, s, pid, action);
      case _ =>
    }
  }

  lemma FirstStamped(r: Rules, post: Post, image: Option<Picture>, now: nat)
    ensures Stamped(FirstTold(r, post, image), now)
  {
    hide Begin;
  }

  lemma StampOf(store: map<PostId, Told>, now: nat, id: PostId)
    requires AllStamped(store, now) && id in store
    ensures Stamped(store[id], now)
  {}

  lemma PutOk(r: Rules, store: map<PostId, Told>, id: PostId, t: Told)
    requires StoreOk(r, store) && CopyOk(r, t, id)
    ensures StoreOk(r, store[id := t])
  {
    hide CopyOk;
  }

  lemma CopyOf(r: Rules, store: map<PostId, Told>, id: PostId)
    requires StoreOk(r, store) && id in store
    ensures CopyOk(r, store[id], id)
  {
    hide CopyOk;
  }

  lemma PutKeeps(r: Rules, s: State, id: PostId, t: Told)
    requires StoreOk(r, s.store) && DesksOk(r, s.desks) && s.reader.Some? && CopyOk(r, t, id)
    requires StoreOk(r, s.reader.value.known) && InStep(s.store, s.reader.value.known, s.ahead)
    requires Timed(Put(s, id, t))
    ensures Inv(r, Put(s, id, t))
  {
    hide Timed, CopyOk, StoreOk, DesksOk;
    PutOk(r, s.store, id, t);
    PutOk(r, s.reader.value.known, id, t);
  }

  lemma SaveKeeps(r: Rules, s: State, pid: nat, action: Action)
    requires Inv(r, s) && Timed(Apply(r, s, Save(pid, action)))
    ensures Inv(r, Apply(r, s, Save(pid, action)))
  {
    hide Timed, CopyOk, StoreOk, Retold, Refused;
    if pid in s.desks {
      var desk := s.desks[pid];
      RetoldOk(r, desk.copy, [action], desk.id, s.clock);
      PutOk(r, s.store, desk.id, Retold(r, desk.copy, [action], s.clock));
    }
  }

  lemma OpenKeeps(r: Rules, s: State, pid: nat, id: PostId)
    requires Inv(r, s) && Timed(Apply(r, s, Open(pid, id)))
    ensures Inv(r, Apply(r, s, Open(pid, id)))
  {
    hide Timed, CopyOk, StoreOk;
    if id in s.store { CopyOf(r, s.store, id); }
  }

  lemma CreateKeeps(r: Rules, s: State, post: Post, image: Option<Picture>, actions: seq<Action>)
    requires Inv(r, s)
    ensures Inv(r, Apply(r, s, Create(post, image, actions)))
  {
    ApplyTimed(r, s, Create(post, image, actions));
    hide Timed, StoreOk, CopyOk, Retold, Suits, FirstTold, Put, DesksOk, InStep;
    if s.reader.Some? {
      FirstOk(r, post, image);
      RetoldOk(r, FirstTold(r, post, image), actions, post.id, s.clock);
      if Apply(r, s, Create(post, image, actions)) != s {
        PutKeeps(r, s, post.id, Retold(r, FirstTold(r, post, image), actions, s.clock));
      }
    }
  }

  lemma WriteKeeps(r: Rules, s: State, id: PostId, actions: seq<Action>)
    requires Inv(r, s)
    ensures Inv(r, Apply(r, s, Write(id, actions)))
  {
    hide Timed, StoreOk, CopyOk, Retold, Suits, FirstTold, Put, DesksOk, InStep, Refused, ByAdmin;
    if s.reader.Some? && id in s.reader.value.known && Suits(id, actions) {
      CopyOf(r, s.reader.value.known, id);
      RetoldOk(r, s.reader.value.known[id], actions, id, s.clock);
      ApplyTimed(r, s, Write(id, actions));
      PutKeeps(r, s, id, Retold(r, s.reader.value.known[id], actions, s.clock));
    }
  }

  /** No step breaks the invariant. */
  lemma ApplyKeeps(r: Rules, s: State, step: Step)
    requires Inv(r, s)
    ensures Inv(r, Apply(r, s, step))
  {
    ApplyTimed(r, s, step);
    hide Timed, StoreOk, CopyOk, Retold, Refused, Suits, FirstTold, Put;
    match step {
      case Load => hide DesksOk;
      case Create(post, image, actions) => CreateKeeps(r, s, post, image, actions);
      case Write(id, actions) => WriteKeeps(r, s, id, actions);
      case Finish => hide DesksOk;
      case Open(pid, id) => OpenKeeps(r, s, pid, id);
      case Save(pid, action) => SaveKeeps(r, s, pid, action);
      case Drop(_) => hide InStep;
    }
  }

  lemma {:induction false} EveryRunKeeps(r: Rules, run: seq<Step>)
    ensures Inv(r, Exec(r, START, run))
    decreases |run|
  {
    hide Apply, Inv;
    if run == [] {
      assert Inv(r, START) by { StartOk(r); }
    } else {
      EveryRunKeeps(r, run[..|run| - 1]);
      ApplyKeeps(r, Exec(r, START, run[..|run| - 1]), run[|run| - 1]);
    }
  }

  lemma StartOk(r: Rules)
    ensures Inv(r, START)
  {}

  /** However the steps of passes and requests interleave, every stored announcement
      is the end of a story of actions taken one at a time: what is not set by hand
      is what its last read post gives, what is keeps the admin's value, and what is
      published has a kind, a date, a time and a city. */
  lemma EveryStoredIsAStory(r: Rules, run: seq<Step>, id: PostId)
    requires id in Exec(r, START, run).store
    ensures var t := Exec(r, START, run).store[id];
            && Follows(r, t) && t.story.a.id == id && Faithful(r.reading, t.story)
            && (t.story.a.status == Published ==>
                  && t.story.a.kind.Some? && t.story.a.fields.date.Some? && t.story.a.fields.time.Some?
                  && t.story.a.fields.city.Some?)
  {
    EveryRunKeeps(r, run);
    hide Exec;
    var s := Exec(r, START, run);
    assert CopyOk(r, s.store[id], id);
    var t := s.store[id];
    hide Begin, Tell, Faithful, Inv;
    EveryStory(r.reading, r.trim, r.channel, t.first, t.image, Map(ActionOf, t.tale));
  }

  // ---- where an admin is ahead ---------------------------------------------------------------

  /** The step saves the announcement for an admin. */
  predicate SavesNow(r: Rules, s: State, step: Step, id: PostId) {
    step.Save? && step.pid in s.desks && s.desks[step.pid].id == id && ByAdmin(step.action) && !Refused(r, step.action)
  }

  /** The step gives the pass the announcement as it is stored: it loads, or it stores it. */
  predicate CatchesUp(s: State, step: Step, id: PostId) {
    || (step.Load? && s.reader.None?)
    || (step.Write? && step.id == id && s.reader.Some? && id in s.reader.value.known && Suits(id, step.actions))
    || (step.Create? && step.post.id == id && s.reader.Some? && id !in s.reader.value.known && Suits(id, step.actions))
  }

  /** An admin is ahead after a step exactly if he saved with it, or was ahead and the pass
      did not catch up. */
  lemma AheadExactly(r: Rules, s: State, step: Step, id: PostId)
    ensures id in Apply(r, s, step).ahead <==>
            SavesNow(r, s, step, id) || (id in s.ahead && !CatchesUp(s, step, id))
  {
    hide Retold, Refused, Suits, FirstTold;
  }

  /** A pass starts with a copy of everything stored, and a request that is dropped or saved is
      over. */
  lemma StartsAndEnds(r: Rules, s: State, pid: nat)
    ensures s.reader.None? ==> Apply(r, s, Load).reader == Some(Copies(s.store, s.clock))
    ensures Apply(r, s, Finish).reader.None? && Apply(r, s, Finish).store == s.store
    ensures pid !in Apply(r, s, Drop(pid)).desks && Apply(r, s, Drop(pid)).store == s.store
  {}
}
