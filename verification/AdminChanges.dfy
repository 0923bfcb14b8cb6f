/** What becomes of an admin's change while passes of the reader run: when it stays,
    what it keeps doing while it stays, and a run in which it is lost. */
module AdminChanges {
  import opened Prelude
  import opened Announcement
  import opened SharedStore
  import Reader

  // ---- exactly when a change stays ---------------------------------------------------------

  /** The change stored at time `n` is part of how the announcement came about. */
  ghost predicate Marked(t: Told, n: nat) { exists i :: 0 <= i < |t.tale| && t.tale[i].stamp == n }

  ghost predicate Has(store: map<PostId, Told>, id: PostId, n: nat) { id in store && Marked(store[id], n) }

  /** The step stores announcement `id`. */
  predicate Stores(r: Rules, s: State, step: Step, id: PostId) {
    match step
    case Create(post, _, actions) =>
      post.id == id && s.reader.Some? && post.id !in s.reader.value.known && Suits(post.id, actions)
    case Write(w, actions) => w == id && s.reader.Some? && w in s.reader.value.known && Suits(w, actions)
    case Save(pid, action) => pid in s.desks && s.desks[pid].id == id && ByAdmin(action) && !Refused(r, action)
    case _ => false
  }

  /** The step stores announcement `id` from a copy loaded by time `n`: by a pass
      that loaded, or a request that read, before the change of time `n` was there. */
  predicate StoresOld(r: Rules, s: State, step: Step, id: PostId, n: nat) {
    Stores(r, s, step, id) && (if step.Save? then s.desks[step.pid].at else s.reader.value.at) <= n
  }

  /** The change of time `n` is stored, and in exactly the copies taken since. */
  ghost predicate Kept(s: State, id: PostId, n: nat) {
    && n < s.clock && Has(s.store, id, n)
    && (s.reader.Some? && id in s.reader.value.known ==>
          (Marked(s.reader.value.known[id], n) <==> s.reader.value.at > n))
    && (s.reader.Some? && s.reader.value.at > n ==> id in s.reader.value.known)
    && (forall pid :: pid in s.desks && s.desks[pid].id == id ==> (Marked(s.desks[pid].copy, n) <==> s.desks[pid].at > n))
  }

  lemma {:induction false} RetoldMarks(r: Rules, t: Told, actions: seq<Action>, stamp: nat, n: nat)
    requires stamp != n
    ensures Marked(Retold(r, t, actions, stamp), n) <==> Marked(t, n)
  {
    hide Next;
    if actions != [] {
      var m := |actions| - 1;
      RetoldMarks(r, t, actions[..m], stamp, n);
      OneMark(Retold(r, t, actions[..m], stamp), Retold(r, t, actions, stamp), Entry(stamp, actions[m]), n);
    }
  }

  lemma OneMark(t: Told, u: Told, e: Entry, n: nat)
    requires u.tale == t.tale + [e] && e.stamp != n
    ensures Marked(u, n) <==> Marked(t, n)
  {
    if i :| 0 <= i < |t.tale| && t.tale[i].stamp == n { assert u.tale[i].stamp == n; }
  }

  /** A store from a copy taken since keeps the change; one from an older copy
      loses it. */
  lemma StepKeeps(r: Rules, s: State, step: Step, id: PostId, n: nat)
    requires Timed(s) && Kept(s, id, n)
    ensures !StoresOld(r, s, step, id, n) ==> Kept(Apply(r, s, step), id, n)
    ensures StoresOld(r, s, step, id, n) ==> !Has(Apply(r, s, step).store, id, n)
  {
    hide Marked, Retold, Refused, Suits, Stamped, AllStamped;
    match step {
      case Write(w, actions) =>
        if s.reader.Some? && w in s.reader.value.known { RetoldMarks(r, s.reader.value.known[w], actions, s.clock, n); }
      case Save(pid, action) =>
        if pid in s.desks { RetoldMarks(r, s.desks[pid].copy, [action], s.clock, n); }
      case _ =>
    }
  }

  /** The request is about to store its change. */
  predicate Saves(r: Rules, s: State, pid: nat, action: Action) {
    pid in s.desks && ByAdmin(action) && !Refused(r, action)
  }

  lemma SavedIsKept(r: Rules, s: State, pid: nat, action: Action)
    requires Timed(s) && Saves(r, s, pid, action)
    ensures Kept(Apply(r, s, Save(pid, action)), s.desks[pid].id, s.clock)
  {
    hide Refused, Retold, Marked, Timed;
    var desk := s.desks[pid];
    OneAction(r, desk.copy, action, s.clock);
    NewMark(desk.copy, Retold(r, desk.copy, [action], s.clock), Entry(s.clock, action));
    NotYetCopied(r, s, desk.id);
  }

  lemma NewMark(t: Told, u: Told, e: Entry)
    requires u.tale == t.tale + [e]
    ensures Marked(u, e.stamp)
  {
    assert u.tale[|t.tale|] == e;
  }

  lemma NotYetCopied(r: Rules, s: State, id: PostId)
    requires Timed(s)
    ensures s.reader.Some? ==> s.reader.value.at <= s.clock
    ensures s.reader.Some? && id in s.reader.value.known ==> !Marked(s.reader.value.known[id], s.clock)
    ensures forall pid :: pid in s.desks && s.desks[pid].id == id ==>
              !Marked(s.desks[pid].copy, s.clock) && s.desks[pid].at <= s.clock
  {
    hide Stamped, Marked;
    if s.reader.Some? && id in s.reader.value.known {
      NotYet(s.reader.value.known[id], s.clock);
    }
    forall pid | pid in s.desks && s.desks[pid].id == id ensures !Marked(s.desks[pid].copy, s.clock) {
      NotYet(s.desks[pid].copy, s.clock);
    }
  }

  lemma NotYet(t: Told, now: nat)
    requires Stamped(t, now)
    ensures !Marked(t, now)
  {}

  /** A change the admin stores is still part of the announcement at every later
      moment exactly when nobody stores that announcement from a copy taken before
      the change was there. */
  lemma ChangeStaysExactly(r: Rules, run: seq<Step>, pid: nat, action: Action, more: seq<Step>)
    requires Saves(r, Exec(r, START, run), pid, action)
    ensures var s := Exec(r, START, run);
            var (id, n, t) := (s.desks[pid].id, s.clock, Apply(r, s, Save(pid, action)));
            (forall k :: 0 <= k <= |more| ==> Has(At(r, t, more, k).store, id, n)) <==>
            (forall k :: 0 <= k < |more| ==> !StoresOld(r, At(r, t, more, k), more[k], id, n))
  {
    EveryRunKeeps(r, run);
    hide Exec, Apply, Timed;
    var s := Exec(r, START, run);
    ApplyTimed(r, s, Save(pid, action));
    SavedIsKept(r, s, pid, action);
    StaysExactly(r, Apply(r, s, Save(pid, action)), more, s.desks[pid].id, s.clock);
  }

  /** The state after the first `k` of these steps. */
  function At(r: Rules, s: State, more: seq<Step>, k: nat): State
    requires k <= |more|
  {
    Exec(r, s, more[..k])
  }

  lemma AtNext(r: Rules, s: State, more: seq<Step>, k: nat)
    requires k < |more|
    ensures At(r, s, more, k + 1) == Apply(r, At(r, s, more, k), more[k])
  {
    assert more[..k + 1][..k] == more[..k];
  }

  lemma {:induction false} TimedAt(r: Rules, s: State, more: seq<Step>, k: nat)
    requires Timed(s) && k <= |more|
    ensures Timed(At(r, s, more, k))
  {
    hide Timed, Apply;
    if k > 0 {
      TimedAt(r, s, more, k - 1);
      AtNext(r, s, more, k - 1);
      ApplyTimed(r, At(r, s, more, k - 1), more[k - 1]);
    }
  }

  lemma {:induction false} KeptAt(r: Rules, s: State, more: seq<Step>, id: PostId, n: nat, k: nat)
    requires Timed(s) && Kept(s, id, n) && k <= |more|
    requires forall i :: 0 <= i < k ==> !StoresOld(r, At(r, s, more, i), more[i], id, n)
    ensures Kept(At(r, s, more, k), id, n)
  {
    hide Timed, Apply, Kept, StoresOld;
    if k > 0 {
      KeptAt(r, s, more, id, n, k - 1);
      TimedAt(r, s, more, k - 1);
      AtNext(r, s, more, k - 1);
      StepKeeps(r, At(r, s, more, k - 1), more[k - 1], id, n);
    }
  }

  lemma {:induction false} FirstOld(r: Rules, s: State, more: seq<Step>, id: PostId, n: nat, k: nat) returns (first: nat)
    requires k < |more| && StoresOld(r, At(r, s, more, k), more[k], id, n)
    ensures first <= k && StoresOld(r, At(r, s, more, first), more[first], id, n)
    ensures forall i :: 0 <= i < first ==> !StoresOld(r, At(r, s, more, i), more[i], id, n)
  {
    hide StoresOld, At;
    if i :| 0 <= i < k && StoresOld(r, At(r, s, more, i), more[i], id, n) {
      first := FirstOld(r, s, more, id, n, i);
    } else {
      first := k;
    }
  }

  lemma StaysExactly(r: Rules, s: State, more: seq<Step>, id: PostId, n: nat)
    requires Timed(s) && Kept(s, id, n)
    ensures (forall k :: 0 <= k <= |more| ==> Has(At(r, s, more, k).store, id, n)) <==>
            (forall k :: 0 <= k < |more| ==> !StoresOld(r, At(r, s, more, k), more[k], id, n))
  {
    hide Timed, StoresOld, Apply, At;
    if k :| 0 <= k < |more| && StoresOld(r, At(r, s, more, k), more[k], id, n) {
      var first := FirstOld(r, s, more, id, n, k);
      KeptAt(r, s, more, id, n, first);
      TimedAt(r, s, more, first);
      AtNext(r, s, more, first);
      StepKeeps(r, At(r, s, more, first), more[first], id, n);
      assert !Has(At(r, s, more, first + 1).store, id, n);
    } else {
      forall k | 0 <= k <= |more| ensures Has(At(r, s, more, k).store, id, n) {
        KeptAt(r, s, more, id, n, k);
      }
    }
  }

  // ---- what a change keeps doing while it stays --------------------------------------------

  /** What the admin's action asked for, given the announcement it made: hidden; or
      every value set by hand as it was set, and so still marked. */
  ghost predicate Stands(action: Action, saved: Announcement, a: Announcement) {
    match action
    case HideIt => a.status == Hidden
    case Edit(_, _) =>
      && saved.edited <= a.edited
      && (forall n :: Field(n) in saved.edited ==> Get(a.fields, n) == Get(saved.fields, n))
      && (KindMark in saved.edited && saved.kind.Some? ==> a.kind == saved.kind)
    case _ => true
  }

  /** A later action that takes it back: hiding is left by showing or removing,
      hand-set values by another edit. */
  predicate TakesBack(action: Action, later: Action) {
    match action
    case HideIt => later.ShowIt? || later.RemoveIt?
    case Edit(_, _) => later.Edit?
    case _ => false
  }

  predicate NoneTakesBack(action: Action, later: seq<Action>) {
    forall i :: 0 <= i < |later| ==> !TakesBack(action, later[i])
  }

  function Actions(step: Step): seq<Action> {
    match step
    case Create(_, _, actions) => actions
    case Write(_, actions) => actions
    case Save(_, action) => [action]
    case _ => []
  }

  lemma StandsNext(r: Rules, action: Action, saved: Announcement, s: Story, later: Action)
    requires Stands(action, saved, s.a) && !TakesBack(action, later)
    ensures Stands(action, saved, Next(r.reading, r.trim, s, later).a)
  {
    hide Normalized, MissingFields, Get;
    if action.HideIt? && !later.PrintIt? { HiddenUntilShown(r.reading, r.trim, s, later); }
  }

  lemma {:induction false} StandsRetold(r: Rules, action: Action, saved: Announcement, t: Told, later: seq<Action>, stamp: nat)
    requires Stands(action, saved, t.story.a) && NoneTakesBack(action, later)
    ensures Stands(action, saved, Retold(r, t, later, stamp).story.a)
  {
    hide Stands, TakesBack, Next;
    if later != [] {
      var n := |later| - 1;
      StandsRetold(r, action, saved, t, later[..n], stamp);
      StandsNext(r, action, saved, Retold(r, t, later[..n], stamp).story, later[n]);
    }
  }

  /** The action stands in the store and in every copy taken since. */
  ghost predicate StandsIn(s: State, action: Action, saved: Announcement, id: PostId, n: nat) {
    && id in s.store && Stands(action, saved, s.store[id].story.a)
    && (s.reader.Some? && s.reader.value.at > n ==>
          id in s.reader.value.known && Stands(action, saved, s.reader.value.known[id].story.a))
    && (forall pid :: pid in s.desks && s.desks[pid].id == id && s.desks[pid].at > n ==>
          Stands(action, saved, s.desks[pid].copy.story.a))
  }

  lemma StandsStep(r: Rules, s: State, step: Step, action: Action, saved: Announcement, id: PostId, n: nat)
    requires Timed(s) && StandsIn(s, action, saved, id, n)
    requires !StoresOld(r, s, step, id, n) && (Stores(r, s, step, id) ==> NoneTakesBack(action, Actions(step)))
    ensures StandsIn(Apply(r, s, step), action, saved, id, n)
  {
    hide Stands, Retold, Refused, Suits, Stamped, AllStamped, NoneTakesBack;
    match step {
      case Write(w, actions) =>
        if Stores(r, s, step, id) { StandsRetold(r, action, saved, s.reader.value.known[w], actions, s.clock); }
      case Save(pid, later) =>
        if Stores(r, s, step, id) { StandsRetold(r, action, saved, s.desks[pid].copy, [later], s.clock); }
      case _ =>
    }
  }

  lemma SavedStands(r: Rules, s: State, pid: nat, action: Action)
    requires Timed(s) && Saves(r, s, pid, action)
    ensures var t := Apply(r, s, Save(pid, action));
            var id := s.desks[pid].id;
            id in t.store && StandsIn(t, action, t.store[id].story.a, id, s.clock)
  {
    hide Retold, Refused, Stamped, AllStamped;
    var desk := s.desks[pid];
    OneAction(r, desk.copy, action, s.clock);
    if action.HideIt? { assert Next(r.reading, r.trim, desk.copy.story, action).a.status == Hidden; }
    hide Next;
  }

  /** While nobody stores the announcement from a copy older than the change, and no
      later action takes it back, a hidden announcement stays hidden and every value
      set by hand stays as set, whatever passes read and other requests do. */
  lemma ChangeStands(r: Rules, run: seq<Step>, pid: nat, action: Action, more: seq<Step>)
    requires Saves(r, Exec(r, START, run), pid, action)
    requires var s := Exec(r, START, run);
             var (id, n, t) := (s.desks[pid].id, s.clock, Apply(r, s, Save(pid, action)));
             forall k :: 0 <= k < |more| && Stores(r, At(r, t, more, k), more[k], id) ==>
               !StoresOld(r, At(r, t, more, k), more[k], id, n) && NoneTakesBack(action, Actions(more[k]))
    ensures var s := Exec(r, START, run);
            var (id, t) := (s.desks[pid].id, Apply(r, s, Save(pid, action)));
            var u := At(r, t, more, |more|);
            id in t.store && id in u.store && Stands(action, t.store[id].story.a, u.store[id].story.a)
  {
    EveryRunKeeps(r, run);
    hide Exec, Apply, Timed, Stores, NoneTakesBack;
    var s := Exec(r, START, run);
    var t := Apply(r, s, Save(pid, action));
    ApplyTimed(r, s, Save(pid, action));
    SavedStands(r, s, pid, action);
    StandsAt(r, t, more, action, t.store[s.desks[pid].id].story.a, s.desks[pid].id, s.clock, |more|);
  }

  lemma {:induction false} StandsAt(r: Rules, s: State, more: seq<Step>, action: Action, saved: Announcement, id: PostId,
                                    n: nat, k: nat)
    requires Timed(s) && StandsIn(s, action, saved, id, n) && k <= |more|
    requires forall i :: 0 <= i < k && Stores(r, At(r, s, more, i), more[i], id) ==>
               !StoresOld(r, At(r, s, more, i), more[i], id, n) && NoneTakesBack(action, Actions(more[i]))
    ensures StandsIn(At(r, s, more, k), action, saved, id, n)
  {
    hide Timed, Apply, StandsIn, Stores, NoneTakesBack;
    if k > 0 {
      StandsAt(r, s, more, action, saved, id, n, k - 1);
      TimedAt(r, s, more, k - 1);
      AtNext(r, s, more, k - 1);
      StandsStep(r, At(r, s, more, k - 1), more[k - 1], action, saved, id, n);
    }
  }

  // ---- where a change is lost ---------------------------------------------------------------

  /** A pass loads, an admin changes an announcement, the pass reads its edited post. */
  function Crossing(pid: nat, action: Action, post: Post): seq<Step> {
    [Load, Open(pid, post.id), Save(pid, action), Write(post.id, [Read(post, None)])]
  }

  /** The pass under way reads the post from the feed: so its copies say. */
  predicate PassWants(r: Rules, s: State, post: Post) {
    && s.reader.Some?
    && Reader.Wants(r.reading, map id | id in s.reader.value.known :: s.reader.value.known[id].story.a, post, Reader.Feed)
  }

  /** Whatever the admin changed while the pass was under way, the announcement ends
      as if he had changed nothing: one not hidden before is not hidden after. Whether
      the pass reads the post does not depend on the change either. */
  lemma PassOverwrites(r: Rules, run: seq<Step>, pid: nat, action: Action, post: Post)
    requires var s := Exec(r, START, run); s.reader.None? && pid !in s.desks && post.id in s.store
    requires ByAdmin(action) && !Refused(r, action)
    ensures var s := Exec(r, START, run);
            var before := s.store[post.id].story.a;
            var steps := Crossing(pid, action, post);
            var (u, t) := (At(r, s, steps, 3), At(r, s, steps, 4));
            && post.id in u.store && post.id in t.store
            && (action.HideIt? ==> u.store[post.id].story.a.status == Hidden)
            && (PassWants(r, u, post) <==> Reader.Wants(r.reading, map[post.id := before], post, Reader.Feed))
            && t.store[post.id].story.a == ApplyPost(r.reading, Some(before), r.channel, post, None)
            && (before.status != Hidden ==> t.store[post.id].story.a.status != Hidden)
  {
    var s := Exec(r, START, run);
    var told := s.store[post.id];
    assert told.story.a.channel == r.channel by {
      EveryRunKeeps(r, run);
      CopyOf(r, s.store, post.id);
    }
    hide Exec, Retold, At, Crossing, Apply, Next, ApplyPost, PassWants, Reader.Wants;
    CrossingStates(r, s, pid, action, post);
    Crossed(r, s, pid, action, post);
    StillWanted(r, s, pid, action, post);
    OneAction(r, told, action, s.clock);
    OneAction(r, told, Read(post, None), s.clock + 1);
    ReadShows(r, told.story, post);
    if action.HideIt? { HideHides(r, told.story); }
  }

  lemma CrossingStates(r: Rules, s: State, pid: nat, action: Action, post: Post)
    ensures var steps := Crossing(pid, action, post);
            && At(r, s, steps, 3) == Apply(r, Apply(r, Apply(r, s, Load), Open(pid, post.id)), Save(pid, action))
            && At(r, s, steps, 4) == Apply(r, At(r, s, steps, 3), Write(post.id, [Read(post, None)]))
  {
    hide Apply;
    var steps := Crossing(pid, action, post);
    AtStart(r, s, steps);
    AtNext(r, s, steps, 0);
    AtNext(r, s, steps, 1);
    AtNext(r, s, steps, 2);
    AtNext(r, s, steps, 3);
    hide At;
  }

  lemma HideHides(r: Rules, s: Story)
    ensures Next(r.reading, r.trim, s, HideIt).a.status == Hidden
  {}

  lemma AtStart(r: Rules, s: State, more: seq<Step>)
    ensures At(r, s, more, 0) == s
  {}

  lemma ReadShows(r: Rules, s: Story, post: Post)
    ensures var a := Next(r.reading, r.trim, s, Read(post, None)).a;
            a == ApplyPost(r.reading, Some(s.a), s.a.channel, post, None) && (s.a.status != Hidden ==> a.status != Hidden)
  {
    hide KeepEdited, MissingFields;
  }

  lemma Crossed(r: Rules, s: State, pid: nat, action: Action, post: Post)
    requires s.reader.None? && pid !in s.desks && post.id in s.store && ByAdmin(action) && !Refused(r, action)
    ensures var u := Apply(r, Apply(r, Apply(r, s, Load), Open(pid, post.id)), Save(pid, action));
            var t := Apply(r, u, Write(post.id, [Read(post, None)]));
            && post.id in u.store && u.store[post.id] == Retold(r, s.store[post.id], [action], s.clock)
            && post.id in t.store && t.store[post.id] == Retold(r, s.store[post.id], [Read(post, None)], s.clock + 1)
  {
    hide Retold, Refused;
  }

  lemma StillWanted(r: Rules, s: State, pid: nat, action: Action, post: Post)
    requires s.reader.None? && pid !in s.desks && post.id in s.store
    ensures var u := Apply(r, Apply(r, Apply(r, s, Load), Open(pid, post.id)), Save(pid, action));
            PassWants(r, u, post) <==>
              Reader.Wants(r.reading, map[post.id := s.store[post.id].story.a], post, Reader.Feed)
  {
    hide Retold, Refused;
  }

  const COMPLETE := NO_FIELDS.(title := "t", date := Some("2026-10-11"), time := Some("12:45"), city := Some("c"))

  function SomeRules(): Rules {
    Rules(Reading((_: string) => COMPLETE, (_: string) => Hiking, (_: seq<string>) => Some("r")), (s: string) => s, "ch")
  }

  function Post7(text: string): Post { Post(PostId(7), "2026-10-01T00:00:00Z", text, [], None) }

  /** A published announcement is hidden while a pass is under way that wants its edited
      post and goes on to read it: it is back on the site, and nobody showed it. */
  lemma HiddenComesBack()
    ensures var r := SomeRules();
            var s := Exec(r, START, [Load, Create(Post7("a"), None, []), Finish]);
            var (u, t) := (At(r, s, Crossing(0, HideIt, Post7("b")), 3), At(r, s, Crossing(0, HideIt, Post7("b")), 4));
            && PostId(7) in s.store && s.store[PostId(7)].story.a.status == Published
            && PostId(7) in u.store && u.store[PostId(7)].story.a.status == Hidden
            && PassWants(r, u, Post7("b"))
            && PostId(7) in t.store && t.store[PostId(7)].story.a.status == Published
  {
    Published7();
    hide Exec, At, Crossing, PassWants;
    PassOverwrites(SomeRules(), [Load, Create(Post7("a"), None, []), Finish], 0, HideIt, Post7("b"));
  }

  lemma Published7()
    ensures var s := Exec(SomeRules(), START, [Load, Create(Post7("a"), None, []), Finish]);
            && s.reader.None? && s.desks == map[] && PostId(7) in s.store
            && s.store[PostId(7)].story.a.status == Published && s.store[PostId(7)].story.a.edited == {}
            && s.store[PostId(7)].story.a.text == "a"
  {
    var steps := [Load, Create(Post7("a"), None, []), Finish];
    AtStart(SomeRules(), START, steps);
    AtNext(SomeRules(), START, steps, 0);
    AtNext(SomeRules(), START, steps, 1);
    AtNext(SomeRules(), START, steps, 2);
    assert steps[..3] == steps;
  }
}
