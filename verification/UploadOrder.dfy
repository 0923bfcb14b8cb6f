/** In which order a payload's uploads reach the store, and when the store they leave
    depends on it. The strings are opened in their sorted order, at most eight in
    flight, and any one of those in flight may finish first. */
module UploadOrder {
  import opened Prelude
  import opened Media

  const MAX_CONCURRENT_UPLOADS := 8

  // ---- the orders in which uploads finish --------------------------------------------------

  function Pick(flight: seq<string>, choice: nat): (i: nat)
    requires flight != []
    ensures i < |flight|
  {
    if choice < |flight| then choice else 0
  }

  function Without(flight: seq<string>, i: nat): seq<string>
    requires i < |flight|
  {
    flight[..i] + flight[i + 1..]
  }

  function Next(choices: seq<nat>): nat { if choices == [] then 0 else choices[0] }

  function Coming(choices: seq<nat>): seq<nat> { if choices == [] then [] else choices[1..] }

  /** The order in which the uploads finish: one more is opened while there is a slot,
      and otherwise the choices say which of those in flight is done. */
  function Finishes(flight: seq<string>, rest: seq<string>, choices: seq<nat>): seq<string>
    decreases |flight| + 2 * |rest|
  {
    if rest != [] && |flight| < MAX_CONCURRENT_UPLOADS then Finishes(flight + [rest[0]], rest[1..], choices)
    else if flight == [] then []
    else
      var i := Pick(flight, Next(choices));
      [flight[i]] + Finishes(Without(flight, i), rest, Coming(choices))
  }

  function Upto(s: seq<string>, n: nat): seq<string> { s[..if n < |s| then n else |s|] }

  /** What may have been opened once `done` uploads have finished. */
  function Reach(opening: seq<string>, done: nat): seq<string> { Upto(opening, done + MAX_CONCURRENT_UPLOADS) }

  /** No upload finishes before it can have been opened. */
  ghost predicate InReach(opening: seq<string>, order: seq<string>) {
    forall p :: 0 <= p < |order| ==> order[p] in Reach(opening, p)
  }

  /** Every string once, none before it can have been opened. */
  ghost predicate Scheduled(opening: seq<string>, order: seq<string>) {
    NoRepeats(order) && SameMembers(order, opening) && InReach(opening, order)
  }

  /** The first `next` strings are opened; each is in flight or done. */
  ghost predicate Underway(opening: seq<string>, next: nat, flight: seq<string>, done: seq<string>) {
    && next <= |opening| && NoRepeats(opening) && NoRepeats(flight) && NoRepeats(done)
    && |flight| + |done| == next && |flight| <= MAX_CONCURRENT_UPLOADS
    && (forall u :: u in flight ==> u !in done)
    && (forall u :: u in opening[..next] <==> u in flight || u in done)
  }

  lemma Opened(opening: seq<string>, next: nat, flight: seq<string>, done: seq<string>)
    requires Underway(opening, next, flight, done) && next < |opening| && |flight| < MAX_CONCURRENT_UPLOADS
    ensures Underway(opening, next + 1, flight + [opening[next]], done)
  {
    assert opening[..next + 1] == opening[..next] + [opening[next]];
    assert opening[next] !in opening[..next];
  }

  lemma Joined(opening: seq<string>, next: nat, flight: seq<string>, done: seq<string>, i: nat)
    requires Underway(opening, next, flight, done) && i < |flight|
    ensures Underway(opening, next, Without(flight, i), done + [flight[i]])
  {
    var rest := Without(flight, i);
    assert forall k :: 0 <= k < |rest| ==> rest[k] == if k < i then flight[k] else flight[k + 1];
    assert flight[i] in flight;
    forall u ensures u in flight <==> u in rest || u == flight[i] { Splits(flight, i, u); }
  }

  lemma Splits(flight: seq<string>, i: nat, u: string)
    requires i < |flight|
    ensures u in flight <==> u in Without(flight, i) || u == flight[i]
  {
    assert flight == flight[..i] + [flight[i]] + flight[i + 1..];
  }

  lemma JoinedInReach(opening: seq<string>, next: nat, flight: seq<string>, done: seq<string>, i: nat)
    requires Underway(opening, next, flight, done) && i < |flight| && InReach(opening, done)
    ensures InReach(opening, done + [flight[i]])
  {
    assert flight[i] in flight && flight[i] in opening[..next];
    InPrefix(opening, next, |Reach(opening, |done|)|, flight[i]);
  }

  lemma InPrefix(s: seq<string>, m: nat, n: nat, u: string)
    requires m <= n <= |s| && u in s[..m]
    ensures u in s[..n]
  {
    var i :| 0 <= i < m && s[..m][i] == u;
    assert s[..n][i] == u;
  }

  /** What is among the first few of a beginning is among the first few of the whole. */
  lemma UptoGrows(s: seq<string>, k: nat, m: nat, n: nat, u: string)
    requires k <= |s| && m <= n && u in Upto(s[..k], m)
    ensures u in Upto(s, n)
  {
    var i :| 0 <= i < |Upto(s[..k], m)| && Upto(s[..k], m)[i] == u;
    assert Upto(s, n)[i] == u;
  }

  /** However the choices fall, the uploads finish in a schedule. */
  lemma {:induction false} FinishesInSchedule(opening: seq<string>, next: nat, flight: seq<string>, done: seq<string>,
                                              choices: seq<nat>)
    requires Underway(opening, next, flight, done) && InReach(opening, done)
    ensures Scheduled(opening, done + Finishes(flight, opening[next..], choices))
    decreases |flight| + 2 * (|opening| - next)
  {
    hide Underway, InReach, NoRepeats, SameMembers;
    Bounds(opening, next, flight, done);
    if next < |opening| && |flight| < MAX_CONCURRENT_UPLOADS {
      Opened(opening, next, flight, done);
      FinishesInSchedule(opening, next + 1, flight + [opening[next]], done, choices);
    } else if flight == [] {
      AllDone(opening, next, done);
      assert done + [] == done;
    } else {
      var i := Pick(flight, Next(choices));
      Joined(opening, next, flight, done, i);
      JoinedInReach(opening, next, flight, done, i);
      FinishesInSchedule(opening, next, Without(flight, i), done + [flight[i]], Coming(choices));
      Associative(done, [flight[i]], Finishes(Without(flight, i), opening[next..], Coming(choices)));
    }
  }

  lemma Bounds(opening: seq<string>, next: nat, flight: seq<string>, done: seq<string>)
    requires Underway(opening, next, flight, done)
    ensures next <= |opening| && |flight| + |done| == next && |flight| <= MAX_CONCURRENT_UPLOADS
  {}

  lemma AllDone(opening: seq<string>, next: nat, done: seq<string>)
    requires Underway(opening, next, [], done) && next == |opening|
    ensures NoRepeats(done) && SameMembers(done, opening)
  {
    assert opening[..next] == opening;
  }

  /** And every schedule is what some choices make of it. */
  lemma {:induction false} EveryScheduleFinishes(opening: seq<string>, order: seq<string>, next: nat, flight: seq<string>,
                                                 k: nat) returns (choices: seq<nat>)
    requires Scheduled(opening, order) && k <= |order| && Underway(opening, next, flight, order[..k])
    ensures Finishes(flight, opening[next..], choices) == order[k..]
    decreases |flight| + 2 * (|opening| - next)
  {
    hide Underway, InReach, NoRepeats, SameMembers;
    Bounds(opening, next, flight, order[..k]);
    if next < |opening| && |flight| < MAX_CONCURRENT_UPLOADS {
      Opened(opening, next, flight, order[..k]);
      choices := EveryScheduleFinishes(opening, order, next + 1, flight + [opening[next]], k);
    } else if flight == [] {
      NothingLeft(opening, order, next, k);
      choices := [];
    } else {
      var i := StillInFlight(opening, order, next, flight, k);
      Joined(opening, next, flight, order[..k], i);
      assert order[..k] + [order[k]] == order[..k + 1];
      var coming := EveryScheduleFinishes(opening, order, next, Without(flight, i), k + 1);
      choices := [i] + coming;
      assert Coming(choices) == coming && Pick(flight, Next(choices)) == i;
      assert order[k..] == [order[k]] + order[k + 1..];
    }
  }

  lemma NothingLeft(opening: seq<string>, order: seq<string>, next: nat, k: nat)
    requires Scheduled(opening, order) && k <= |order| && Underway(opening, next, [], order[..k]) && next == |opening|
    ensures order[k..] == []
  {
    assert opening[..next] == opening;
    if k < |order| {
      Fresh(order, k);
      assert false;
    }
  }

  lemma Fresh(order: seq<string>, k: nat)
    requires NoRepeats(order) && k < |order|
    ensures order[k] !in order[..k]
  {}

  lemma StillInFlight(opening: seq<string>, order: seq<string>, next: nat, flight: seq<string>, k: nat) returns (i: nat)
    requires Scheduled(opening, order) && k <= |order| && Underway(opening, next, flight, order[..k]) && flight != []
    requires next == |opening| || |flight| == MAX_CONCURRENT_UPLOADS
    ensures k < |order| && i < |flight| && flight[i] == order[k]
  {
    NotAllDone(opening, order, next, flight, k);
    Fresh(order, k);
    assert order[k] in Reach(opening, k);
    assert order[k] in opening[..next];
    i :| 0 <= i < |flight| && flight[i] == order[k];
  }

  lemma NotAllDone(opening: seq<string>, order: seq<string>, next: nat, flight: seq<string>, k: nat)
    requires Scheduled(opening, order) && k <= |order| && Underway(opening, next, flight, order[..k]) && flight != []
    ensures k < |order|
  {
    assert order[..|order|] == order;
    assert flight[0] in flight && flight[0] in opening[..next] && flight[0] in opening;
  }

  // ---- the store an order leaves --------------------------------------------------------------

  /** The store after the upload of one string. */
  function PutUri(env: Env, items: map<string, Blob>, u: string): map<string, Blob> {
    match ParseDataUri(env, u)
    case None => items
    case Some(data) => PutBlob(env, items, data.bytes, data.mediaType)
  }

  /** The store after these uploads, one after the other. */
  function StoreAll(env: Env, items: map<string, Blob>, order: seq<string>): map<string, Blob> {
    if order == [] then items
    else PutUri(env, StoreAll(env, items, order[..|order| - 1]), order[|order| - 1])
  }

  lemma StoreOneMore(env: Env, items: map<string, Blob>, order: seq<string>, u: string)
    ensures StoreAll(env, items, order + [u]) == PutUri(env, StoreAll(env, items, order), u)
  {
    hide PutUri;
    assert (order + [u])[..|order|] == order;
  }

  /** The string holds a picture whose address is `h`. */
  predicate Writes(env: Env, h: string, u: string) {
    Storable(env, u) && env.digest(ParseDataUri(env, u).value.bytes) == h
  }

  function BlobOf(env: Env, u: string): Blob
    requires Storable(env, u)
  {
    Blob(ParseDataUri(env, u).value.bytes, ParseDataUri(env, u).value.mediaType)
  }

  /** The first string of the order that writes `h`. */
  function FirstWriter(env: Env, h: string, order: seq<string>): (w: Option<string>)
    ensures w.Some? ==> w.value in order && Writes(env, h, w.value)
    ensures w.None? ==> forall u :: u in order ==> !Writes(env, h, u)
  {
    if order == [] then None
    else
      var before := FirstWriter(env, h, order[..|order| - 1]);
      if before.Some? then before
      else if Writes(env, h, order[|order| - 1]) then Some(order[|order| - 1])
      else None
  }

  /** What the store holds at an address: what was there, else what the first string
      that writes it says. */
  lemma {:induction false} StoredAt(env: Env, items: map<string, Blob>, order: seq<string>, h: string)
    ensures var (after, w) := (StoreAll(env, items, order), FirstWriter(env, h, order));
            && (h in after <==> h in items || w.Some?)
            && (h in items ==> after[h] == items[h])
            && (h !in items && w.Some? ==> after[h] == BlobOf(env, w.value))
  {
    hide ParseDataUri;
    if order != [] { StoredAt(env, items, order[..|order| - 1], h); }
  }

  lemma {:induction false} FirstStays(env: Env, h: string, order: seq<string>, more: seq<string>)
    requires FirstWriter(env, h, order).Some?
    ensures FirstWriter(env, h, order + more) == FirstWriter(env, h, order)
    decreases |more|
  {
    hide Writes;
    if more == [] {
      assert order + more == order;
    } else {
      assert (order + more)[..|order + more| - 1] == order + more[..|more| - 1];
      FirstStays(env, h, order, more[..|more| - 1]);
    }
  }

  /** A writer that follows only strings that write elsewhere is the first. */
  lemma FirstAfter(env: Env, h: string, before: seq<string>, u: string, more: seq<string>)
    requires Writes(env, h, u) && forall x :: x in before ==> !Writes(env, h, x)
    ensures FirstWriter(env, h, before + [u] + more) == Some(u)
  {
    hide Writes;
    assert (before + [u])[..|before|] == before;
    assert FirstWriter(env, h, before).None?;
    FirstStays(env, h, before + [u], more);
  }

  /** Nothing before the first writer writes the address. */
  lemma {:induction false} WhereFirst(env: Env, h: string, order: seq<string>) returns (p: nat)
    requires FirstWriter(env, h, order).Some?
    ensures p < |order| && order[p] == FirstWriter(env, h, order).value
    ensures forall x :: x in order[..p] ==> !Writes(env, h, x)
  {
    hide Writes;
    var n := |order| - 1;
    if FirstWriter(env, h, order[..n]).Some? {
      p := WhereFirst(env, h, order[..n]);
      assert order[..n][..p] == order[..p];
    } else {
      p := n;
    }
  }

  // ---- exactly when the order does not matter ---------------------------------------------------

  /** Those opened before place `k` that write the address. */
  ghost function Rivals(env: Env, h: string, opening: seq<string>, k: nat): set<string>
    requires k <= |opening|
  {
    set u | u in opening[..k] && Writes(env, h, u)
  }

  function TypeOf(env: Env, u: string): string { match ParseDataUri(env, u) case None => "" case Some(data) => data.mediaType }

  /** Of the strings that write one new address, those that can be in flight together
      with all its earlier ones hold one picture under one media type. */
  ghost predicate OneBlob(env: Env, items: map<string, Blob>, opening: seq<string>) {
    forall j, k, h ::
      (0 <= j < k < |opening| && h !in items && Writes(env, h, opening[j]) && Writes(env, h, opening[k])
       && |Rivals(env, h, opening, k)| < MAX_CONCURRENT_UPLOADS) ==>
        ParseDataUri(env, opening[j]) == ParseDataUri(env, opening[k])
  }

  /** The same of the media type alone. */
  ghost predicate OneType(env: Env, items: map<string, Blob>, opening: seq<string>) {
    forall j, k, h ::
      (0 <= j < k < |opening| && h !in items && Writes(env, h, opening[j]) && Writes(env, h, opening[k])
       && |Rivals(env, h, opening, k)| < MAX_CONCURRENT_UPLOADS) ==>
        TypeOf(env, opening[j]) == TypeOf(env, opening[k])
  }

  /** The bytes of the pictures among these strings. */
  ghost function Offered(env: Env, uris: set<string>): set<string> {
    set u | u in uris && Storable(env, u) :: ParseDataUri(env, u).value.bytes
  }

  ghost function Elements(s: seq<string>): set<string> { set u | u in s }

  ghost predicate OneStore(env: Env, items: map<string, Blob>, opening: seq<string>) {
    forall a, b :: Scheduled(opening, a) && Scheduled(opening, b) ==> StoreAll(env, items, a) == StoreAll(env, items, b)
  }

  lemma SizeOf(s: seq<string>) returns (all: set<string>)
    requires NoRepeats(s)
    ensures |all| == |s| && forall u :: u in all <==> u in s
  {
    all := {};
    var i := 0;
    while i < |s|
      invariant 0 <= i <= |s| && |all| == i && forall u :: u in all <==> u in s[..i]
    {
      assert s[i] !in s[..i];
      all := all + {s[i]};
      i := i + 1;
    }
    assert s[..i] == s;
  }

  lemma Fits(s: set<string>, t: set<string>)
    requires s <= t
    ensures |s| <= |t|
  {
    assert t == s + (t - s);
  }

  lemma PrefixUnique(s: seq<string>, k: nat)
    requires NoRepeats(s) && k <= |s|
    ensures NoRepeats(s[..k])
  {}

  lemma DoneInReach(opening: seq<string>, order: seq<string>, p: nat, u: string)
    requires InReach(opening, order) && p <= |order| && u in order[..p]
    ensures u in Reach(opening, p)
  {
    var q :| 0 <= q < p && order[q] == u;
    assert opening[..|opening|] == opening;
    UptoGrows(opening, |opening|, q + MAX_CONCURRENT_UPLOADS, p + MAX_CONCURRENT_UPLOADS, u);
  }

  lemma RivalsInReach(env: Env, h: string, opening: seq<string>, k: nat, p: nat)
    requires NoRepeats(opening) && k < |opening| && opening[k] in Reach(opening, p)
    ensures forall u :: u in Rivals(env, h, opening, k) ==> u in Reach(opening, p)
  {
    hide Writes;
    Earlier(opening, opening[k], k, |Reach(opening, p)|);
    forall u | u in Rivals(env, h, opening, k) ensures u in Reach(opening, p) {
      InPrefix(opening, k, |Reach(opening, p)|, u);
    }
  }

  /** A string that finishes before all its rivals was in flight together with them. */
  lemma FewRivals(env: Env, h: string, opening: seq<string>, order: seq<string>, p: nat, k: nat)
    requires NoRepeats(opening) && Scheduled(opening, order) && p < |order| && k < |opening| && opening[k] == order[p]
    requires Writes(env, h, order[p]) && forall x :: x in order[..p] ==> !Writes(env, h, x)
    ensures |Rivals(env, h, opening, k)| < MAX_CONCURRENT_UPLOADS
  {
    Fresh(order, p);
    Fresh(opening, k);
    PrefixUnique(order, p);
    PrefixUnique(opening, |Reach(opening, p)|);
    assert order[p] in Reach(opening, p);
    hide Writes, NoRepeats, InReach;
    var done := SizeOf(order[..p]);
    var reach := SizeOf(Reach(opening, p));
    var rivals := Rivals(env, h, opening, k);
    forall u | u in done ensures u in reach { DoneInReach(opening, order, p, u); }
    RivalsInReach(env, h, opening, k, p);
    assert done !! rivals && order[p] !in done && order[p] !in rivals;
    Fits(done + rivals + {order[p]}, reach);
  }

  lemma Earlier(s: seq<string>, u: string, k: nat, n: nat)
    requires NoRepeats(s) && k < |s| && s[k] == u && n <= |s| && u in s[..n]
    ensures k < n
  {}

  lemma PlaceOf(opening: seq<string>, u: string) returns (k: nat)
    requires u in opening
    ensures k < |opening| && opening[k] == u
  {
    k :| 0 <= k < |opening| && opening[k] == u;
  }

  /** The first to write an address, in any schedule. */
  lemma FirstPlace(env: Env, h: string, opening: seq<string>, order: seq<string>) returns (k: nat)
    requires NoRepeats(opening) && Scheduled(opening, order) && FirstWriter(env, h, order).Some?
    ensures k < |opening| && opening[k] == FirstWriter(env, h, order).value && Writes(env, h, opening[k])
    ensures |Rivals(env, h, opening, k)| < MAX_CONCURRENT_UPLOADS
  {
    hide Writes;
    var p := WhereFirst(env, h, order);
    k := PlaceOf(opening, order[p]);
    FewRivals(env, h, opening, order, p, k);
  }

  lemma BlobsAgree(env: Env, items: map<string, Blob>, opening: seq<string>, h: string, j: nat, k: nat)
    requires OneBlob(env, items, opening) && h !in items && j < |opening| && k < |opening|
    requires Writes(env, h, opening[j]) && |Rivals(env, h, opening, j)| < MAX_CONCURRENT_UPLOADS
    requires Writes(env, h, opening[k]) && |Rivals(env, h, opening, k)| < MAX_CONCURRENT_UPLOADS
    ensures BlobOf(env, opening[j]) == BlobOf(env, opening[k])
  {
    hide ParseDataUri, Rivals;
  }

  lemma SameBlob(env: Env, items: map<string, Blob>, opening: seq<string>, a: seq<string>, b: seq<string>, h: string)
    requires NoRepeats(opening) && OneBlob(env, items, opening)
    requires Scheduled(opening, a) && Scheduled(opening, b) && h !in items && FirstWriter(env, h, a).Some?
    ensures FirstWriter(env, h, b).Some?
    ensures BlobOf(env, FirstWriter(env, h, a).value) == BlobOf(env, FirstWriter(env, h, b).value)
  {
    hide Writes, Rivals, OneBlob, BlobOf, NoRepeats, InReach;
    assert FirstWriter(env, h, a).value in b;
    var j := FirstPlace(env, h, opening, a);
    var k := FirstPlace(env, h, opening, b);
    BlobsAgree(env, items, opening, h, j, k);
  }

  lemma OneBlobOneStore(env: Env, items: map<string, Blob>, opening: seq<string>)
    requires NoRepeats(opening) && OneBlob(env, items, opening)
    ensures OneStore(env, items, opening)
  {
    forall a, b | Scheduled(opening, a) && Scheduled(opening, b)
      ensures StoreAll(env, items, a) == StoreAll(env, items, b)
    {
      hide Scheduled, StoreAll, OneBlob, Writes, BlobOf;
      var s, t := StoreAll(env, items, a), StoreAll(env, items, b);
      forall h ensures (h in s <==> h in t) && (h in s ==> s[h] == t[h]) {
        StoredAt(env, items, a, h);
        StoredAt(env, items, b, h);
        if h !in items && FirstWriter(env, h, a).Some? { SameBlob(env, items, opening, a, b, h); }
        if h !in items && FirstWriter(env, h, b).Some? { SameBlob(env, items, opening, b, a, h); }
      }
    }
  }

  // ---- any writer with few rivals may be the first

  /** The strings that write the address, or those that do not, in order. */
  function Those(env: Env, h: string, s: seq<string>, writing: bool): (r: seq<string>)
    ensures forall u :: u in r <==> u in s && Writes(env, h, u) == writing
  {
    if s == [] then []
    else Those(env, h, s[..|s| - 1], writing) + if Writes(env, h, s[|s| - 1]) == writing then [s[|s| - 1]] else []
  }

  lemma ThoseLast(env: Env, h: string, s: seq<string>)
    requires s != []
    ensures var (r, u) := (s[..|s| - 1], s[|s| - 1]);
            var writes := Writes(env, h, u);
            && Those(env, h, s, true) == (if writes then Those(env, h, r, true) + [u] else Those(env, h, r, true))
            && Those(env, h, s, false) == (if writes then Those(env, h, r, false) else Those(env, h, r, false) + [u])
  {
    hide Writes;
    var (r, u) := (s[..|s| - 1], s[|s| - 1]);
    assert Those(env, h, r, true) + [] == Those(env, h, r, true) && Those(env, h, r, false) + [] == Those(env, h, r, false);
  }

  /** `mine` and `others` split `s`. */
  ghost predicate Divides(s: seq<string>, mine: seq<string>, others: seq<string>) {
    |mine| + |others| == |s| && multiset(mine) + multiset(others) == multiset(s)
  }

  lemma OneMoreSplit(s: seq<string>, mine: seq<string>, others: seq<string>)
    requires s != [] && Divides(s[..|s| - 1], mine, others)
    ensures Divides(s, mine + [s[|s| - 1]], others) && Divides(s, mine, others + [s[|s| - 1]])
  {
    assert s == s[..|s| - 1] + [s[|s| - 1]];
  }

  lemma {:induction false} Splitting(env: Env, h: string, s: seq<string>)
    ensures Divides(s, Those(env, h, s, true), Those(env, h, s, false))
  {
    if s != [] {
      var r := s[..|s| - 1];
      Splitting(env, h, r);
      ThoseLast(env, h, s);
      hide Writes, Those, Divides;
      OneMoreSplit(s, Those(env, h, r, true), Those(env, h, r, false));
    }
  }

  /** The others move up by no more places than there are writers before them. */
  ghost predicate MoveUp(s: seq<string>, mine: seq<string>, others: seq<string>) {
    forall p :: 0 <= p < |others| ==> others[p] in Upto(s, p + |mine| + 1)
  }

  lemma OneMoreMoved(s: seq<string>, mine: seq<string>, others: seq<string>)
    requires s != [] && |mine| + |others| == |s| - 1 && MoveUp(s[..|s| - 1], mine, others)
    ensures MoveUp(s, mine + [s[|s| - 1]], others) && MoveUp(s, mine, others + [s[|s| - 1]])
  {
    var n := |s| - 1;
    forall p | 0 <= p < |others|
      ensures others[p] in Upto(s, p + |mine| + 1) && others[p] in Upto(s, p + |mine| + 2)
    {
      UptoGrows(s, n, p + |mine| + 1, p + |mine| + 1, others[p]);
      UptoGrows(s, n, p + |mine| + 1, p + |mine| + 2, others[p]);
    }
    InFirst(s, n, |others| + |mine| + 1);
    hide Upto;
  }

  lemma {:induction false} MovesUp(env: Env, h: string, s: seq<string>)
    ensures MoveUp(s, Those(env, h, s, true), Those(env, h, s, false))
  {
    if s != [] {
      var r := s[..|s| - 1];
      MovesUp(env, h, r);
      Splitting(env, h, r);
      ThoseLast(env, h, s);
      hide Writes, Those, MoveUp;
      OneMoreMoved(s, Those(env, h, r, true), Those(env, h, r, false));
    }
  }

  lemma InFirst(s: seq<string>, i: nat, n: nat)
    requires i < |s| && i < n
    ensures s[i] in Upto(s, n)
  {
    assert Upto(s, n)[i] == s[i];
  }

  /** The schedule in which string `k` finishes before its rivals: they wait until it
      is done. */
  ghost function Overtaking(env: Env, h: string, opening: seq<string>, k: nat): seq<string>
    requires k < |opening|
  {
    Those(env, h, opening[..k], false) + [opening[k]] + (Those(env, h, opening[..k], true) + opening[k + 1..])
  }

  lemma CountRivals(env: Env, h: string, opening: seq<string>, k: nat)
    requires NoRepeats(opening) && k <= |opening|
    ensures |Those(env, h, opening[..k], true)| == |Rivals(env, h, opening, k)|
  {
    hide Writes;
    var mine := Those(env, h, opening[..k], true);
    PrefixUnique(opening, k);
    Splitting(env, h, opening[..k]);
    PartUnique(mine, Those(env, h, opening[..k], false), opening[..k]);
    var all := SizeOf(mine);
    assert all == Rivals(env, h, opening, k);
  }

  lemma PartUnique(a: seq<string>, b: seq<string>, s: seq<string>)
    requires NoRepeats(s) && multiset(a) + multiset(b) == multiset(s)
    ensures NoRepeats(a)
  {
    assert multiset(a + b) == multiset(s);
    StillDistinct(s, a + b);
    forall i, j | 0 <= i < j < |a| ensures a[i] != a[j] {
      assert (a + b)[i] == a[i] && (a + b)[j] == a[j];
    }
  }

  lemma OvertakingMembers(env: Env, h: string, opening: seq<string>, k: nat)
    requires NoRepeats(opening) && k < |opening|
    ensures var order := Overtaking(env, h, opening, k);
            NoRepeats(order) && SameMembers(order, opening) && |order| == |opening|
  {
    Splitting(env, h, opening[..k]);
    var (mine, others) := (Those(env, h, opening[..k], true), Those(env, h, opening[..k], false));
    var order := Overtaking(env, h, opening, k);
    hide Those, Writes, NoRepeats, SameMembers;
    assert opening == opening[..k] + [opening[k]] + opening[k + 1..];
    assert multiset(order) == multiset(opening);
    SameElements(order, opening);
    StillDistinct(opening, order);
  }

  lemma OvertakingInReach(env: Env, h: string, opening: seq<string>, k: nat)
    requires NoRepeats(opening) && k < |opening| && |Those(env, h, opening[..k], true)| < MAX_CONCURRENT_UPLOADS
    ensures InReach(opening, Overtaking(env, h, opening, k))
  {
    forall p | 0 <= p < |Overtaking(env, h, opening, k)| ensures Overtaking(env, h, opening, k)[p] in Reach(opening, p) {
      OvertakingAt(env, h, opening, k, p);
    }
  }

  lemma OvertakingAt(env: Env, h: string, opening: seq<string>, k: nat, p: nat)
    requires k < |opening| && |Those(env, h, opening[..k], true)| < MAX_CONCURRENT_UPLOADS
    requires p < |Overtaking(env, h, opening, k)|
    ensures Overtaking(env, h, opening, k)[p] in Reach(opening, p)
  {
    hide Writes, Those, Upto;
    Splitting(env, h, opening[..k]);
    var (mine, others) := (Those(env, h, opening[..k], true), Those(env, h, opening[..k], false));
    var u := Overtaking(env, h, opening, k)[p];
    if p < |others| {
      MovesUp(env, h, opening[..k]);
      UptoGrows(opening, k, p + |mine| + 1, p + MAX_CONCURRENT_UPLOADS, others[p]);
    } else if p == |others| {
      InFirst(opening, k, p + MAX_CONCURRENT_UPLOADS);
    } else if p <= k {
      var x := mine[p - |others| - 1];
      assert x in mine && u == x;
      var i := PlaceOf(opening[..k], x);
      InFirst(opening, i, p + MAX_CONCURRENT_UPLOADS);
    } else {
      assert u == opening[k + 1..][p - k - 1];
      InFirst(opening, p, p + MAX_CONCURRENT_UPLOADS);
    }
  }

  lemma Overtakes(env: Env, h: string, opening: seq<string>, k: nat)
    requires NoRepeats(opening) && k < |opening| && Writes(env, h, opening[k])
    requires |Rivals(env, h, opening, k)| < MAX_CONCURRENT_UPLOADS
    ensures Scheduled(opening, Overtaking(env, h, opening, k))
    ensures FirstWriter(env, h, Overtaking(env, h, opening, k)) == Some(opening[k])
  {
    hide Writes, NoRepeats, SameMembers, InReach;
    CountRivals(env, h, opening, k);
    OvertakingMembers(env, h, opening, k);
    OvertakingInReach(env, h, opening, k);
    FirstAfter(env, h, Those(env, h, opening[..k], false), opening[k], Those(env, h, opening[..k], true) + opening[k + 1..]);
  }

  lemma FewerRivals(env: Env, h: string, opening: seq<string>, j: nat, k: nat)
    requires j <= k <= |opening|
    ensures |Rivals(env, h, opening, j)| <= |Rivals(env, h, opening, k)|
  {
    hide Writes;
    forall u | u in opening[..j] ensures u in opening[..k] { InPrefix(opening, j, k, u); }
    Fits(Rivals(env, h, opening, j), Rivals(env, h, opening, k));
  }

  lemma TwoStores(env: Env, items: map<string, Blob>, opening: seq<string>, j: nat, k: nat, h: string)
    requires NoRepeats(opening) && OneStore(env, items, opening)
    requires j < k < |opening| && h !in items && Writes(env, h, opening[j]) && Writes(env, h, opening[k])
    requires |Rivals(env, h, opening, k)| < MAX_CONCURRENT_UPLOADS
    ensures ParseDataUri(env, opening[j]) == ParseDataUri(env, opening[k])
  {
    hide ParseDataUri, NoRepeats, Rivals, Overtaking, Scheduled;
    FewerRivals(env, h, opening, j, k);
    Overtakes(env, h, opening, j);
    Overtakes(env, h, opening, k);
    StoredAt(env, items, Overtaking(env, h, opening, j), h);
    StoredAt(env, items, Overtaking(env, h, opening, k), h);
    hide StoreAll;
  }

  /** Whatever the digest: every schedule of the uploads leaves the same store exactly
      when, for every address not in the store yet, the strings that may overtake all
      its earlier ones hold one picture under one media type. */
  lemma OneStoreExactly(env: Env, items: map<string, Blob>, opening: seq<string>)
    requires NoRepeats(opening)
    ensures OneStore(env, items, opening) <==> OneBlob(env, items, opening)
  {
    hide OneStore, NoRepeats, Writes, Rivals, ParseDataUri;
    if OneBlob(env, items, opening) { OneBlobOneStore(env, items, opening); }
    if OneStore(env, items, opening) {
      forall j, k, h | 0 <= j < k < |opening| && h !in items && Writes(env, h, opening[j]) && Writes(env, h, opening[k])
          && |Rivals(env, h, opening, k)| < MAX_CONCURRENT_UPLOADS
        ensures ParseDataUri(env, opening[j]) == ParseDataUri(env, opening[k])
      {
        TwoStores(env, items, opening, j, k, h);
      }
    }
  }

  /** As long as the pictures uploaded do not collide, one media type is all it takes. */
  lemma OneTypeIsOneBlob(env: Env, items: map<string, Blob>, opening: seq<string>)
    requires Apart(env.digest, Offered(env, Elements(opening)))
    ensures OneType(env, items, opening) <==> OneBlob(env, items, opening)
  {
    hide ParseDataUri, Rivals, Apart, Offered;
    forall j, k, h | 0 <= j < k < |opening| && Writes(env, h, opening[j]) && Writes(env, h, opening[k])
      ensures ParseDataUri(env, opening[j]) == ParseDataUri(env, opening[k]) <==>
              TypeOf(env, opening[j]) == TypeOf(env, opening[k])
    {
      SamePicture(env, h, Elements(opening), opening[j], opening[k]);
    }
  }

  lemma SamePicture(env: Env, h: string, uris: set<string>, u: string, w: string)
    requires Apart(env.digest, Offered(env, uris)) && u in uris && w in uris
    requires Writes(env, h, u) && Writes(env, h, w)
    ensures ParseDataUri(env, u).value.bytes == ParseDataUri(env, w).value.bytes
  {
    hide ParseDataUri;
    assert ParseDataUri(env, u).value.bytes in Offered(env, uris);
    assert ParseDataUri(env, w).value.bytes in Offered(env, uris);
  }

  /** The store after every upload, finishing as the choices say. */
  function AfterUploads(env: Env, items: map<string, Blob>, opening: seq<string>, choices: seq<nat>): map<string, Blob> {
    StoreAll(env, items, Finishes([], opening, choices))
  }

  lemma NoneOpened(opening: seq<string>)
    requires NoRepeats(opening)
    ensures Underway(opening, 0, [], []) && InReach(opening, []) && opening[0..] == opening
  {}

  lemma FinishesAll(opening: seq<string>, choices: seq<nat>)
    requires NoRepeats(opening)
    ensures Scheduled(opening, Finishes([], opening, choices))
  {
    NoneOpened(opening);
    hide NoRepeats, Scheduled, Finishes;
    FinishesInSchedule(opening, 0, [], [], choices);
    assert [] + Finishes([], opening, choices) == Finishes([], opening, choices);
  }

  lemma ChoicesFor(opening: seq<string>, order: seq<string>) returns (choices: seq<nat>)
    requires NoRepeats(opening) && Scheduled(opening, order)
    ensures Finishes([], opening, choices) == order
  {
    NoneOpened(opening);
    hide NoRepeats, Scheduled, Finishes;
    assert order[..0] == [] && order[0..] == order;
    choices := EveryScheduleFinishes(opening, order, 0, [], 0);
  }

  /** Does the store end the same whichever upload finishes first each time? */
  ghost predicate OneResult(env: Env, items: map<string, Blob>, opening: seq<string>) {
    forall a: seq<nat>, b: seq<nat> :: AfterUploads(env, items, opening, a) == AfterUploads(env, items, opening, b)
  }

  /** Whichever upload finishes first each time, the store ends the same exactly when
      the strings that may overtake all the earlier ones of a new address hold one
      picture under one media type; and as long as the pictures uploaded do not
      collide, exactly when they name one media type. */
  lemma OneResultExactly(env: Env, items: map<string, Blob>, opening: seq<string>)
    requires NoRepeats(opening)
    ensures OneResult(env, items, opening) <==> OneBlob(env, items, opening)
    ensures Apart(env.digest, Offered(env, Elements(opening))) ==>
              (OneResult(env, items, opening) <==> OneType(env, items, opening))
  {
    OneStoreExactly(env, items, opening);
    if Apart(env.digest, Offered(env, Elements(opening))) { OneTypeIsOneBlob(env, items, opening); }
    hide NoRepeats, Scheduled, Finishes, OneType, OneBlob, Apart, Offered, StoreAll;
    if OneStore(env, items, opening) {
      forall a: seq<nat>, b: seq<nat>
        ensures AfterUploads(env, items, opening, a) == AfterUploads(env, items, opening, b)
      {
        FinishesAll(opening, a);
        FinishesAll(opening, b);
      }
    }
    if OneResult(env, items, opening) {
      forall a, b | Scheduled(opening, a) && Scheduled(opening, b) ensures StoreAll(env, items, a) == StoreAll(env, items, b) {
        var c := ChoicesFor(opening, a);
        var d := ChoicesFor(opening, b);
        assert AfterUploads(env, items, opening, c) == AfterUploads(env, items, opening, d);
      }
    }
  }

  function DataUriOf(mediaType: string, payload: string): string { "data:" + (mediaType + ";base64" + "," + payload) }

  /** One picture written as a JPEG and as a PNG: the store keeps the type of the one
      that finishes first. */
  lemma TwoTypesOnePicture(env: Env, items: map<string, Blob>, payload: string)
    requires env.decode(payload).Some? && env.decode(payload).value != ""
    requires env.digest(env.decode(payload).value) !in items
    ensures var (jpeg, png) := (DataUriOf("image/jpeg", payload), DataUriOf("image/png", payload));
            var h := env.digest(env.decode(payload).value);
            var (first, second) := (AfterUploads(env, items, [jpeg, png], [0]), AfterUploads(env, items, [jpeg, png], [1]));
            && h in first && first[h].mediaType == "image/jpeg"
            && h in second && second[h].mediaType == "image/png"
            && !OneType(env, items, [jpeg, png])
  {
    var (jpeg, png) := (DataUriOf("image/jpeg", payload), DataUriOf("image/png", payload));
    var h := env.digest(env.decode(payload).value);
    hide DataUriOf, Writes, BlobOf, TypeOf, Finishes, StoreAll, FirstWriter;
    WritesItsType(env, "image/jpeg", payload);
    WritesItsType(env, "image/png", payload);
    EitherFirst(jpeg, png);
    FirstOfTwo(env, h, jpeg, png);
    FirstOfTwo(env, h, png, jpeg);
    StoredAt(env, items, [jpeg, png], h);
    StoredAt(env, items, [png, jpeg], h);
    OneBefore(env, h, jpeg, png);
  }

  lemma WritesItsType(env: Env, mediaType: string, payload: string)
    requires mediaType in {"image/jpeg", "image/png", "image/webp", "image/gif"}
    requires env.decode(payload).Some? && env.decode(payload).value != ""
    ensures var u := DataUriOf(mediaType, payload);
            && Writes(env, env.digest(env.decode(payload).value), u) && TypeOf(env, u) == mediaType
            && BlobOf(env, u).mediaType == mediaType
  {
    DataUriReads(env, mediaType, payload);
    hide ParseDataUri;
  }

  lemma FirstOfTwo(env: Env, h: string, a: string, b: string)
    requires Writes(env, h, a)
    ensures FirstWriter(env, h, [a, b]) == Some(a)
  {
    hide Writes, FirstWriter;
    FirstAfter(env, h, [], a, [b]);
    assert [] + [a] + [b] == [a, b];
  }

  lemma OneBefore(env: Env, h: string, a: string, b: string)
    requires Writes(env, h, a) && Writes(env, h, b)
    ensures |Rivals(env, h, [a, b], 1)| < MAX_CONCURRENT_UPLOADS
  {
    hide Writes;
    assert [a, b][..1] == [a];
    assert Rivals(env, h, [a, b], 1) == {a};
  }

  lemma OpenOne(flight: seq<string>, u: string, rest: seq<string>, choices: seq<nat>)
    requires |flight| < MAX_CONCURRENT_UPLOADS
    ensures Finishes(flight, [u] + rest, choices) == Finishes(flight + [u], rest, choices)
  {
    assert ([u] + rest)[1..] == rest;
  }

  lemma JoinOne(flight: seq<string>, choices: seq<nat>)
    requires flight != []
    ensures var i := Pick(flight, Next(choices));
            Finishes(flight, [], choices) == [flight[i]] + Finishes(Without(flight, i), [], Coming(choices))
  {}

  lemma JoinTwo(a: string, b: string, choice: nat)
    ensures Finishes([a, b], [], [choice]) == if choice == 1 then [b, a] else [a, b]
  {
    hide Finishes;
    var flight := [a, b];
    JoinOne(flight, [choice]);
    var last := Without(flight, Pick(flight, choice));
    assert last == if choice == 1 then [a] else [b];
    JoinOne(last, []);
    assert Without(last, 0) == [] && Coming([choice]) == [];
    assert Finishes([], [], []) == [] by { NothingToJoin(); }
  }

  lemma NothingToJoin()
    ensures Finishes([], [], []) == []
  {}

  lemma EitherFirst(a: string, b: string)
    ensures Finishes([], [a, b], [0]) == [a, b] && Finishes([], [a, b], [1]) == [b, a]
  {
    hide Finishes;
    assert [a] + [b] == [a, b] && [b] + [] == [b] && [] + [a] == [a];
    OpenOne([], a, [b], [0]);
    OpenOne([a], b, [], [0]);
    OpenOne([], a, [b], [1]);
    OpenOne([a], b, [], [1]);
    JoinTwo(a, b, 0);
    JoinTwo(a, b, 1);
  }

  // ---- a world in which all this is so ---------------------------------------------------------

  function Itself(payload: string): Option<string> { Some(payload) }

  function ToyDigest(bytes: string): string { seq(64, _ => if bytes == "a" then 'a' else '0') }

  /** Payloads are their own bytes, and the digest tells one picture from the others. */
  const TOY := Env("/media", Itself, ToyDigest)

  lemma ToyAssumed()
    ensures GoodBase(TOY.base) && Digests(TOY.digest) && Addressed(TOY, map[])
    ensures TOY.decode("a") == Some("a") && TOY.decode("b") == Some("b")
    ensures TOY.digest("a") != TOY.digest("b")
  {
    assert TOY.base[0] != "data:"[0];
    assert ToyDigest("a")[0] == 'a' && ToyDigest("b")[0] == '0';
  }

  lemma ReadsItself(env: Env, mediaType: string, payload: string)
    requires mediaType in {"image/jpeg", "image/png", "image/webp", "image/gif"}
    requires payload != "" && env.decode(payload) == Some(payload)
    ensures ParseDataUri(env, DataUriOf(mediaType, payload)) == Some(DataUri(payload, mediaType))
  {
    DataUriReads(env, mediaType, payload);
    hide ParseDataUri;
  }

  lemma TwoOffered(env: Env, u: string, w: string)
    requires Storable(env, u) && Storable(env, w)
    ensures Offered(env, {u, w}) == {ParseDataUri(env, u).value.bytes, ParseDataUri(env, w).value.bytes}
  {
    hide ParseDataUri;
    assert u in {u, w} && w in {u, w};
  }

  /** Pictures that do not collide never depend on each other. */
  lemma TwoPictures(env: Env, u: string, w: string)
    requires u != w && Storable(env, u) && Storable(env, w)
    requires env.digest(ParseDataUri(env, u).value.bytes) != env.digest(ParseDataUri(env, w).value.bytes)
    ensures OneResult(env, map[], [u, w])
  {
    OneResultExactly(env, map[], [u, w]);
    hide OneResult, ParseDataUri, Rivals;
  }

  ghost predicate BothWays(env: Env, jpeg: string, png: string, other: string) {
    && Apart(env.digest, BytesIn(map[]) + Offered(env, {jpeg, other})) && |Offered(env, {jpeg, other})| == 2
    && !OneResult(env, map[], [jpeg, png]) && OneResult(env, map[], [jpeg, other])
  }

  lemma InAWorld(env: Env, jpeg: string, png: string, other: string)
    requires ParseDataUri(env, jpeg) == Some(DataUri("a", "image/jpeg"))
    requires ParseDataUri(env, other) == Some(DataUri("b", "image/png")) && env.digest("a") != env.digest("b")
    requires AfterUploads(env, map[], [jpeg, png], [0]) != AfterUploads(env, map[], [jpeg, png], [1])
    ensures BothWays(env, jpeg, png, other)
  {
    hide ParseDataUri, AfterUploads, Offered;
    TwoOffered(env, jpeg, other);
    assert BytesIn(map[]) + {"a", "b"} == {"a", "b"};
    assert "a" != "b" && |{"a", "b"}| == 2;
    hide OneResult;
    TwoPictures(env, jpeg, other);
    TwoResults(env, jpeg, png);
  }

  lemma TwoResults(env: Env, u: string, w: string)
    requires AfterUploads(env, map[], [u, w], [0]) != AfterUploads(env, map[], [u, w], [1])
    ensures !OneResult(env, map[], [u, w])
  {
    hide AfterUploads;
  }

  /** What is assumed of the store's world can be met, and there the store depends on
      the order for some payloads and not for others. */
  lemma ToyWorld()
    ensures GoodBase(TOY.base) && Digests(TOY.digest) && Addressed(TOY, map[])
    ensures BothWays(TOY, DataUriOf("image/jpeg", "a"), DataUriOf("image/png", "a"), DataUriOf("image/png", "b"))
  {
    hide BothWays, DataUriOf, ParseDataUri, AfterUploads, GoodBase, Digests, Itself, ToyDigest;
    ToyAssumed();
    ReadsItself(TOY, "image/jpeg", "a");
    ReadsItself(TOY, "image/png", "b");
    TwoTypesOnePicture(TOY, map[], "a");
    InAWorld(TOY, DataUriOf("image/jpeg", "a"), DataUriOf("image/png", "a"), DataUriOf("image/png", "b"));
  }
}
