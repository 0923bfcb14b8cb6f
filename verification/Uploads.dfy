/** Every inline picture of a document moved into the store: collected, uploaded a few
    at a time, and replaced by its reference. */
module Uploads {
  import opened Prelude
  import opened HtmlText
  import opened Media
  import opened UploadOrder

  class Document {
    var value: Json

    constructor (v: Json)
      ensures value == v
    {
      value := v;
    }
  }

  /** The distinct inline strings, in order. */
  function Opening(strings: seq<string>): seq<string> {
    if strings == [] then []
    else
      var (before, s) := (Opening(strings[..|strings| - 1]), strings[|strings| - 1]);
      if IsInline(s) && s !in before then Insert(s, before, LexLe) else before
  }

  lemma {:induction false} OpeningOf(strings: seq<string>)
    ensures Sorted(Opening(strings), LexLe) && NoRepeats(Opening(strings))
    ensures forall u :: u in Opening(strings) <==> u in strings && IsInline(u)
  {
    if strings != [] {
      var n := |strings| - 1;
      OpeningOf(strings[..n]);
      assert strings == strings[..n] + [strings[n]];
      hide LexLe, IsInline;
      if strings[n] !in Opening(strings[..n]) { Inserted(strings[n], Opening(strings[..n])); }
    }
  }

  lemma Inserted(s: string, before: seq<string>)
    requires Sorted(before, LexLe) && NoRepeats(before) && s !in before
    ensures var after := Insert(s, before, LexLe);
            Sorted(after, LexLe) && NoRepeats(after) && forall u :: u in after <==> u in before || u == s
  {
    hide LexLe;
    var after := Insert(s, before, LexLe);
    LexOrder(before + [s]);
    InsertSorts(s, before, before + [s], LexLe);
    InsertKeeps(s, before, LexLe);
    assert multiset(before + [s]) == multiset(after);
    SameElements(after, before + [s]);
    StillDistinct(before + [s], after);
  }

  method CollectInline(v: Json) returns (opening: seq<string>)
    ensures opening == Opening(Strings(v))
  {
    hide LexLe;
    opening := [];
    var all := Strings(v);
    var i := 0;
    while i < |all|
      invariant 0 <= i <= |all| && opening == Opening(all[..i])
    {
      assert all[..i + 1][..i] == all[..i];
      if IsInline(all[i]) && all[i] !in opening { opening := Insert(all[i], opening, LexLe); }
      i := i + 1;
    }
    assert all[..i] == all;
  }

  /** What the finished uploads contribute to the replacement map. */
  ghost predicate Contributed(env: Env, done: seq<string>, stored: map<string, string>) {
    && (forall u :: u in stored <==> u in done && Storable(env, u))
    && (forall u :: u in stored ==> Some(stored[u]) == ReplacementFor(env, u))
  }

  /** Nothing stored is lost or changed. */
  ghost predicate Keeps(before: map<string, Blob>, after: map<string, Blob>) {
    forall h :: h in before ==> h in after && after[h] == before[h]
  }

  /** The store after some of these uploads: nothing lost, nothing misfiled, and
      nothing there that was not there before or uploaded. */
  ghost predicate Grown(env: Env, before: map<string, Blob>, uploads: set<string>, after: map<string, Blob>) {
    && Keeps(before, after)
    && (forall h :: h in after && h !in before ==>
          exists u :: u in uploads && Storable(env, u) && env.digest(ParseDataUri(env, u).value.bytes) == h
                   && after[h] == Blob(ParseDataUri(env, u).value.bytes, ParseDataUri(env, u).value.mediaType))
  }

  /** The digests of these uploads are in the store. */
  ghost predicate AllNamed(env: Env, done: set<string>, items: map<string, Blob>) {
    forall u :: u in done && Storable(env, u) ==> env.digest(ParseDataUri(env, u).value.bytes) in items
  }

  /** The pictures of these uploads are in the store. */
  ghost predicate AllStored(env: Env, done: set<string>, items: map<string, Blob>) {
    forall u :: u in done && Storable(env, u) ==>
      var bytes := ParseDataUri(env, u).value.bytes;
      env.digest(bytes) in items && items[env.digest(bytes)].bytes == bytes
  }

  lemma PutKeeps(env: Env, items: map<string, Blob>, u: string)
    requires Addressed(env, items)
    ensures var after := PutUri(env, items, u);
            Addressed(env, after) && Grown(env, items, {u}, after) && AllNamed(env, {u}, after)
  {
    hide ParseDataUri;
  }

  lemma GrownMore(env: Env, a: map<string, Blob>, s: set<string>, b: map<string, Blob>, t: set<string>, c: map<string, Blob>)
    requires Grown(env, a, s, b) && Grown(env, b, t, c)
    ensures Grown(env, a, s + t, c)
  {
    hide ParseDataUri;
  }

  lemma NamedMore(env: Env, s: set<string>, a: map<string, Blob>, t: set<string>, b: map<string, Blob>)
    requires AllNamed(env, s, a) && Grown(env, a, t, b) && AllNamed(env, t, b)
    ensures AllNamed(env, s + t, b)
  {
    hide ParseDataUri;
  }

  /** What a store holds and what is offered to it do not collide. */
  ghost predicate NoCollision(env: Env, items: map<string, Blob>, uris: set<string>) {
    Apart(env.digest, BytesIn(items) + Offered(env, uris))
  }

  /** A digest in the store names the picture that has it, as long as nothing met so
      far collides. */
  lemma NamedIsStored(env: Env, before: map<string, Blob>, uploads: set<string>, after: map<string, Blob>)
    requires NoCollision(env, before, uploads) && Addressed(env, after)
    requires Grown(env, before, uploads, after) && AllNamed(env, uploads, after)
    ensures AllStored(env, uploads, after)
  {
    hide ParseDataUri;
    var met := BytesIn(before) + Offered(env, uploads);
    forall h | h in after ensures after[h].bytes in met {
      if h in before { assert after[h].bytes in BytesIn(before); }
    }
    forall u | u in uploads && Storable(env, u) ensures ParseDataUri(env, u).value.bytes in met {
      assert ParseDataUri(env, u).value.bytes in Offered(env, uploads);
    }
  }

  /** Whatever the order, the store loses nothing, misfiles nothing, and holds the
      digests of these strings and no others besides what it held. */
  lemma {:induction false} StoreNames(env: Env, items: map<string, Blob>, order: seq<string>)
    requires Addressed(env, items)
    ensures var (uploads, after) := (Elements(order), StoreAll(env, items, order));
            Addressed(env, after) && Grown(env, items, uploads, after) && AllNamed(env, uploads, after)
  {
    hide PutUri, Addressed;
    if order == [] {
      assert Grown(env, items, {}, items) && AllNamed(env, {}, items);
    } else {
      var n := |order| - 1;
      StoreNames(env, items, order[..n]);
      hide Grown, AllNamed;
      var (before, middle) := (Elements(order[..n]), StoreAll(env, items, order[..n]));
      PutKeeps(env, middle, order[n]);
      GrownMore(env, items, before, middle, {order[n]}, PutUri(env, middle, order[n]));
      NamedMore(env, before, middle, {order[n]}, PutUri(env, middle, order[n]));
      assert order == order[..n] + [order[n]];
      assert before + {order[n]} == Elements(order);
    }
  }

  /** Whatever the order, the store loses nothing, misfiles nothing, and gains nothing
      but pictures of these strings; and it holds all of them, as long as no two byte
      strings met collide. */
  lemma StoreGrows(env: Env, items: map<string, Blob>, order: seq<string>)
    requires Addressed(env, items)
    ensures var (uploads, after) := (Elements(order), StoreAll(env, items, order));
            && Addressed(env, after) && Grown(env, items, uploads, after) && AllNamed(env, uploads, after)
            && (NoCollision(env, items, uploads) ==> AllStored(env, uploads, after))
  {
    hide StoreAll, Addressed, NoCollision, Grown, AllNamed, AllStored;
    StoreNames(env, items, order);
    if NoCollision(env, items, Elements(order)) {
      NamedIsStored(env, items, Elements(order), StoreAll(env, items, order));
    }
  }

  /** One upload runs to its end; `fails` says whose store call fails. */
  method Upload(store: MediaStore, uri: string, fails: string -> bool) returns (ok: bool, url: Option<string>)
    modifies store
    ensures ok == !(Storable(store.env, uri) && fails(uri))
    ensures ok ==> url == ReplacementFor(store.env, uri)
    ensures store.items == if ok then PutUri(store.env, old(store.items), uri) else old(store.items)
  {
    hide ParseDataUri, UrlOf;
    match ParseDataUri(store.env, uri) {
      case None => return true, None;
      case Some(data) =>
        if fails(uri) { return false, None; }
        var stored := store.Put(data.bytes, data.mediaType);
        return true, Some(stored);
    }
  }

  /** What holds while uploads run: each opened one is in flight or done, and those
      done contributed their references and their pictures in the order they finished. */
  ghost predicate Running(env: Env, before: map<string, Blob>, opening: seq<string>, next: nat, flight: seq<string>,
                          done: seq<string>, stored: map<string, string>, items: map<string, Blob>, fails: string -> bool)
  {
    && Underway(opening, next, flight, done) && Contributed(env, done, stored) && items == StoreAll(env, before, done)
    && forall u :: u in done && Storable(env, u) ==> !fails(u)
  }

  lemma ContributedMore(env: Env, done: seq<string>, stored: map<string, string>, u: string, url: Option<string>,
                        more: map<string, string>)
    requires Contributed(env, done, stored) && u !in done && url == ReplacementFor(env, u)
    requires more == if url.Some? then stored[u := url.value] else stored
    ensures Contributed(env, done + [u], more)
  {
    hide ParseDataUri, UrlOf;
  }

  lemma NotDone(opening: seq<string>, next: nat, flight: seq<string>, done: seq<string>, i: nat)
    requires Underway(opening, next, flight, done) && i < |flight|
    ensures flight[i] !in done && flight[i] in opening
  {
    assert flight[i] in flight && flight[i] in opening[..next];
  }

  lemma OneMoreDone(env: Env, before: map<string, Blob>, opening: seq<string>, next: nat, flight: seq<string>,
                    done: seq<string>, stored: map<string, string>, items: map<string, Blob>, fails: string -> bool,
                    i: nat, url: Option<string>, more: map<string, string>, after: map<string, Blob>)
    requires Running(env, before, opening, next, flight, done, stored, items, fails) && i < |flight|
    requires !(Storable(env, flight[i]) && fails(flight[i])) && url == ReplacementFor(env, flight[i])
    requires more == if url.Some? then stored[flight[i] := url.value] else stored
    requires after == PutUri(env, items, flight[i])
    ensures Running(env, before, opening, next, Without(flight, i), done + [flight[i]], more, after, fails)
  {
    hide Underway, Storable, ReplacementFor, Contributed, PutUri;
    NotDone(opening, next, flight, done, i);
    Joined(opening, next, flight, done, i);
    ContributedMore(env, done, stored, flight[i], url, more);
    StoreOneMore(env, before, done, flight[i]);
    hide StoreAll, Without;
  }

  /** Wait for one of the uploads in flight, any of them. */
  method JoinNext(store: MediaStore, ghost before: map<string, Blob>, ghost opening: seq<string>, ghost next: nat,
                  flight: seq<string>, ghost done: seq<string>, stored: map<string, string>, choice: nat,
                  fails: string -> bool)
    returns (ok: bool, rest: seq<string>, more: map<string, string>)
    requires flight != [] && Running(store.env, before, opening, next, flight, done, stored, store.items, fails)
    modifies store
    ensures rest == Without(flight, Pick(flight, choice))
    ensures ok == !(Storable(store.env, flight[Pick(flight, choice)]) && fails(flight[Pick(flight, choice)]))
    ensures ok ==>
              Running(store.env, before, opening, next, rest, done + [flight[Pick(flight, choice)]], more, store.items, fails)
    ensures !ok ==> store.items == old(store.items)
  {
    hide Storable, ReplacementFor, Running, Without, PutUri;
    var i := Pick(flight, choice);
    rest, more := Without(flight, i), stored;
    ghost var held := store.items;
    var url;
    ok, url := Upload(store, flight[i], fails);
    if ok {
      if url.Some? { more := stored[flight[i] := url.value]; }
      OneMoreDone(store.env, before, opening, next, flight, done, stored, held, fails, i, url, more, store.items);
    }
  }

  /** The store after the first few uploads to finish. */
  ghost predicate Partly(env: Env, before: map<string, Blob>, order: seq<string>, items: map<string, Blob>) {
    exists n :: 0 <= n <= |order| && items == StoreAll(env, before, order[..n])
  }

  lemma StoppedAfter(env: Env, before: map<string, Blob>, done: seq<string>, more: seq<string>)
    ensures Partly(env, before, done + more, StoreAll(env, before, done))
  {
    hide StoreAll;
    assert (done + more)[..|done|] == done;
  }

  lemma Join(flight: seq<string>, rest: seq<string>, choices: seq<nat>, done: seq<string>)
    requires flight != [] && (rest == [] || |flight| >= MAX_CONCURRENT_UPLOADS)
    ensures var i := Pick(flight, Next(choices));
            done + Finishes(flight, rest, choices) ==
            done + [flight[i]] + Finishes(Without(flight, i), rest, Coming(choices))
  {
    var i := Pick(flight, Next(choices));
    Associative(done, [flight[i]], Finishes(Without(flight, i), rest, Coming(choices)));
  }

  lemma OpenNext(opening: seq<string>, next: nat, flight: seq<string>, choices: seq<nat>)
    requires next < |opening| && |flight| < MAX_CONCURRENT_UPLOADS
    ensures Finishes(flight, opening[next..], choices) == Finishes(flight + [opening[next]], opening[next + 1..], choices)
  {}

  /** Open the uploads in order, at most eight in flight, then wait for the rest. On
      success the store is what the strings leave in the order they finish in; after a
      failed upload it is what the first few of them left. */
  method UploadAll(store: MediaStore, opening: seq<string>, choices: seq<nat>, fails: string -> bool)
    returns (stored: Option<map<string, string>>, peak: nat)
    requires NoRepeats(opening)
    modifies store
    ensures peak <= MAX_CONCURRENT_UPLOADS
    ensures stored.Some? <==> forall u :: u in opening && Storable(store.env, u) ==> !fails(u)
    ensures stored.Some? ==>
              && Contributed(store.env, opening, stored.value)
              && store.items == AfterUploads(store.env, old(store.items), opening, choices)
              && peak == (if |opening| < MAX_CONCURRENT_UPLOADS then |opening| else MAX_CONCURRENT_UPLOADS)
    ensures stored.None? ==> Partly(store.env, old(store.items), Finishes([], opening, choices), store.items)
  {
    hide Storable, Contributed, Finishes, Without, NoRepeats, StoreAll, Partly;
    var env := store.env;
    ghost var before := store.items;
    ghost var order := Finishes([], opening, choices);
    var next, flight, urls: map<string, string>, coming := 0, [], map[], choices;
    ghost var done: seq<string> := [];
    assert Running(env, before, opening, next, flight, done, urls, store.items, fails) by {
      NothingYet(env, before, opening, fails);
    }
    assert opening[next..] == opening && done + order == order;
    hide Running;
    peak := 0;
    while next < |opening|
      invariant Running(env, before, opening, next, flight, done, urls, store.items, fails)
      invariant next <= |opening| && peak == |flight| == if next < 8 then next else 8
      invariant order == done + Finishes(flight, opening[next..], coming)
    {
      if |flight| >= MAX_CONCURRENT_UPLOADS {
        ghost var i := Pick(flight, Next(coming));
        Join(flight, opening[next..], coming, done);
        var ok, rest, more := JoinNext(store, before, opening, next, flight, done, urls, Next(coming), fails);
        if !ok {
          FailedAfter(env, before, opening, next, flight, done, urls, store.items, fails, i);
          StoppedAfter(env, before, done, Finishes(flight, opening[next..], coming));
          return None, peak;
        }
        Shorter(flight, i);
        done, flight, urls, coming := done + [flight[i]], rest, more, Coming(coming);
      }
      OpenNext(opening, next, flight, coming);
      NowOpened(env, before, opening, next, flight, done, urls, store.items, fails);
      flight := flight + [opening[next]];
      next := next + 1;
      peak := |flight|;
    }
    assert opening[next..] == [];
    while flight != []
      invariant Running(env, before, opening, next, flight, done, urls, store.items, fails)
      invariant next == |opening| && order == done + Finishes(flight, [], coming)
      decreases |flight|
    {
      ghost var i := Pick(flight, Next(coming));
      Join(flight, [], coming, done);
      var ok, rest, more := JoinNext(store, before, opening, next, flight, done, urls, Next(coming), fails);
      if !ok {
        FailedAfter(env, before, opening, next, flight, done, urls, store.items, fails, i);
        StoppedAfter(env, before, done, Finishes(flight, [], coming));
        return None, peak;
      }
      Shorter(flight, i);
      done, flight, urls, coming := done + [flight[i]], rest, more, Coming(coming);
    }
    Complete(env, before, opening, done, urls, store.items, fails, coming);
    return Some(urls), peak;
  }

  lemma NothingYet(env: Env, items: map<string, Blob>, opening: seq<string>, fails: string -> bool)
    requires NoRepeats(opening)
    ensures Running(env, items, opening, 0, [], [], map[], items, fails)
  {}

  lemma Shorter(flight: seq<string>, i: nat)
    requires i < |flight|
    ensures |Without(flight, i)| == |flight| - 1
  {}

  lemma NowOpened(env: Env, before: map<string, Blob>, opening: seq<string>, next: nat, flight: seq<string>,
                  done: seq<string>, stored: map<string, string>, items: map<string, Blob>, fails: string -> bool)
    requires Running(env, before, opening, next, flight, done, stored, items, fails)
    requires next < |opening| && |flight| < MAX_CONCURRENT_UPLOADS
    ensures Running(env, before, opening, next + 1, flight + [opening[next]], done, stored, items, fails)
  {
    Opened(opening, next, flight, done);
    hide Underway, Contributed, StoreAll, Storable;
  }

  lemma FailedAfter(env: Env, before: map<string, Blob>, opening: seq<string>, next: nat, flight: seq<string>,
                done: seq<string>, stored: map<string, string>, items: map<string, Blob>, fails: string -> bool, i: nat)
    requires Running(env, before, opening, next, flight, done, stored, items, fails) && i < |flight|
    ensures items == StoreAll(env, before, done) && flight[i] in opening
  {
    NotDone(opening, next, flight, done, i);
    hide Underway, Contributed, StoreAll, Storable;
  }

  lemma Complete(env: Env, before: map<string, Blob>, opening: seq<string>, done: seq<string>, stored: map<string, string>,
                 items: map<string, Blob>, fails: string -> bool, choices: seq<nat>)
    requires Running(env, before, opening, |opening|, [], done, stored, items, fails)
    ensures Contributed(env, opening, stored) && items == StoreAll(env, before, done)
    ensures forall u :: u in opening && Storable(env, u) ==> !fails(u)
    ensures done + Finishes([], [], choices) == done
  {
    AllDone(opening, |opening|, done);
    hide Underway, ReplacementFor, StoreAll, Storable;
    assert done + [] == done;
  }

  /** Move every inline picture of the document into the store. The tree, the count
      and the references are the same whatever order the uploads finish in, and the
      store is what that order leaves; on a failure the tree is as it was. */
  method ExternalizeTree(store: MediaStore, doc: Document, choices: seq<nat>, fails: string -> bool)
    returns (moved: Option<nat>, peak: nat)
    requires Addressed(store.env, store.items)
    modifies store, doc
    ensures peak <= MAX_CONCURRENT_UPLOADS
    ensures Addressed(store.env, store.items)
    ensures Grown(store.env, old(store.items), InlineSet(old(doc.value)), store.items)
    ensures moved.Some? <==> forall u :: u in StorableSet(store.env, old(doc.value)) ==> !fails(u)
    ensures moved.Some? ==>
              && doc.value == Externalized(store.env, old(doc.value))
              && moved.value == |StorableSet(store.env, old(doc.value))|
              && AllNamed(store.env, InlineSet(old(doc.value)), store.items)
              && (NoCollision(store.env, old(store.items), InlineSet(old(doc.value))) ==>
                    AllStored(store.env, InlineSet(old(doc.value)), store.items))
              && store.items == AfterUploads(store.env, old(store.items), Opening(Strings(old(doc.value))), choices)
              && peak == (if |InlineSet(old(doc.value))| < 8 then |InlineSet(old(doc.value))| else 8)
    ensures moved.None? ==> doc.value == old(doc.value)
  {
    hide ParseDataUri, UrlOf, Addressed, Grown, AllNamed, AllStored, NoCollision, Opening, Sorted, Finishes, StoreAll, Partly;
    var opening := CollectInline(doc.value);
    OpeningOf(Strings(doc.value));
    OnlyInline(store.env, doc.value);
    ghost var before := store.items;
    var stored;
    stored, peak := UploadAll(store, opening, choices, fails);
    if stored.None? {
      PartlyGrown(store.env, before, opening, choices, doc.value, store.items);
      return None, peak;
    }
    FullyGrown(store.env, before, opening, choices, doc.value);
    var urls := stored.value;
    MapSame(doc.value, s => if s in urls then Some(urls[s]) else None, s => ReplacementFor(store.env, s));
    assert urls.Keys == StorableSet(store.env, doc.value);
    doc.value := MapStrings(doc.value, s => if s in urls then Some(urls[s]) else None);
    return Some(|urls|), peak;
  }

  lemma GrownInto(env: Env, a: map<string, Blob>, s: set<string>, t: set<string>, b: map<string, Blob>)
    requires Grown(env, a, s, b) && s <= t
    ensures Grown(env, a, t, b)
  {
    hide ParseDataUri;
  }

  lemma PartlyGrown(env: Env, before: map<string, Blob>, opening: seq<string>, choices: seq<nat>, v: Json,
                    items: map<string, Blob>)
    requires Addressed(env, before) && NoRepeats(opening)
    requires forall u :: u in opening <==> u in Strings(v) && IsInline(u)
    requires Partly(env, before, Finishes([], opening, choices), items)
    ensures Addressed(env, items) && Grown(env, before, InlineSet(v), items)
  {
    hide Addressed, NoCollision, Grown, AllNamed, AllStored, NoRepeats, StoreAll, Finishes, IsInline, InReach;
    var order := Finishes([], opening, choices);
    FinishesAll(opening, choices);
    var n :| 0 <= n <= |order| && items == StoreAll(env, before, order[..n]);
    StoreGrows(env, before, order[..n]);
    assert forall u :: u in order[..n] ==> u in order;
    GrownInto(env, before, Elements(order[..n]), InlineSet(v), items);
  }

  lemma FullyGrown(env: Env, before: map<string, Blob>, opening: seq<string>, choices: seq<nat>, v: Json)
    requires Addressed(env, before) && NoRepeats(opening)
    requires forall u :: u in opening <==> u in Strings(v) && IsInline(u)
    ensures var items := AfterUploads(env, before, opening, choices);
            && Addressed(env, items) && Grown(env, before, InlineSet(v), items) && AllNamed(env, InlineSet(v), items)
            && (NoCollision(env, before, InlineSet(v)) ==> AllStored(env, InlineSet(v), items))
    ensures |opening| == |InlineSet(v)|
  {
    hide Addressed, NoCollision, Grown, AllNamed, AllStored, NoRepeats, StoreAll, Finishes, IsInline, InReach;
    var order := Finishes([], opening, choices);
    FinishesAll(opening, choices);
    StoreGrows(env, before, order);
    assert Elements(order) == InlineSet(v);
    var all := SizeOf(opening);
    assert all == InlineSet(v);
  }

  lemma OnlyInline(env: Env, v: Json)
    ensures forall u :: u in StorableSet(env, v) <==> u in InlineSet(v) && Storable(env, u)
  {}

  /** After a successful move every new reference, followed through its last segment,
      finds the very bytes the inline picture held. */
  lemma ReferencesResolve(env: Env, v: Json, items: map<string, Blob>, i: nat)
    requires Digests(env.digest) && GoodBase(env.base) && AllStored(env, InlineSet(v), items)
    requires i < |Strings(v)| && Storable(env, Strings(v)[i])
    ensures |Strings(Externalized(env, v))| == |Strings(v)|
    ensures var hash := MediaHashInRef(Strings(Externalized(env, v))[i]);
            && hash.Some? && hash.value in items
            && items[hash.value].bytes == ParseDataUri(env, Strings(v)[i]).value.bytes
  {
    ExternalizedAt(env, v);
    var data := ParseDataUri(env, Strings(v)[i]).value;
    hide ParseDataUri, MediaHashInRef, GoodBase, Digests, Externalized;
    assert Strings(v)[i] in InlineSet(v) by { assert Strings(v)[i] in Strings(v); }
    UrlResolves(env, data.bytes);
  }

  // ---- what the count counts ----------------------------------------------------------------

  function BytesOf(env: Env, s: string): string { match ParseDataUri(env, s) case None => "" case Some(data) => data.bytes }

  /** The distinct pictures of these strings, as bytes. */
  ghost function Pictures(env: Env, uris: set<string>): set<string> { set u | u in uris :: BytesOf(env, u) }

  ghost predicate OneUriPerPicture(env: Env, uris: set<string>) {
    forall u, w :: u in uris && w in uris && BytesOf(env, u) == BytesOf(env, w) ==> u == w
  }

  /** The count is of distinct strings. It is the number of distinct pictures
      exactly when no picture is written in two ways; otherwise it is more. */
  lemma {:induction false} CountOfPictures(env: Env, uris: set<string>)
    ensures |Pictures(env, uris)| <= |uris|
    ensures |Pictures(env, uris)| == |uris| <==> OneUriPerPicture(env, uris)
    decreases |uris|
  {
    hide BytesOf;
    if uris == {} {
      assert Pictures(env, uris) == {};
    } else {
      var u :| u in uris;
      var rest := uris - {u};
      CountOfPictures(env, rest);
      assert Pictures(env, uris) == Pictures(env, rest) + {BytesOf(env, u)};
      if BytesOf(env, u) in Pictures(env, rest) {
        var w :| w in rest && BytesOf(env, w) == BytesOf(env, u);
        assert Pictures(env, uris) == Pictures(env, rest);
      } else {
        assert |Pictures(env, uris)| == |Pictures(env, rest)| + 1;
        assert OneUriPerPicture(env, uris) <==> OneUriPerPicture(env, rest) by {
          forall w | w in rest ensures BytesOf(env, w) != BytesOf(env, u) {
            assert BytesOf(env, w) in Pictures(env, rest);
          }
        }
      }
    }
  }

  // ---- a single reference ------------------------------------------------------------------

  function ExternalizedRef(env: Env, value: Option<string>): Option<string> {
    if value.None? then None else Some(Replaced(s => ReplacementFor(env, s), value.value))
  }

  /** The scalar door: a one-string tree. */
  method Externalize(store: MediaStore, value: Option<string>, choices: seq<nat>, fails: string -> bool)
    returns (result: Result<Option<string>, ()>)
    requires Addressed(store.env, store.items)
    modifies store
    ensures Addressed(store.env, store.items)
    ensures result == Err(()) <==> value.Some? && Storable(store.env, value.value) && fails(value.value)
    ensures result.Ok? ==> result.value == ExternalizedRef(store.env, value)
    ensures Keeps(old(store.items), store.items)
    ensures result.Ok? && value.Some? ==> AllNamed(store.env, {value.value}, store.items)
  {
    hide ParseDataUri, UrlOf, Addressed, NoCollision, AllStored;
    if value.None? { return Ok(None); }
    var doc := new Document(Str(value.value));
    assert Strings(doc.value) == [value.value];
    var moved, _ := ExternalizeTree(store, doc, choices, fails);
    if moved.None? { return Err(()); }
    return if doc.value.Str? then Ok(Some(doc.value.text)) else Err(());
  }
}
