/** The export archive of a quest: its record with every media reference rewritten to
    a path inside the archive, and the files those paths name. */
module Export {
  import opened Prelude
  import opened Media
  import opened Uploads

  function ExtensionFor(mediaType: string): (ext: string)
    ensures ext != "" && '/' !in ext && '?' !in ext && '#' !in ext
  {
    if mediaType == "image/jpeg" then "jpg"
    else if mediaType == "image/png" then "png"
    else if mediaType == "image/webp" then "webp"
    else if mediaType == "image/gif" then "gif"
    else "bin"
  }

  /** Where the blob of this address lies in the archive. */
  function PathOf(items: map<string, Blob>, hash: string): string
    requires hash in items
  {
    "media" + "/" + (hash + "." + ExtensionFor(items[hash].mediaType))
  }

  /** The hashes a tree refers to. */
  function HashesIn(v: Json): set<string> {
    set s | s in Strings(v) && MediaHashInRef(s).Some? :: MediaHashInRef(s).value
  }

  function PathFor(items: map<string, Blob>, s: string): Option<string> {
    var hash := MediaHashInRef(s);
    if hash.Some? && hash.value in items then Some(PathOf(items, hash.value)) else None
  }

  function Rewritten(items: map<string, Blob>, v: Json): Json { MapStrings(v, s => PathFor(items, s)) }

  method CollectHashes(v: Json) returns (hashes: set<string>)
    ensures hashes == HashesIn(v)
  {
    hide MediaHashInRef;
    hashes := {};
    var all := Strings(v);
    var i := 0;
    while i < |all|
      invariant 0 <= i <= |all|
      invariant hashes == set s | s in all[..i] && MediaHashInRef(s).Some? :: MediaHashInRef(s).value
    {
      var hash := MediaHashInRef(all[i]);
      assert all[..i + 1] == all[..i] + [all[i]];
      if hash.Some? { hashes := hashes + {hash.value}; }
      i := i + 1;
    }
    assert all[..i] == all;
  }

  /** Fetch the blobs in whatever order they come; a missing one is skipped. */
  method Fetch(items: map<string, Blob>, hashes: set<string>) returns (fetched: seq<string>)
    ensures NoRepeats(fetched) && forall h :: h in fetched <==> h in hashes && h in items
  {
    fetched := [];
    var left := hashes;
    while left != {}
      invariant left <= hashes && NoRepeats(fetched)
      invariant forall h :: h in fetched <==> h in hashes && h !in left && h in items
      decreases |left|
    {
      var hash :| hash in left;
      if hash in items { fetched := fetched + [hash]; }
      left := left - {hash};
    }
  }

  /** The files in this order, and the path of each hash. */
  method LayOut(items: map<string, Blob>, order: seq<string>)
    returns (files: seq<(string, string)>, paths: map<string, string>)
    requires forall j :: 0 <= j < |order| ==> order[j] in items
    ensures |files| == |order|
    ensures forall j :: 0 <= j < |order| ==> files[j] == (PathOf(items, order[j]), items[order[j]].bytes)
    ensures forall h :: h in paths <==> h in order
    ensures forall h :: h in paths ==> h in items && paths[h] == PathOf(items, h)
  {
    hide PathOf;
    files, paths := [], map[];
    var k := 0;
    while k < |order|
      invariant 0 <= k <= |order| && |files| == k
      invariant forall j :: 0 <= j < k ==> files[j] == (PathOf(items, order[j]), items[order[j]].bytes)
      invariant forall h :: h in paths <==> h in order[..k]
      invariant forall h :: h in paths ==> h in items && paths[h] == PathOf(items, h)
    {
      var hash := order[k];
      assert order[..k + 1] == order[..k] + [hash];
      files := files + [(PathOf(items, hash), items[hash].bytes)];
      paths := paths[hash := PathOf(items, hash)];
      k := k + 1;
    }
    assert order[..k] == order;
  }

  /** Fetch, lay the files out in the order of their hashes — the same archive
      whatever order the blobs came in — and rewrite the references that have a file. */
  method BuildExport(items: map<string, Blob>, doc: Document) returns (files: seq<(string, string)>, ghost order: seq<string>)
    modifies doc
    ensures doc.value == Rewritten(items, old(doc.value))
    ensures Sorted(order, LexLe) && NoRepeats(order)
    ensures forall h :: h in order <==> h in HashesIn(old(doc.value)) && h in items
    ensures |files| == |order|
    ensures forall k :: 0 <= k < |files| ==> order[k] in items && files[k] == (PathOf(items, order[k]), items[order[k]].bytes)
  {
    hide MediaHashInRef, LexLe, PathOf, HashesIn, Rewritten, Sort, NoRepeats, Sorted;
    var hashes := CollectHashes(doc.value);
    var fetched := Fetch(items, hashes);
    var sorted := Sort(fetched, LexLe);
    InHashOrder(fetched, sorted);
    order := sorted;
    var paths;
    files, paths := LayOut(items, sorted);
    var f := (s: string) =>
      var hash := MediaHashInRef(s); if hash.Some? && hash.value in paths then Some(paths[hash.value]) else None;
    SameRewrite(items, doc.value, paths, f);
    doc.value := MapStrings(doc.value, f);
  }

  lemma InHashOrder(fetched: seq<string>, sorted: seq<string>)
    requires NoRepeats(fetched) && sorted == Sort(fetched, LexLe)
    ensures Sorted(sorted, LexLe) && NoRepeats(sorted) && SameMembers(sorted, fetched)
  {
    hide LexLe;
    assert multiset(sorted) == multiset(fetched) by { SortKeeps(fetched, LexLe); }
    SameElements(sorted, fetched);
    LexOrder(fetched);
    SortSorts(fetched, LexLe);
    StillDistinct(fetched, sorted);
  }

  lemma SameRewrite(items: map<string, Blob>, v: Json, paths: map<string, string>, f: string -> Option<string>)
    requires forall h :: h in paths <==> h in HashesIn(v) && h in items
    requires forall h :: h in paths ==> h in items && paths[h] == PathOf(items, h)
    requires forall s :: f(s) == (var hash := MediaHashInRef(s);
                                  if hash.Some? && hash.value in paths then Some(paths[hash.value]) else None)
    ensures MapStrings(v, f) == Rewritten(items, v)
  {
    hide MediaHashInRef, PathOf;
    forall s | s in Strings(v) ensures f(s) == PathFor(items, s) {
      if MediaHashInRef(s).Some? { assert MediaHashInRef(s).value in HashesIn(v); }
    }
    MapSame(v, f, s => PathFor(items, s));
  }

  /** A picture lies in the archive's media folder under its hash, with the extension of its
      type. */
  lemma FileNames(items: map<string, Blob>, hash: string)
    requires hash in items
    ensures items[hash].mediaType == "image/jpeg" ==> PathOf(items, hash) == "media/" + hash + ".jpg"
    ensures items[hash].mediaType == "image/png" ==> PathOf(items, hash) == "media/" + hash + ".png"
    ensures items[hash].mediaType == "image/webp" ==> PathOf(items, hash) == "media/" + hash + ".webp"
    ensures items[hash].mediaType == "image/gif" ==> PathOf(items, hash) == "media/" + hash + ".gif"
  {
    assert forall ext: string :: "media" + "/" + (hash + "." + ext) == "media/" + hash + ("." + ext);
    assert "." + "jpg" == ".jpg" && "." + "png" == ".png" && "." + "webp" == ".webp" && "." + "gif" == ".gif";
  }

  /** A reference whose blob is in the store reads as the path of its file, any other string
      as it was; so what the record shows is in the archive. */
  lemma ReferencesNameFiles(items: map<string, Blob>, v: Json, i: nat)
    requires i < |Strings(v)|
    ensures Shape(Rewritten(items, v)) == Shape(v) && |Strings(Rewritten(items, v))| == |Strings(v)|
    ensures var (s, t) := (Strings(v)[i], Strings(Rewritten(items, v))[i]);
            if MediaHashInRef(s).Some? && MediaHashInRef(s).value in items
            then t == PathOf(items, MediaHashInRef(s).value) && MediaHashInRef(s).value in HashesIn(v)
            else t == s
  {
    RewrittenAt(items, v);
    hide MediaHashInRef, PathOf;
    assert Strings(v)[i] in Strings(v);
  }

  // ---- what the archive leaves pointing outside ------------------------------------------

  /** A path inside the archive is no media reference: its last segment carries an
      extension. */
  lemma PathIsNoReference(items: map<string, Blob>, hash: string)
    requires hash in items && |hash| == 64 && forall i :: 0 <= i < 64 ==> IsHex(hash[i])
    ensures MediaHashInRef(PathOf(items, hash)).None?
  {
    hide LastSegment, UpTo, ExtensionFor;
    HexOnly(hash);
    var ext := ExtensionFor(items[hash].mediaType);
    var name := hash + "." + ext;
    var path := PathOf(items, hash);
    assert '/' !in name && '?' !in name && '#' !in name;
    assert '?' !in path && '#' !in path;
    UpToIs(path, '?');
    UpToIs(path, '#');
    LastSegmentIs("media", name, path);
  }

  lemma HashIsHex(s: string)
    requires MediaHashInRef(s).Some?
    ensures |MediaHashInRef(s).value| == 64 && forall i :: 0 <= i < 64 ==> IsHex(MediaHashInRef(s).value[i])
  {
    hide LastSegment, UpTo, IsHex;
  }

  lemma RewrittenAt(items: map<string, Blob>, v: Json)
    ensures Shape(Rewritten(items, v)) == Shape(v) && |Strings(Rewritten(items, v))| == |Strings(v)|
    ensures forall i :: 0 <= i < |Strings(v)| ==>
              Strings(Rewritten(items, v))[i] == Replaced(s => PathFor(items, s), Strings(v)[i])
  {
    MapKeeps(v, s => PathFor(items, s));
    hide PathFor;
  }

  /** The rewritten record still refers to exactly the hashes whose blob is missing:
      every other reference now names a file of the archive. */
  lemma OnlyOrphansRemain(items: map<string, Blob>, v: Json)
    ensures HashesIn(Rewritten(items, v)) == set h | h in HashesIn(v) && h !in items
  {
    RewrittenAt(items, v);
    hide MediaHashInRef, PathOf, Rewritten;
    var w := Rewritten(items, v);
    forall h ensures h in HashesIn(w) <==> h in HashesIn(v) && h !in items {
      if h in HashesIn(w) {
        var t :| t in Strings(w) && MediaHashInRef(t) == Some(h);
        var i :| 0 <= i < |Strings(w)| && Strings(w)[i] == t;
        StaysReference(items, Strings(v)[i]);
        assert Strings(v)[i] in Strings(v);
      }
      if h in HashesIn(v) && h !in items {
        var s :| s in Strings(v) && MediaHashInRef(s) == Some(h);
        var i :| 0 <= i < |Strings(v)| && Strings(v)[i] == s;
        assert Strings(w)[i] == s && Strings(w)[i] in Strings(w);
      }
    }
  }

  lemma StaysReference(items: map<string, Blob>, s: string)
    ensures var t := Replaced(x => PathFor(items, x), s);
            MediaHashInRef(t).Some? ==> t == s && MediaHashInRef(s).value !in items
  {
    hide MediaHashInRef, PathOf;
    if MediaHashInRef(s).Some? && MediaHashInRef(s).value in items {
      HashIsHex(s);
      PathIsNoReference(items, MediaHashInRef(s).value);
    }
  }
}
