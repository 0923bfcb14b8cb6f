/** Inline pictures moved out of authored JSON into a content-addressed store. */
module Media {
  import opened Prelude
  import opened HtmlText

  // ---- JSON trees ------------------------------------------------------------------

  datatype Json =
    | Null
    | Bool(value: bool)
    | Number(digits: string)
    | Str(text: string)
    | Arr(items: Entries)
    | Obj(fields: Entries)

  /** The members of an array or an object in document order; the name of an array's
      member is empty. */
  datatype Entries = NoMore | Entry(name: string, value: Json, rest: Entries)

  /** Every string value, in document order. */
  function Strings(v: Json): seq<string> {
    match v
    case Str(s) => [s]
    case Arr(items) => StringsIn(items)
    case Obj(fields) => StringsIn(fields)
    case _ => []
  }

  function StringsIn(es: Entries): seq<string> {
    match es
    case NoMore => []
    case Entry(_, v, rest) => Strings(v) + StringsIn(rest)
  }

  function Replaced(f: string -> Option<string>, s: string): string { if f(s).Some? then f(s).value else s }

  /** The tree with `f` applied to its strings; a string without an image, an object's
      keys and all else stay. */
  function MapStrings(v: Json, f: string -> Option<string>): Json {
    match v
    case Str(s) => Str(Replaced(f, s))
    case Arr(items) => Arr(MapIn(items, f))
    case Obj(fields) => Obj(MapIn(fields, f))
    case _ => v
  }

  function MapIn(es: Entries, f: string -> Option<string>): Entries {
    match es
    case NoMore => NoMore
    case Entry(name, v, rest) => Entry(name, MapStrings(v, f), MapIn(rest, f))
  }

  /** The tree without the text of its strings: its shape, names and other values. */
  function Shape(v: Json): Json {
    match v
    case Str(_) => Str("")
    case Arr(items) => Arr(ShapeIn(items))
    case Obj(fields) => Obj(ShapeIn(fields))
    case _ => v
  }

  function ShapeIn(es: Entries): Entries {
    match es
    case NoMore => NoMore
    case Entry(name, v, rest) => Entry(name, Shape(v), ShapeIn(rest))
  }

  /** A rewrite keeps the shape and every other value, and touches the strings one
      by one in their places. */
  lemma {:induction false} MapKeeps(v: Json, f: string -> Option<string>)
    ensures Shape(MapStrings(v, f)) == Shape(v)
    ensures Strings(MapStrings(v, f)) == Map(s => Replaced(f, s), Strings(v))
  {
    match v {
      case Arr(items) => MapInKeeps(items, f);
      case Obj(fields) => MapInKeeps(fields, f);
      case _ =>
    }
  }

  lemma {:induction false} MapInKeeps(es: Entries, f: string -> Option<string>)
    ensures ShapeIn(MapIn(es, f)) == ShapeIn(es)
    ensures StringsIn(MapIn(es, f)) == Map(s => Replaced(f, s), StringsIn(es))
  {
    match es {
      case NoMore =>
      case Entry(_, v, rest) =>
        MapKeeps(v, f);
        MapInKeeps(rest, f);
        MapConcat(s => Replaced(f, s), Strings(v), StringsIn(rest));
    }
  }

  /** Shape and strings together are the whole tree. */
  lemma {:induction false} ShapeAndStrings(v: Json, w: Json)
    requires Shape(v) == Shape(w) && Strings(v) == Strings(w)
    ensures v == w
  {
    match v {
      case Arr(items) => ShapeAndStringsIn(items, w.items);
      case Obj(fields) => ShapeAndStringsIn(fields, w.fields);
      case _ =>
    }
  }

  lemma {:induction false} ShapeAndStringsIn(es: Entries, fs: Entries)
    requires ShapeIn(es) == ShapeIn(fs) && StringsIn(es) == StringsIn(fs)
    ensures es == fs
  {
    match es {
      case NoMore =>
      case Entry(_, v, rest) =>
        SameCount(v, fs.value);
        assert Strings(v) == StringsIn(es)[..|Strings(v)|] && Strings(fs.value) == StringsIn(fs)[..|Strings(fs.value)|];
        assert StringsIn(rest) == StringsIn(es)[|Strings(v)|..];
        ShapeAndStrings(v, fs.value);
        ShapeAndStringsIn(rest, fs.rest);
    }
  }

  lemma {:induction false} SameCount(v: Json, w: Json)
    requires Shape(v) == Shape(w)
    ensures |Strings(v)| == |Strings(w)|
  {
    match v {
      case Arr(items) => SameCountIn(items, w.items);
      case Obj(fields) => SameCountIn(fields, w.fields);
      case _ =>
    }
  }

  lemma {:induction false} SameCountIn(es: Entries, fs: Entries)
    requires ShapeIn(es) == ShapeIn(fs)
    ensures |StringsIn(es)| == |StringsIn(fs)|
  {
    match es {
      case NoMore =>
      case Entry(_, v, rest) =>
        SameCount(v, fs.value);
        SameCountIn(rest, fs.rest);
    }
  }

  // ---- data URIs and references -------------------------------------------------------

  /** The world of the store: its public base, the base64 decoder and the digest. */
  datatype Env = Env(base: string, decode: string -> Option<string>, digest: string -> string)

  predicate IsHex(c: char) { IsDigit(c) || 'a' <= c <= 'f' || 'A' <= c <= 'F' }

  /** A digest prints 64 hexadecimal digits. */
  ghost predicate Digests(digest: string -> string) {
    forall b :: |digest(b)| == 64 && forall i :: 0 <= i < 64 ==> IsHex(digest(b)[i])
  }

  /** No two of the byte strings met collide. */
  ghost predicate Apart(digest: string -> string, met: set<string>) {
    forall a, b :: a in met && b in met && digest(a) == digest(b) ==> a == b
  }

  function AsciiLower(s: string): string {
    if s == [] then "" else [if 'A' <= s[0] <= 'Z' then s[0] + ('a' - 'A') else s[0]] + AsciiLower(s[1..])
  }

  function Trim(s: string): string { TrimStart(TrimEnd(s, IsSpace), IsSpace) }

  /** The media type a raw header names, if the store keeps it. */
  function NormalizedMediaType(raw: string): Option<string> {
    var head := match Find(raw, ';') case None => raw case Some(i) => raw[..i];
    var ct := AsciiLower(Trim(head));
    if ct in {"image/jpeg", "image/png", "image/webp", "image/gif"} then Some(ct) else None
  }

  datatype DataUri = DataUri(bytes: string, mediaType: string)

  predicate StartsWith(s: string, prefix: string) { |s| >= |prefix| && s[..|prefix|] == prefix }

  predicate EndsWith(s: string, suffix: string) { |s| >= |suffix| && s[|s| - |suffix|..] == suffix }

  /** The cheap test: may this string hold a picture? */
  predicate IsInline(s: string) { StartsWith(s, "data:") }

  function ParseDataUri(env: Env, s: string): (uri: Option<DataUri>)
    ensures uri.Some? ==> IsInline(s) && uri.value.bytes != ""
  {
    if !IsInline(s) then None
    else
      var body := s[5..];
      match Find(body, ',')
      case None => None
      case Some(comma) =>
        var meta := body[..comma];
        if !EndsWith(meta, ";base64") then None
        else
          match (NormalizedMediaType(meta[..|meta| - 7]), env.decode(body[comma + 1..]))
          case (Some(t), Some(bytes)) => if bytes == "" then None else Some(DataUri(bytes, t))
          case _ => None
  }

  predicate Storable(env: Env, s: string) { ParseDataUri(env, s).Some? }

  function UpTo(s: string, c: char): string { match Find(s, c) case None => s case Some(i) => s[..i] }

  function LastSlash(s: string): (at: Option<nat>)
    ensures at.Some? ==> at.value < |s| && s[at.value] == '/' && forall i :: at.value < i < |s| ==> s[i] != '/'
    ensures at.None? ==> '/' !in s
  {
    if s == [] then None
    else if s[|s| - 1] == '/' then Some(|s| - 1)
    else LastSlash(s[..|s| - 1])
  }

  function LastSegment(s: string): string { match LastSlash(s) case None => s case Some(at) => s[at + 1..] }

  /** The content address a reference names: a last path segment of 64 hexadecimal
      digits, query and fragment aside. */
  function MediaHashInRef(ref: string): Option<string> {
    var tail := LastSegment(UpTo(UpTo(ref, '?'), '#'));
    if |tail| == 64 && forall i :: 0 <= i < 64 ==> IsHex(tail[i]) then Some(tail) else None
  }

  function UrlOf(env: Env, bytes: string): string { env.base + "/" + env.digest(bytes) }

  /** The public base is a path of its own: no query, no fragment, no data URI. */
  predicate GoodBase(base: string) { '?' !in base && '#' !in base && !StartsWith(base, "data:") }

  lemma UpToIs(s: string, c: char)
    requires c !in s
    ensures UpTo(s, c) == s
  {
    assert Find(s, c).None?;
  }

  lemma LastSegmentIs(head: string, tail: string, s: string)
    requires '/' !in tail && s == head + "/" + tail
    ensures LastSegment(s) == tail
  {
    forall i | |head| < i < |s| ensures s[i] != '/' {
      NoSlashAt(tail, i - |head| - 1);
    }
    LastSlashAt(s, |head|);
  }

  lemma LastSlashAt(s: string, at: nat)
    requires at < |s| && s[at] == '/' && forall i :: at < i < |s| ==> s[i] != '/'
    ensures LastSlash(s) == Some(at)
  {
    assert '/' in s;
    var found := LastSlash(s);
    hide LastSlash;
    assert found.Some?;
  }

  lemma NoSlashAt(tail: string, i: nat)
    requires '/' !in tail && i < |tail|
    ensures tail[i] != '/'
  {}

  /** A new reference names its bytes, and is no inline picture. */
  lemma UrlResolves(env: Env, bytes: string)
    requires GoodBase(env.base) && Digests(env.digest)
    ensures MediaHashInRef(UrlOf(env, bytes)) == Some(env.digest(bytes))
    ensures !IsInline(UrlOf(env, bytes)) && !Storable(env, UrlOf(env, bytes))
  {
    hide LastSegment, UpTo;
    var url, h := UrlOf(env, bytes), env.digest(bytes);
    assert |h| == 64 && forall i :: 0 <= i < 64 ==> IsHex(h[i]);
    HexOnly(h);
    assert '?' !in url && '#' !in url;
    UpToIs(url, '?');
    UpToIs(url, '#');
    LastSegmentIs(env.base, h, url);
    NotInline(env.base, url);
  }

  lemma HexOnly(h: string)
    requires forall i :: 0 <= i < |h| ==> IsHex(h[i])
    ensures '?' !in h && '#' !in h && '/' !in h
  {}

  lemma NotInline(base: string, url: string)
    requires !StartsWith(base, "data:") && |url| > |base| && url[..|base|] == base && url[|base|] == '/'
    ensures !IsInline(url)
  {
    if |base| >= 5 {
      assert url[..5] == base[..5];
    } else if |url| >= 5 {
      assert url[..5][|base|] == '/';
    }
  }

  /** A data URI of a kept type reads back to its type and its bytes; so a picture
      written inline with any encoder the decoder undoes is storable, unless it is
      empty. */
  lemma DataUriReads(env: Env, mediaType: string, payload: string)
    requires mediaType in {"image/jpeg", "image/png", "image/webp", "image/gif"}
    ensures ParseDataUri(env, "data:" + (mediaType + ";base64" + "," + payload)) ==
            match env.decode(payload)
            case None => None
            case Some(bytes) => if bytes == "" then None else Some(DataUri(bytes, mediaType))
  {
    hide NormalizedMediaType;
    var meta := mediaType + ";base64";
    var body := meta + "," + payload;
    var uri := "data:" + body;
    assert uri[..5] == "data:" && uri[5..] == body;
    KeptType(mediaType);
    assert forall i :: 0 <= i < |meta| ==> body[i] == meta[i];
    assert body[|meta|] == ',' && ',' !in meta;
    FindIs(body, ',', |meta|);
    hide Find;
    assert body[..|meta|] == meta && body[|meta| + 1..] == payload;
    assert meta[|meta| - 7..] == ";base64" && meta[..|meta| - 7] == mediaType;
  }

  lemma KeptType(mediaType: string)
    requires mediaType in {"image/jpeg", "image/png", "image/webp", "image/gif"}
    ensures NormalizedMediaType(mediaType) == Some(mediaType) && ',' !in mediaType
  {
    hide Find, Trim, AsciiLower;
    assert ';' !in mediaType && ',' !in mediaType;
    var n := |mediaType| - 1;
    assert 'a' <= mediaType[0] <= 'z' && 'a' <= mediaType[n] <= 'z';
    assert forall i :: 0 <= i < |mediaType| ==> !('A' <= mediaType[i] <= 'Z');
    LettersStay(mediaType);
    Small(mediaType);
  }

  lemma LettersStay(s: string)
    requires s != [] && 'a' <= s[0] <= 'z' && 'a' <= s[|s| - 1] <= 'z'
    ensures Trim(s) == s
  {
    assert !IsSpace(s[0]) && !IsSpace(s[|s| - 1]);
    hide IsSpace;
  }

  lemma {:induction false} Small(s: string)
    requires forall i :: 0 <= i < |s| ==> !('A' <= s[i] <= 'Z')
    ensures AsciiLower(s) == s
  {
    if s != [] { Small(s[1..]); }
  }

  /** The media type a header names is read whatever its case, the blanks around it and the
      parameters behind it. */
  lemma MediaTypeReads(raw: string, lead: string, named: string, tail: string, mediaType: string)
    requires mediaType in {"image/jpeg", "image/png", "image/webp", "image/gif"} && AsciiLower(named) == mediaType
    requires All(lead, IsSpace) && All(tail, IsSpace) && ';' !in lead + named + tail
    requires raw == lead + named + tail || (exists more :: raw == lead + named + tail + ";" + more)
    ensures NormalizedMediaType(raw) == Some(mediaType)
  {
    hide Find, Trim, AsciiLower;
    var head := lead + named + tail;
    if raw == head {
      assert Find(raw, ';').None?;
    } else {
      var more :| raw == head + ";" + more;
      FindIs(raw, ';', |head|);
      assert raw[..|head|] == head;
    }
    TrimsTo(lead, named, tail, mediaType);
  }

  lemma TrimsTo(lead: string, named: string, tail: string, mediaType: string)
    requires mediaType in {"image/jpeg", "image/png", "image/webp", "image/gif"} && AsciiLower(named) == mediaType
    requires All(lead, IsSpace) && All(tail, IsSpace)
    ensures Trim(lead + named + tail) == named
  {
    hide IsSpace, TrimEnd, TrimStart;
    var all := lead + named + tail;
    LoweredLetters(named);
    EndsInLetters(mediaType);
    var k := TrimmedEnd(all, IsSpace);
    assert k == |lead| + |named| by { EndOfTrim(lead, named, tail, k); }
    assert all[..k] == lead + named;
    var j := TrimmedStart(lead + named, IsSpace);
    StartOfTrim(lead, named, j);
    assert (lead + named)[j..] == named;
  }

  lemma EndOfTrim(lead: string, named: string, tail: string, k: nat)
    requires named != "" && !IsSpace(named[|named| - 1]) && All(tail, IsSpace)
    requires var all := lead + named + tail;
             k <= |all| && All(all[k..], IsSpace) && (k > 0 ==> !IsSpace(all[k - 1]))
    ensures k == |lead| + |named|
  {
    hide IsSpace;
    var all := lead + named + tail;
    var n := |lead| + |named|;
    assert all[n - 1] == named[|named| - 1];
    forall i | k <= i < |all| ensures IsSpace(all[i]) { assert all[k..][i - k] == all[i]; }
    forall i | n <= i < |all| ensures IsSpace(all[i]) { assert all[i] == tail[i - n]; }
  }

  lemma StartOfTrim(lead: string, named: string, j: nat)
    requires named != "" && !IsSpace(named[0]) && All(lead, IsSpace)
    requires var all := lead + named; j <= |all| && All(all[..j], IsSpace) && (j < |all| ==> !IsSpace(all[j]))
    ensures j == |lead|
  {
    hide IsSpace;
    var all := lead + named;
    assert all[|lead|] == named[0];
    forall i | 0 <= i < j ensures IsSpace(all[i]) { assert all[..j][i] == all[i]; }
    forall i | 0 <= i < |lead| ensures IsSpace(all[i]) { assert all[i] == lead[i]; }
  }

  lemma {:induction false} LoweredLetters(s: string)
    ensures |AsciiLower(s)| == |s|
    ensures forall i :: 0 <= i < |s| ==> AsciiLower(s)[i] == if 'A' <= s[i] <= 'Z' then s[i] + ('a' - 'A') else s[i]
  {
    if s != [] { LoweredLetters(s[1..]); }
  }

  lemma EndsInLetters(mediaType: string)
    requires mediaType in {"image/jpeg", "image/png", "image/webp", "image/gif"}
    ensures 'a' <= mediaType[0] <= 'z' && 'a' <= mediaType[|mediaType| - 1] <= 'z'
    ensures forall c: char :: 'a' <= c <= 'z' || 'A' <= c <= 'Z' ==> !IsSpace(c)
  {}

  /** A string is a picture exactly if it is a data URI in base64 whose header names a kept
      type and whose payload decodes to some bytes. */
  lemma PictureExactly(env: Env, s: string, bytes: string, mediaType: string)
    ensures ParseDataUri(env, s) == Some(DataUri(bytes, mediaType)) <==>
            exists raw, payload ::
              && s == "data:" + (raw + (";base64," + payload)) && ',' !in raw
              && NormalizedMediaType(raw) == Some(mediaType) && env.decode(payload) == Some(bytes) && bytes != ""
    ensures ParseDataUri(env, s) == Some(DataUri(bytes, mediaType)) ==>
              mediaType in {"image/jpeg", "image/png", "image/webp", "image/gif"}
  {
    FourTypes();
    hide NormalizedMediaType, Find;
    if ParseDataUri(env, s) == Some(DataUri(bytes, mediaType)) {
      var body := s[5..];
      var comma := Find(body, ',').value;
      var meta := body[..comma];
      var (raw, payload) := (meta[..|meta| - 7], body[comma + 1..]);
      assert body == meta + "," + payload && meta == raw + ";base64";
      assert s == "data:" + (raw + (";base64," + payload));
      assert ',' !in raw;
    }
    if raw, payload :|
      && s == "data:" + (raw + (";base64," + payload)) && ',' !in raw
      && NormalizedMediaType(raw) == Some(mediaType) && env.decode(payload) == Some(bytes) && bytes != ""
    {
      PictureReads(env, s, raw, payload);
    }
  }

  lemma FourTypes()
    ensures forall raw :: NormalizedMediaType(raw).Some? ==>
                            NormalizedMediaType(raw).value in {"image/jpeg", "image/png", "image/webp", "image/gif"}
  {
    hide Find, Trim, AsciiLower;
  }

  lemma PictureReads(env: Env, s: string, raw: string, payload: string)
    requires s == "data:" + (raw + (";base64," + payload)) && ',' !in raw
    ensures ParseDataUri(env, s) ==
            match (NormalizedMediaType(raw), env.decode(payload))
            case (Some(t), Some(bytes)) => if bytes == "" then None else Some(DataUri(bytes, t))
            case _ => None
  {
    hide NormalizedMediaType;
    var body := raw + (";base64," + payload);
    assert s[..5] == "data:" && s[5..] == body;
    var n := |raw| + 7;
    assert body[n] == ',' && forall i :: 0 <= i < n ==> body[i] == (raw + ";base64")[i];
    FindIs(body, ',', n);
    hide Find;
    assert body[..n] == raw + ";base64" && body[n + 1..] == payload;
    assert (raw + ";base64")[|raw|..] == ";base64" && (raw + ";base64")[..|raw|] == raw;
  }

  /** A reference names the hash of its last path segment whatever query or fragment follows,
      and names none unless that segment is 64 hexadecimal digits. */
  lemma ReferenceNames(head: string, tail: string, query: string, fragment: string)
    requires '?' !in head + tail && '#' !in head + tail && '/' !in tail
    ensures MediaHashInRef(head + "/" + tail) ==
            if |tail| == 64 && forall i :: 0 <= i < 64 ==> IsHex(tail[i]) then Some(tail) else None
    ensures MediaHashInRef(head + "/" + tail + ("?" + query)) == MediaHashInRef(head + "/" + tail)
    ensures MediaHashInRef(head + "/" + tail + ("#" + fragment)) == MediaHashInRef(head + "/" + tail) || '?' in fragment
  {
    hide LastSegment, UpTo, IsHex;
    var ref := head + "/" + tail;
    assert '?' !in ref && '#' !in ref;
    UpToIs(ref, '?');
    UpToIs(ref, '#');
    LastSegmentIs(head, tail, ref);
    UpToFirst(ref, '?', query);
    UpToFirst(ref, '#', fragment);
    if '?' !in fragment {
      assert '?' !in ref + ("#" + fragment);
      UpToIs(ref + ("#" + fragment), '?');
    }
  }

  lemma UpToFirst(s: string, c: char, more: string)
    requires c !in s
    ensures UpTo(s + ([c] + more), c) == s
  {
    var all := s + ([c] + more);
    assert forall i :: 0 <= i < |s| ==> all[i] == s[i];
    FindIs(all, c, |s|);
    assert all[..|s|] == s;
  }

  // ---- the store -----------------------------------------------------------------------

  datatype Blob = Blob(bytes: string, mediaType: string)

  /** The store after a blob is offered: a known digest keeps its first blob, media type
      included. */
  function PutBlob(env: Env, items: map<string, Blob>, bytes: string, mediaType: string): map<string, Blob> {
    var h := env.digest(bytes);
    if h in items then items else items[h := Blob(bytes, mediaType)]
  }

  /** Every blob lies under the digest of its bytes. */
  ghost predicate Addressed(env: Env, items: map<string, Blob>) {
    forall h :: h in items ==> env.digest(items[h].bytes) == h
  }

  ghost function BytesIn(items: map<string, Blob>): set<string> { set h | h in items :: items[h].bytes }

  class MediaStore {
    const env: Env
    var items: map<string, Blob>

    constructor (env: Env)
      ensures this.env == env && items == map[]
    {
      this.env := env;
      items := map[];
    }

    method Put(bytes: string, mediaType: string) returns (url: string)
      modifies this
      ensures items == PutBlob(env, old(items), bytes, mediaType) && url == UrlOf(env, bytes)
    {
      var h := env.digest(bytes);
      if h !in items {
        items := items[h := Blob(bytes, mediaType)];
      }
      url := env.base + "/" + h;
    }
  }

  /** Storing keeps the addresses and loses nothing. The new reference resolves, and to
      its own bytes exactly when no other bytes lie under that digest: so always, as
      long as no two byte strings met collide. */
  lemma PutResolves(env: Env, items: map<string, Blob>, bytes: string, mediaType: string)
    requires Addressed(env, items) && Digests(env.digest) && GoodBase(env.base)
    ensures var (h, after) := (env.digest(bytes), PutBlob(env, items, bytes, mediaType));
            && Addressed(env, after)
            && (forall k :: k in items ==> k in after && after[k] == items[k])
            && MediaHashInRef(UrlOf(env, bytes)) == Some(h) && h in after
            && (after[h].bytes == bytes <==> (h in items ==> items[h].bytes == bytes))
            && (Apart(env.digest, BytesIn(items) + {bytes}) ==> after[h].bytes == bytes)
  {
    UrlResolves(env, bytes);
    hide MediaHashInRef, UrlOf, GoodBase;
    var h := env.digest(bytes);
    if h in items { assert items[h].bytes in BytesIn(items) + {bytes}; }
  }

  // ---- externalizing a tree --------------------------------------------------------------

  function ReplacementFor(env: Env, s: string): Option<string> {
    match ParseDataUri(env, s)
    case None => None
    case Some(data) => Some(UrlOf(env, data.bytes))
  }

  /** The tree with every storable picture replaced by its reference. */
  function Externalized(env: Env, v: Json): Json { MapStrings(v, s => ReplacementFor(env, s)) }

  function StorableSet(env: Env, v: Json): set<string> { set s | s in Strings(v) && Storable(env, s) }

  function InlineSet(v: Json): set<string> { set s | s in Strings(v) && IsInline(s) }

  lemma MapSame(v: Json, f: string -> Option<string>, g: string -> Option<string>)
    requires forall s :: s in Strings(v) ==> f(s) == g(s)
    ensures MapStrings(v, f) == MapStrings(v, g)
  {
    MapKeeps(v, f);
    MapKeeps(v, g);
    assert Map(s => Replaced(f, s), Strings(v)) == Map(s => Replaced(g, s), Strings(v)) by {
      forall i | 0 <= i < |Strings(v)| ensures Replaced(f, Strings(v)[i]) == Replaced(g, Strings(v)[i]) {
        assert Strings(v)[i] in Strings(v);
      }
    }
    ShapeAndStrings(MapStrings(v, f), MapStrings(v, g));
  }

  /** What a rewritten tree says at each place. */
  lemma ExternalizedAt(env: Env, v: Json)
    ensures Shape(Externalized(env, v)) == Shape(v) && |Strings(Externalized(env, v))| == |Strings(v)|
    ensures forall i :: 0 <= i < |Strings(v)| ==>
              var (s, t) := (Strings(v)[i], Strings(Externalized(env, v))[i]);
              t == match ParseDataUri(env, s) case None => s case Some(data) => UrlOf(env, data.bytes)
  {
    MapKeeps(v, s => ReplacementFor(env, s));
    hide ParseDataUri, UrlOf;
  }

  /** No storable picture is left anywhere in the tree. */
  lemma NothingStorableLeft(env: Env, v: Json)
    requires GoodBase(env.base) && Digests(env.digest)
    ensures StorableSet(env, Externalized(env, v)) == {}
  {
    ExternalizedAt(env, v);
    hide ParseDataUri, UrlOf, GoodBase, Externalized;
    var w := Externalized(env, v);
    forall s | s in Strings(w) ensures !Storable(env, s) {
      var i :| 0 <= i < |Strings(w)| && Strings(w)[i] == s;
      if Storable(env, Strings(v)[i]) {
        UrlResolves(env, ParseDataUri(env, Strings(v)[i]).value.bytes);
      }
    }
  }

  lemma NothingToMove(env: Env, v: Json)
    requires StorableSet(env, v) == {}
    ensures Externalized(env, v) == v
  {
    ExternalizedAt(env, v);
    hide ParseDataUri, UrlOf, Externalized;
    var w := Externalized(env, v);
    forall i | 0 <= i < |Strings(v)| ensures Strings(w)[i] == Strings(v)[i] {
      assert Strings(v)[i] !in StorableSet(env, v);
      assert Strings(v)[i] in Strings(v);
    }
    assert Strings(w) == Strings(v);
    ShapeAndStrings(w, v);
  }

  /** Externalizing again changes nothing. */
  lemma ExternalizingTwiceIsOnce(env: Env, v: Json)
    requires GoodBase(env.base) && Digests(env.digest)
    ensures Externalized(env, Externalized(env, v)) == Externalized(env, v)
  {
    hide Externalized;
    NothingStorableLeft(env, v);
    NothingToMove(env, Externalized(env, v));
  }
}
