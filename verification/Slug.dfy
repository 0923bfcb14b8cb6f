/** The address of an announcement's page, from which its post can be found again. */
module Slug {
  import opened Prelude

  // ---- the form of a slug --------------------------------------------------------

  predicate IsLower(c: char) { 'a' <= c <= 'z' || IsDigit(c) }

  predicate IsWord(s: string) { s != [] && forall i :: 0 <= i < |s| ==> IsLower(s[i]) }

  /** Lowercase Latin letters and digits, in words joined by single hyphens. */
  predicate IsSlug(s: string) {
    && (forall i :: 0 <= i < |s| ==> IsLower(s[i]) || s[i] == '-')
    && (s != [] ==> s[0] != '-' && s[|s| - 1] != '-')
    && (forall i :: 0 <= i < |s| - 1 ==> !(s[i] == '-' && s[i + 1] == '-'))
  }

  // ---- transliteration --------------------------------------------------------------

  function Latin(c: char): string {
    if IsLower(c) || 'A' <= c <= 'Z' then [c]
    else if c == 'а' then "a"
    else if c == 'б' then "b"
    else if c == 'в' then "v"
    else if c == 'г' then "g"
    else if c == 'д' then "d"
    else if c == 'е' || c == 'ё' || c == 'э' then "e"
    else if c == 'ж' then "zh"
    else if c == 'з' then "z"
    else if c == 'и' then "i"
    else if c == 'й' || c == 'ы' then "y"
    else if c == 'к' then "k"
    else if c == 'л' then "l"
    else if c == 'м' then "m"
    else if c == 'н' then "n"
    else if c == 'о' then "o"
    else if c == 'п' then "p"
    else if c == 'р' then "r"
    else if c == 'с' then "s"
    else if c == 'т' then "t"
    else if c == 'у' then "u"
    else if c == 'ф' then "f"
    else if c == 'х' then "h"
    else if c == 'ц' then "ts"
    else if c == 'ч' then "ch"
    else if c == 'ш' then "sh"
    else if c == 'щ' then "sch"
    else if c == 'ъ' || c == 'ь' then ""
    else if c == 'ю' then "yu"
    else if c == 'я' then "ya"
    else if c == 'ђ' || c == 'đ' then "dj"
    else if c == 'ј' then "j"
    else if c == 'љ' then "lj"
    else if c == 'њ' then "nj"
    else if c == 'ћ' || c == 'č' || c == 'ć' then "c"
    else if c == 'џ' then "dz"
    else if c == 'š' then "s"
    else if c == 'ž' then "z"
    else "-"
  }

  /** What Unicode says of lowercasing that matters here: it leaves no Latin
      capital, and keeps small letters, digits and hyphens. */
  ghost predicate Lowercases(lower: char -> string) {
    && (forall c, i :: 0 <= i < |lower(c)| ==> !('A' <= lower(c)[i] <= 'Z'))
    && (forall c :: IsLower(c) || c == '-' ==> lower(c) == [c])
  }

  function Latins(s: string): string {
    if s == [] then "" else Latins(s[..|s| - 1]) + Latin(s[|s| - 1])
  }

  function Lowered(text: string, lower: char -> string): string {
    if text == [] then "" else Lowered(text[..|text| - 1], lower) + lower(text[|text| - 1])
  }

  /** The non-empty words between hyphens; `word` is the one being read. */
  function Words(s: string, word: string): seq<string> {
    var done := if word == [] then [] else [word];
    if s == [] then done
    else if s[0] == '-' then done + Words(s[1..], "")
    else Words(s[1..], word + [s[0]])
  }

  function Join(words: seq<string>): string {
    if words == [] then ""
    else if |words| == 1 then words[0]
    else words[0] + ("-" + Join(words[1..]))
  }

  function TranslitSlug(text: string, lower: char -> string): string { Join(Words(Latins(Lowered(text, lower)), "")) }

  lemma LatinsMore(s: string, c: char)
    ensures Latins(s + [c]) == Latins(s) + Latin(c)
  {
    hide Latin;
    assert (s + [c])[..|s|] == s;
  }

  method PushLatins(out: string, chars: string) returns (more: string)
    ensures more == out + Latins(chars)
  {
    hide Latin, Latins;
    more := out;
    var j := 0;
    assert out + Latins("") == out by { NoLatins(out); }
    assert chars[..0] == "";
    while j < |chars|
      invariant 0 <= j <= |chars| && more == out + Latins(chars[..j])
    {
      LatinsMore(chars[..j], chars[j]);
      assert chars[..j] + [chars[j]] == chars[..j + 1];
      Associative(out, Latins(chars[..j]), Latin(chars[j]));
      more := more + Latin(chars[j]);
      j := j + 1;
    }
    assert chars[..j] == chars;
  }

  lemma NoLatins(out: string)
    ensures out + Latins("") == out
  {}

  /** The loop over the characters, then the split and the join. */
  method Translit(text: string, lower: char -> string) returns (slug: string)
    ensures slug == TranslitSlug(text, lower)
  {
    hide Latin, Words, Join, Latins;
    var out := "";
    assert out == Latins("") by { NoLatins(""); }
    var i := 0;
    while i < |text|
      invariant 0 <= i <= |text|
      invariant out == Latins(Lowered(text[..i], lower))
    {
      assert text[..i + 1][..i] == text[..i];
      LatinsConcat(Lowered(text[..i], lower), lower(text[i]));
      out := PushLatins(out, lower(text[i]));
      i := i + 1;
    }
    assert text[..i] == text;
    slug := Join(Words(out, ""));
  }

  lemma {:induction false} LatinsConcat(a: string, b: string)
    ensures Latins(a + b) == Latins(a) + Latins(b)
    decreases |b|
  {
    hide Latin;
    if b == [] {
      assert a + b == a;
    } else {
      assert (a + b)[..|a + b| - 1] == a + b[..|b| - 1];
      LatinsConcat(a, b[..|b| - 1]);
    }
  }

  // ---- no letter is lost -----------------------------------------------------------------

  const CYRILLIC := "абвгдеёжзийклмнопрстуфхцчшщъыьэюя"
  const SPELLED: seq<string> :=
    ["a", "b", "v", "g", "d", "e", "e", "zh", "z", "i", "y", "k", "l", "m", "n", "o", "p", "r", "s", "t", "u", "f", "h",
     "ts", "ch", "sh", "sch", "", "y", "", "e", "yu", "ya"]

  const SERBIAN := "ђјљњћџđčćšž"
  const SPELLED_SERBIAN: seq<string> := ["dj", "j", "lj", "nj", "c", "dz", "dj", "c", "c", "s", "z"]

  /** How the letters are spelled, one table for the Russian ones and one for the Serbian;
      Latin letters and digits stay, and every other character separates words. */
  lemma LatinTable(c: char)
    ensures forall k :: 0 <= k < 33 ==> Latin(CYRILLIC[k]) == SPELLED[k]
    ensures forall k :: 0 <= k < 11 ==> Latin(SERBIAN[k]) == SPELLED_SERBIAN[k]
    ensures IsLower(c) || 'A' <= c <= 'Z' ==> Latin(c) == [c]
    ensures !IsLower(c) && !('A' <= c <= 'Z') && c !in CYRILLIC && c !in SERBIAN ==> Latin(c) == "-"
  {
    hide Latin;
    forall k | 0 <= k < 33 ensures Latin(CYRILLIC[k]) == SPELLED[k] {
      if k < 11 { FirstLetters(k); } else if k < 22 { MiddleLetters(k); } else { LastLetters(k); }
    }
    forall k | 0 <= k < 11 ensures Latin(SERBIAN[k]) == SPELLED_SERBIAN[k] { SerbianLetters(k); }
    if !IsLower(c) && !('A' <= c <= 'Z') && c !in CYRILLIC && c !in SERBIAN { OtherLetter(c); }
    if IsLower(c) || 'A' <= c <= 'Z' { LatinStays(c); }
  }

  lemma LatinStays(c: char)
    requires IsLower(c) || 'A' <= c <= 'Z'
    ensures Latin(c) == [c]
  {}

  lemma FirstLetters(k: nat)
    requires k < 11
    ensures Latin(CYRILLIC[k]) == SPELLED[k]
  {}

  lemma MiddleLetters(k: nat)
    requires 11 <= k < 22
    ensures Latin(CYRILLIC[k]) == SPELLED[k]
  {}

  lemma LastLetters(k: nat)
    requires 22 <= k < 33
    ensures Latin(CYRILLIC[k]) == SPELLED[k]
  {}

  lemma SerbianLetters(k: nat)
    requires k < 11
    ensures Latin(SERBIAN[k]) == SPELLED_SERBIAN[k]
  {}

  lemma OtherLetter(c: char)
    requires c !in CYRILLIC && c !in SERBIAN && !IsLower(c) && !('A' <= c <= 'Z')
    ensures Latin(c) == "-"
  {
    assert forall k :: 0 <= k < |CYRILLIC| ==> CYRILLIC[k] != c;
    assert forall k :: 0 <= k < |SERBIAN| ==> SERBIAN[k] != c;
  }

  /** The text without its hyphens. */
  function Letters(s: string): string {
    if s == [] then "" else (if s[0] == '-' then "" else [s[0]]) + Letters(s[1..])
  }

  lemma {:induction false} LettersConcat(a: string, b: string)
    ensures Letters(a + b) == Letters(a) + Letters(b)
  {
    if a == [] {
      assert a + b == b;
    } else {
      LettersConcat(a[1..], b);
      OneLetter(a);
      OneLetter(a + b);
      hide Letters;
      assert (a + b)[0] == a[0] && (a + b)[1..] == a[1..] + b;
      Associative(if a[0] == '-' then "" else [a[0]], Letters(a[1..]), Letters(b));
    }
  }

  lemma {:induction false} LettersOfWord(word: string)
    requires '-' !in word
    ensures Letters(word) == word
  {
    if word != [] { LettersOfWord(word[1..]); }
  }

  /** Splitting and joining loses no letter and changes no order. */
  lemma {:induction false} WordsKeepLetters(s: string, word: string)
    requires '-' !in word
    ensures Letters(Join(Words(s, word))) == word + Letters(s)
    decreases |s|
  {
    hide Join, Letters;
    if s == [] {
      LettersOfWord(word);
      NoWords(word);
    } else if s[0] == '-' {
      WordsKeepLetters(s[1..], "");
      LettersOfWord(word);
      OneLetter(s);
      assert "" + Letters(s[1..]) == Letters(s[1..]);
      if word != [] {
        JoinedLetters(word, Words(s[1..], ""));
      } else {
        assert [] + Words(s[1..], "") == Words(s[1..], "");
      }
    } else {
      WordsKeepLetters(s[1..], word + [s[0]]);
      OneLetter(s);
      assert word + [s[0]] + Letters(s[1..]) == word + ([s[0]] + Letters(s[1..]));
    }
  }

  lemma OneLetter(s: string)
    requires s != []
    ensures Letters(s) == (if s[0] == '-' then "" else [s[0]]) + Letters(s[1..])
  {}

  lemma NoWords(word: string)
    ensures Join(if word == [] then [] else [word]) == word && Letters("") == "" && word + "" == word
  {}

  lemma JoinedLetters(word: string, rest: seq<string>)
    ensures Letters(Join([word] + rest)) == Letters(word) + Letters(Join(rest))
  {
    if rest != [] {
      assert ([word] + rest)[1..] == rest;
      LettersConcat(word, "-" + Join(rest));
      LettersConcat("-", Join(rest));
      assert Letters("-") == "";
    } else {
      assert Join([word] + rest) == word;
      assert Letters(word) + "" == Letters(word);
    }
  }

  /** A slug holds the spelled letters of its title, all of them and in order; words are
      parted where the title is. */
  lemma TranslitKeepsLetters(text: string, lower: char -> string)
    ensures Letters(TranslitSlug(text, lower)) == Letters(Latins(Lowered(text, lower)))
  {
    hide Latin, Words, Join, Latins;
    WordsKeepLetters(Latins(Lowered(text, lower)), "");
    assert "" + Letters(Latins(Lowered(text, lower))) == Letters(Latins(Lowered(text, lower)));
  }

  /** The words of two parts with a hyphen between them are the words of each. */
  lemma {:induction false} WordsPart(a: string, b: string, word: string)
    ensures Words(a + ("-" + b), word) == Words(a, word) + Words(b, "")
    decreases |a|
  {
    if a == [] {
      assert a + ("-" + b) == "-" + b && ("-" + b)[1..] == b;
    } else {
      assert (a + ("-" + b))[0] == a[0] && (a + ("-" + b))[1..] == a[1..] + ("-" + b);
      if a[0] == '-' {
        WordsPart(a[1..], b, "");
        var done := if word == [] then [] else [word];
        assert done + (Words(a[1..], "") + Words(b, "")) == (done + Words(a[1..], "")) + Words(b, "");
      } else {
        WordsPart(a[1..], b, word + [a[0]]);
      }
    }
  }

  // ---- the result is a slug ----------------------------------------------------------

  predicate Plain(s: string) { forall i :: 0 <= i < |s| ==> IsLower(s[i]) || s[i] == '-' }

  lemma LatinPlain(c: char)
    requires !('A' <= c <= 'Z')
    ensures Plain(Latin(c))
  {}

  lemma {:induction false} LatinsPlain(s: string)
    requires forall i :: 0 <= i < |s| ==> !('A' <= s[i] <= 'Z')
    ensures Plain(Latins(s))
  {
    hide Latin;
    if s != [] {
      LatinsPlain(s[..|s| - 1]);
      LatinPlain(s[|s| - 1]);
    }
  }

  lemma {:induction false} LoweredHasNoCapitals(text: string, lower: char -> string)
    requires Lowercases(lower)
    ensures forall i :: 0 <= i < |Lowered(text, lower)| ==> !('A' <= Lowered(text, lower)[i] <= 'Z')
  {
    if text != [] { LoweredHasNoCapitals(text[..|text| - 1], lower); }
  }

  ghost predicate AllWords(words: seq<string>) { forall w :: w in words ==> IsWord(w) }

  lemma {:induction false} WordsAreWords(s: string, word: string)
    requires Plain(s) && (word == [] || IsWord(word))
    ensures AllWords(Words(s, word))
    decreases |s|
  {
    if s != [] {
      if s[0] == '-' { WordsAreWords(s[1..], ""); } else { WordsAreWords(s[1..], word + [s[0]]); }
    }
  }

  lemma {:induction false} JoinIsSlug(words: seq<string>)
    requires AllWords(words)
    ensures IsSlug(Join(words)) && (words == [] <==> Join(words) == "")
  {
    if |words| > 1 {
      JoinIsSlug(words[1..]);
      assert words[0] in words && words[1] in words[1..];
      WordThenSlug(words[0], Join(words[1..]));
    } else if |words| == 1 {
      assert words[0] in words;
    }
  }

  lemma WordThenSlug(word: string, slug: string)
    requires IsWord(word) && IsSlug(slug) && slug != ""
    ensures IsSlug(word + ("-" + slug))
  {
    var s := word + ("-" + slug);
    var n := |word|;
    assert s[n] == '-' && forall i :: n < i < |s| ==> s[i] == slug[i - n - 1];
    forall i | 0 <= i < |s| - 1 ensures !(s[i] == '-' && s[i + 1] == '-') {
      if i > n { assert s[i] == slug[i - n - 1] && s[i + 1] == slug[i - n]; }
    }
  }

  /** Whatever the title, its slug is made of lowercase Latin words joined by single
      hyphens. */
  lemma TranslitIsSlug(text: string, lower: char -> string)
    requires Lowercases(lower)
    ensures IsSlug(TranslitSlug(text, lower))
  {
    hide Latin, Words, Join, IsSlug, Plain;
    LoweredHasNoCapitals(text, lower);
    LatinsPlain(Lowered(text, lower));
    WordsAreWords(Latins(Lowered(text, lower)), "");
    JoinIsSlug(Words(Latins(Lowered(text, lower)), ""));
  }

  // ---- a slug is its own slug ------------------------------------------------------------

  lemma {:induction false} LatinsOfPlain(s: string)
    requires Plain(s)
    ensures Latins(s) == s
  {
    hide Latins, Latin;
    if s == [] {
      NoLatins("");
    } else {
      var n := |s| - 1;
      LatinsOfPlain(s[..n]);
      LatinOfPlain(s[n]);
      LatinsMore(s[..n], s[n]);
      assert s == s[..n] + [s[n]];
    }
  }

  lemma LatinOfPlain(c: char)
    requires IsLower(c) || c == '-'
    ensures Latin(c) == [c]
  {}

  lemma LoweredMore(s: string, c: char, lower: char -> string)
    ensures Lowered(s + [c], lower) == Lowered(s, lower) + lower(c) && Lowered("", lower) == ""
  {
    assert (s + [c])[..|s|] == s;
  }

  lemma {:induction false} LoweredPlain(s: string, lower: char -> string)
    requires Lowercases(lower) && Plain(s)
    ensures Lowered(s, lower) == s
  {
    hide Lowered;
    if s == [] {
      LoweredMore("", 'a', lower);
    } else {
      var n := |s| - 1;
      LoweredPlain(s[..n], lower);
      LoweredMore(s[..n], s[n], lower);
      assert lower(s[n]) == [s[n]];
      hide Lowercases;
      assert s == s[..n] + [s[n]];
    }
  }

  /** Splitting a slug into its words and joining them gives the slug back. */
  lemma {:induction false} WordsJoin(s: string, word: string)
    requires IsSlug(word + s) && '-' !in word
    ensures Join(Words(s, word)) == word + s
    ensures Words(s, word) == [] <==> word + s == ""
    decreases |s|
  {
    hide IsLower;
    if s == [] {
      assert word + s == word;
    } else if s[0] != '-' {
      assert word + [s[0]] + s[1..] == word + s;
      WordsJoin(s[1..], word + [s[0]]);
    } else {
      AfterHyphen(s, word);
      assert "" + s[1..] == s[1..];
      WordsJoin(s[1..], "");
      assert s == "-" + s[1..];
      assert ([word] + Words(s[1..], ""))[1..] == Words(s[1..], "");
    }
  }

  lemma AfterHyphen(s: string, word: string)
    requires IsSlug(word + s) && '-' !in word && s != [] && s[0] == '-'
    ensures word != [] && s[1..] != [] && IsSlug(s[1..])
  {
    hide IsLower;
    var whole := word + s;
    var n := |word|;
    assert whole[n] == '-';
    assert forall i :: 0 <= i < |s[1..]| ==> s[1..][i] == whole[n + 1 + i];
    assert whole[|whole| - 1] != '-' && |whole| - 1 != n;
    assert s[1..][0] == whole[n + 1];
  }

  /** Transliterating a slug changes nothing, so a title's slug is a fixed point. */
  lemma SlugIsFixed(slug: string, lower: char -> string)
    requires Lowercases(lower)
    ensures TranslitSlug(slug, lower) == slug <==> IsSlug(slug)
  {
    TranslitIsSlug(slug, lower);
    if IsSlug(slug) {
      hide Latin, IsLower;
      LoweredPlain(slug, lower);
      LatinsOfPlain(slug);
      assert "" + slug == slug;
      WordsJoin(slug, "");
    }
  }

  lemma TranslitTwiceIsOnce(text: string, lower: char -> string)
    requires Lowercases(lower)
    ensures TranslitSlug(TranslitSlug(text, lower), lower) == TranslitSlug(text, lower)
  {
    TranslitIsSlug(text, lower);
    SlugIsFixed(TranslitSlug(text, lower), lower);
  }

  // ---- cutting at a word ------------------------------------------------------------------

  function LastHyphen(s: string): (at: Option<nat>)
    ensures at.Some? ==> at.value < |s| && s[at.value] == '-' && forall i :: at.value < i < |s| ==> s[i] != '-'
    ensures at.None? ==> '-' !in s
  {
    if s == [] then None
    else if s[|s| - 1] == '-' then Some(|s| - 1)
    else LastHyphen(s[..|s| - 1])
  }

  /** A prefix within `max` that ends before a hyphen or the end, unless its first word
      alone is longer. */
  function Truncate(slug: string, max: nat): string {
    if |slug| <= max then slug
    else
      match LastHyphen(slug[..max + 1])
      case None => slug[..max]
      case Some(at) => slug[..at]
  }

  /** The cut keeps the form, is a prefix within the limit, loses nothing that fits,
      ends where a word ends unless the first word alone is too long, and is empty
      only for an empty slug or no room at all. */
  lemma TruncateKeepsForm(slug: string, max: nat)
    requires IsSlug(slug)
    ensures var cut := Truncate(slug, max);
            && IsSlug(cut) && cut <= slug && |cut| <= max
            && (cut == "" <==> slug == "" || max == 0)
            && (|slug| <= max ==> cut == slug)
            && (|slug| > max ==> slug[|cut|] == '-' || (|cut| == max && '-' !in slug[..max + 1]))
  {
    hide IsLower;
    var cut := Truncate(slug, max);
    if |slug| > max {
      var at := LastHyphen(slug[..max + 1]);
      if at.Some? {
        assert slug[at.value] == '-';
        assert at.value > 0;
        assert slug[at.value - 1] != '-';
      } else {
        assert forall i :: 0 <= i < max ==> slug[i] == slug[..max + 1][i];
      }
    }
  }

  // ---- the address --------------------------------------------------------------------------

  function IntText(n: int): string { if n < 0 then "-" + Decimal(-n) else Decimal(n) }

  function Parts(date: Option<string>, title: string, id: int, lower: char -> string): seq<string> {
    var words := TranslitSlug(title, lower);
    (if date.Some? then [date.value] else []) + (if words != "" then [Truncate(words, 60)] else []) + [IntText(id)]
  }

  function Address(date: Option<string>, title: string, id: int, lower: char -> string): string {
    Join(Parts(date, title, id, lower))
  }

  /** The post number the site reads at the end of an address. */
  function PostIdOf(slug: string): Option<nat> {
    var last := match LastHyphen(slug) case None => slug case Some(at) => slug[at + 1..];
    if last != "" && AllDigits(last) then Some(NumberOf(last)) else None
  }

  /** An address names the day, then the title's slug cut to sixty characters, then the
      post; what is not there is left out. */
  lemma AddressSpelled(date: string, title: string, id: int, lower: char -> string)
    ensures var (words, number) := (TranslitSlug(title, lower), if id < 0 then "-" + Decimal(-id) else Decimal(id));
            && (words != "" ==> Address(Some(date), title, id, lower) == date + ("-" + (Truncate(words, 60) + ("-" + number))))
            && (words != "" ==> Address(None, title, id, lower) == Truncate(words, 60) + ("-" + number))
            && (words == "" ==> Address(Some(date), title, id, lower) == date + ("-" + number))
            && (words == "" ==> Address(None, title, id, lower) == number)
  {
    hide TranslitSlug, Truncate, Decimal;
    var (cut, end) := (Truncate(TranslitSlug(title, lower), 60), IntText(id));
    assert [date, cut, end][1..] == [cut, end] && [cut, end][1..] == [end] && [date, end][1..] == [end];
    assert [date] + [cut] + [end] == [date, cut, end] && [] + [cut] + [end] == [cut, end];
    assert [date] + [] + [end] == [date, end] && [] + [] + [end] == [end];
    assert Join([end]) == end && Join([cut, end]) == cut + ("-" + end) && Join([date, end]) == date + ("-" + end);
  }

  lemma {:induction false} JoinEnds(parts: seq<string>)
    requires parts != []
    ensures |parts| == 1 ==> Join(parts) == parts[0]
    ensures |parts| > 1 ==> exists head :: Join(parts) == head + "-" + parts[|parts| - 1]
  {
    if |parts| == 2 {
      assert Join(parts) == parts[0] + "-" + parts[1];
    } else if |parts| > 2 {
      JoinEnds(parts[1..]);
      var head :| Join(parts[1..]) == head + "-" + parts[1..][|parts| - 2];
      assert Join(parts) == (parts[0] + ("-" + head)) + "-" + parts[|parts| - 1];
    }
  }

  lemma LastHyphenIs(head: string, tail: string, s: string)
    requires '-' !in tail && s == head + "-" + tail
    ensures LastHyphen(s) == Some(|head|) && s[|head| + 1..] == tail
  {
    forall i | |head| < i < |s| ensures s[i] != '-' {
      NoHyphenAt(tail, i - |head| - 1);
    }
    LastHyphenAt(s, |head|);
  }

  lemma NoHyphenAt(tail: string, i: nat)
    requires '-' !in tail && i < |tail|
    ensures tail[i] != '-'
  {}

  lemma LastHyphenAt(s: string, at: nat)
    requires at < |s| && s[at] == '-' && forall i :: at < i < |s| ==> s[i] != '-'
    ensures LastHyphen(s) == Some(at)
  {
    assert '-' in s;
    var found := LastHyphen(s);
    hide LastHyphen;
    assert found.Some?;
  }

  lemma DigitsEnd(head: string, digits: string)
    requires digits != "" && AllDigits(digits)
    ensures PostIdOf(head + "-" + digits) == Some(NumberOf(digits))
    ensures PostIdOf(digits) == Some(NumberOf(digits))
  {
    hide LastHyphen, NumberOf;
    assert '-' !in digits;
    LastHyphenIs(head, digits, head + "-" + digits);
    assert LastHyphen(digits).None?;
  }

  /** A number is read exactly from a text that is all digits, or ends in a hyphen and digits. */
  lemma NumberReadExactly(slug: string)
    ensures PostIdOf(slug).Some? <==>
            (exists digits :: digits != "" && AllDigits(digits) && (slug == digits || exists head :: slug == head + "-" + digits))
  {
    hide NumberOf;
    if PostIdOf(slug).Some? {
      match LastHyphen(slug) {
        case None => assert slug != "" && AllDigits(slug);
        case Some(at) => assert slug == slug[..at] + "-" + slug[at + 1..];
      }
    }
    if digits :| digits != "" && AllDigits(digits) && (slug == digits || exists head :: slug == head + "-" + digits) {
      if slug == digits {
        DigitsEnd("", digits);
      } else {
        var head :| slug == head + "-" + digits;
        DigitsEnd(head, digits);
      }
    }
  }

  /** The end of an address gives back the post number exactly when that is not
      negative: the sign of a negative one reads as a separator. */
  lemma AddressEndsWithId(date: Option<string>, title: string, id: int, lower: char -> string)
    ensures PostIdOf(Address(date, title, id, lower)).Some?
    ensures PostIdOf(Address(date, title, id, lower)).value == (if id < 0 then -id else id)
    ensures PostIdOf(Address(date, title, id, lower)) == (if id >= 0 then Some(id as nat) else None) <==> id >= 0
  {
    hide TranslitSlug, Truncate, PostIdOf, Decimal;
    var digits := Decimal(if id < 0 then -id else id);
    NumberOfDecimal(if id < 0 then -id else id);
    var parts := Parts(date, title, id, lower);
    JoinEnds(parts);
    hide Join, Parts;
    var n := |parts| - 1;
    assert parts[n] == IntText(id) by { LastPart(date, title, id, lower); }
    if n > 0 {
      var head :| Join(parts) == head + "-" + parts[n];
      DigitsEnd(head, digits);
      if id < 0 {
        assert head + "-" + ("-" + digits) == (head + "-") + "-" + digits;
        DigitsEnd(head + "-", digits);
      }
    } else {
      DigitsEnd("", digits);
      assert "" + "-" + digits == "-" + digits;
    }
  }

  lemma LastPart(date: Option<string>, title: string, id: int, lower: char -> string)
    ensures Parts(date, title, id, lower) != []
    ensures Parts(date, title, id, lower)[|Parts(date, title, id, lower)| - 1] == IntText(id)
  {
    hide TranslitSlug, Truncate, IntText;
  }

  /** Distinct posts have distinct addresses, whatever their dates and titles. */
  lemma AddressesDiffer(date: Option<string>, title: string, id: int, date': Option<string>, title': string, id': int,
                        lower: char -> string)
    requires 0 <= id && 0 <= id' && id != id'
    ensures Address(date, title, id, lower) != Address(date', title', id', lower)
  {
    hide Address, PostIdOf;
    AddressEndsWithId(date, title, id, lower);
    AddressEndsWithId(date', title', id', lower);
  }
}
