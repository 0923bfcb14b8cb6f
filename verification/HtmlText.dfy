/** The channel page's markup read as plain text: tags dropped, line breaks kept,
    entities resolved. */
module HtmlText {
  import opened Prelude

  const NBSP := '\U{00A0}'

  // ---- searching -----------------------------------------------------------------

  function Find(s: string, c: char): (at: Option<nat>)
    ensures at.Some? ==> at.value < |s| && s[at.value] == c && forall i :: 0 <= i < at.value ==> s[i] != c
    ensures at.None? ==> forall i :: 0 <= i < |s| ==> s[i] != c
  {
    if s == [] then None
    else if s[0] == c then Some(0)
    else
      match Find(s[1..], c)
      case None => None
      case Some(i) => Some(i + 1)
  }

  lemma FindIs(s: string, c: char, at: nat)
    requires at < |s| && s[at] == c && forall i :: 0 <= i < at ==> s[i] != c
    ensures Find(s, c) == Some(at)
  {}

  // ---- entities --------------------------------------------------------------------

  function HexValue(c: char): Option<nat> {
    if '0' <= c <= '9' then Some(c as int - '0' as int)
    else if 'a' <= c <= 'f' then Some(c as int - 'a' as int + 10)
    else if 'A' <= c <= 'F' then Some(c as int - 'A' as int + 10)
    else None
  }

  function DigitsIn(s: string, radix: nat): Option<nat> {
    if s == [] then Some(0)
    else
      match (DigitsIn(s[..|s| - 1], radix), HexValue(s[|s| - 1]))
      case (Some(n), Some(d)) => if d < radix then Some(n * radix + d) else None
      case _ => None
  }

  /** A 32-bit number as Rust reads it: an optional plus sign, then digits. */
  function ParseU32(s: string, radix: nat): Option<nat> {
    var digits := if s != [] && s[0] == '+' then s[1..] else s;
    if digits == [] then None
    else
      match DigitsIn(digits, radix)
      case Some(n) => if n < 0x1_0000_0000 then Some(n) else None
      case None => None
  }

  /** A Unicode scalar value: in range and no surrogate. */
  predicate IsScalar(n: int) { 0 <= n < 0xD800 || 0xE000 <= n < 0x11_0000 }

  function Entity(name: string): Option<char> {
    if name == "amp" then Some('&')
    else if name == "lt" then Some('<')
    else if name == "gt" then Some('>')
    else if name == "quot" then Some('"')
    else if name == "apos" then Some('\'')
    else if name == "nbsp" then Some(NBSP)
    else if name == [] || name[0] != '#' then None
    else
      var code := name[1..];
      var n := if code != [] && code[0] in {'x', 'X'} then ParseU32(code[1..], 16) else ParseU32(code, 10);
      if n.Some? && IsScalar(n.value) then Some(n.value as char) else None
  }

  /** The entity at the head of `tail`, and where it ends. */
  function HeadEntity(tail: string): (e: Option<(char, nat)>)
    requires tail != []
    ensures e.Some? ==> e.value.1 < |tail|
  {
    match Find(tail[1..], ';')
    case None => None
    case Some(i) =>
      if i + 1 > 10 then None
      else
        match Entity(tail[1..i + 1])
        case None => None
        case Some(c) => Some((c, i + 1))
  }

  /** One step of a scan: nothing special is left, or text is emitted and the scan
      goes on with the rest. */
  datatype Scan = Last | More(emitted: string, rest: string)

  /** Up to the next ampersand and past it: an entity resolves, any other sign stays. */
  function NextEntity(s: string): (step: Scan)
    ensures step.More? ==> |step.rest| < |s|
  {
    match Find(s, '&')
    case None => Last
    case Some(amp) =>
      match HeadEntity(s[amp..])
      case Some((c, semi)) => More(s[..amp] + [c], s[amp..][semi + 1..])
      case None => More(s[..amp] + "&", s[amp..][1..])
  }

  function DecodeEntities(s: string): string
    decreases |s|
  {
    match NextEntity(s)
    case Last => s
    case More(emitted, rest) => emitted + DecodeEntities(rest)
  }

  /** One round of the loop. */
  method EntityStep(s: string) returns (step: Scan)
    requires Find(s, '&').Some?
    ensures step == NextEntity(s) && step.More?
  {
    hide HeadEntity, Find;
    var amp := Find(s, '&').value;
    var tail := s[amp..];
    var decoded := HeadEntity(tail);
    step := if decoded.Some? then More(s[..amp] + [decoded.value.0], tail[decoded.value.1 + 1..])
            else More(s[..amp] + "&", tail[1..]);
  }

  lemma DecodedSoFar(whole: string, out: string, rest: string)
    requires whole == out + DecodeEntities(rest) && NextEntity(rest).More?
    ensures whole == out + NextEntity(rest).emitted + DecodeEntities(NextEntity(rest).rest)
  {
    hide NextEntity;
  }

  /** The scanning loop. */
  method Decode(s: string) returns (out: string)
    ensures out == DecodeEntities(s)
  {
    hide HeadEntity, Find;
    out := "";
    var rest := s;
    while Find(rest, '&').Some?
      invariant DecodeEntities(s) == out + DecodeEntities(rest)
      decreases |rest|
    {
      hide DecodeEntities;
      DecodedSoFar(DecodeEntities(s), out, rest);
      var step := EntityStep(rest);
      hide NextEntity;
      out := out + step.emitted;
      rest := step.rest;
    }
    out := out + rest;
  }

  // ---- tags ---------------------------------------------------------------------------

  predicate IsSpace(c: char) {
    '\U{0009}' <= c <= '\U{000D}' || c == ' ' || c == '\U{0085}' || c == NBSP || c == '\U{1680}'
    || '\U{2000}' <= c <= '\U{200A}' || c == '\U{2028}' || c == '\U{2029}' || c == '\U{202F}' || c == '\U{205F}'
    || c == '\U{3000}'
  }

  function TrimEnd(s: string, drop: char -> bool): string {
    if s != [] && drop(s[|s| - 1]) then TrimEnd(s[..|s| - 1], drop) else s
  }

  function TrimStart(s: string, drop: char -> bool): string {
    if s != [] && drop(s[0]) then TrimStart(s[1..], drop) else s
  }

  predicate IsSlash(c: char) { c == '/' }

  predicate IsLineBreak(tag: string) {
    var name := TrimStart(TrimEnd(TrimEnd(tag, IsSlash), IsSpace), IsSpace);
    name == "br" || (|name| >= 3 && name[..3] == "br ")
  }

  /** What a tag leaves in the text. */
  function Break(tag: string): string { if IsLineBreak(tag) then "\n" else "" }

  /** Up to the next tag and past it. An unclosed tag swallows the rest. */
  function NextTag(html: string): (step: Scan)
    ensures step.More? ==> |step.rest| < |html|
  {
    match Find(html, '<')
    case None => Last
    case Some(lt) =>
      match Find(html[lt..], '>')
      case None => More(DecodeEntities(html[..lt]), "")
      case Some(gt) => More(DecodeEntities(html[..lt]) + Break(html[lt + 1..lt + gt]), html[lt + gt + 1..])
  }

  /** Markup without its tags. */
  function StripTags(html: string): string
    decreases |html|
  {
    match NextTag(html)
    case Last => DecodeEntities(html)
    case More(emitted, rest) => emitted + StripTags(rest)
  }

  /** No-break spaces as plain ones. */
  function PlainSpaces(s: string): (r: string)
    ensures |r| == |s| && forall i :: 0 <= i < |s| ==> r[i] == if s[i] == NBSP then ' ' else s[i]
  {
    if s == [] then "" else [if s[0] == NBSP then ' ' else s[0]] + PlainSpaces(s[1..])
  }

  function HtmlToText(html: string): string { PlainSpaces(StripTags(html)) }

  /** One round of the loop over the tags. */
  method TagStep(html: string) returns (step: Scan)
    requires Find(html, '<').Some?
    ensures step == NextTag(html) && step.More?
  {
    hide Find, DecodeEntities, Break;
    var lt := Find(html, '<').value;
    var before := Decode(html[..lt]);
    var gt := Find(html[lt..], '>');
    step := if gt.None? then More(before, "")
            else More(before + Break(html[lt + 1..lt + gt.value]), html[lt + gt.value + 1..]);
  }

  lemma StrippedSoFar(whole: string, out: string, rest: string)
    requires whole == out + StripTags(rest) && NextTag(rest).More?
    ensures whole == out + NextTag(rest).emitted + StripTags(NextTag(rest).rest)
  {
    hide NextTag;
  }

  /** The scanning loop over the tags. */
  method ToText(html: string) returns (text: string)
    ensures text == HtmlToText(html)
  {
    hide Find, DecodeEntities, Break, PlainSpaces;
    var out := "";
    var rest := html;
    while Find(rest, '<').Some?
      invariant StripTags(html) == out + StripTags(rest)
      decreases |rest|
    {
      hide StripTags;
      StrippedSoFar(StripTags(html), out, rest);
      var step := TagStep(rest);
      hide NextTag;
      out := out + step.emitted;
      rest := step.rest;
    }
    var last := Decode(rest);
    text := PlainSpaces(out + last);
  }

  // ---- rendering and reading back -----------------------------------------------------

  function Escape(c: char): string {
    if c == '&' then "&amp;"
    else if c == '<' then "&lt;"
    else if c == '>' then "&gt;"
    else if c == '"' then "&quot;"
    else if c == '\n' then "<br/>"
    else [c]
  }

  /** A text as markup. */
  function Render(text: string): string {
    if text == [] then "" else Escape(text[0]) + Render(text[1..])
  }

  lemma FindAfter(c: char, s: string, wanted: char)
    requires c != wanted
    ensures Find([c] + s, wanted) == match Find(s, wanted) case None => None case Some(i) => Some(i + 1)
  {
    assert ([c] + s)[1..] == s;
  }

  lemma NextAfter(c: char, s: string)
    requires c != '&'
    ensures NextEntity([c] + s) == match NextEntity(s) case Last => Last case More(e, rest) => More([c] + e, rest)
  {
    hide HeadEntity;
    FindAfter(c, s, '&');
    var amp := Find(s, '&');
    hide Find;
    if amp.Some? {
      assert ([c] + s)[amp.value + 1..] == s[amp.value..];
      assert ([c] + s)[..amp.value + 1] == [c] + s[..amp.value];
      var sign := match HeadEntity(s[amp.value..]) case Some((e, _)) => [e] case None => "&";
      assert [c] + s[..amp.value] + sign == [c] + (s[..amp.value] + sign);
    }
  }

  lemma OneRound(s: string)
    ensures NextEntity(s) == Last ==> DecodeEntities(s) == s
    ensures NextEntity(s).More? ==> DecodeEntities(s) == NextEntity(s).emitted + DecodeEntities(NextEntity(s).rest)
  {
    hide NextEntity;
  }

  lemma DecodePlain(c: char, s: string)
    requires c != '&'
    ensures DecodeEntities([c] + s) == [c] + DecodeEntities(s)
  {
    hide NextEntity, DecodeEntities;
    NextAfter(c, s);
    OneRound(s);
    OneRound([c] + s);
    if NextEntity(s).More? {
      Associative([c], NextEntity(s).emitted, DecodeEntities(NextEntity(s).rest));
    }
  }

  /** A short entity at the head is resolved. */
  lemma DecodeHead(name: string, c: char, s: string)
    requires |name| < 10 && ';' !in name && Entity(name) == Some(c)
    ensures DecodeEntities("&" + name + ";" + s) == [c] + DecodeEntities(s)
  {
    hide Entity;
    var all := "&" + name + ";" + s;
    FindIs(all, '&', 0);
    var tail := all[0..];
    assert tail == all && tail[1..] == name + ";" + s;
    FindIs(tail[1..], ';', |name|);
    hide Find;
    assert tail[1..|name| + 1] == name;
    assert HeadEntity(tail) == Some((c, |name| + 1));
    hide HeadEntity;
    assert all[..0] + [c] == [c] && tail[|name| + 1 + 1..] == s;
    assert NextEntity(all) == More([c], s);
  }

  lemma DecodeEscaped(c: char, s: string)
    requires c != '\n'
    ensures DecodeEntities(Escape(c) + s) == [c] + DecodeEntities(s)
    ensures '<' !in Escape(c)
  {
    hide DecodeEntities;
    if c == '&' {
      DecodeHead("amp", c, s);
      assert "&" + "amp" + ";" == Escape(c);
    } else if c == '<' {
      DecodeHead("lt", c, s);
      assert "&" + "lt" + ";" == Escape(c);
    } else if c == '>' {
      DecodeHead("gt", c, s);
      assert "&" + "gt" + ";" == Escape(c);
    } else if c == '"' {
      DecodeHead("quot", c, s);
      assert "&" + "quot" + ";" == Escape(c);
    } else {
      DecodePlain(c, s);
    }
  }

  /** One line, escaped, holds no tag and decodes back. */
  lemma {:induction false} LineReads(line: string)
    requires '\n' !in line
    ensures '<' !in Render(line) && DecodeEntities(Render(line)) == line
  {
    hide DecodeEntities, Escape;
    if line == [] {
      NothingToDecode();
    } else {
      LineReads(line[1..]);
      DecodeEscaped(line[0], Render(line[1..]));
      assert [line[0]] + line[1..] == line;
    }
  }

  lemma NothingToDecode()
    ensures DecodeEntities("") == ""
  {}

  lemma {:induction false} RenderConcat(a: string, b: string)
    ensures Render(a + b) == Render(a) + Render(b)
  {
    hide Escape;
    if a == [] {
      assert a + b == b;
    } else {
      RenderConcat(a[1..], b);
      assert (a + b)[0] == a[0] && (a + b)[1..] == a[1..] + b;
      Associative(Escape(a[0]), Render(a[1..]), Render(b));
    }
  }

  lemma LineBreakTag()
    ensures Break("br/") == "\n"
  {
    assert "br/"[..2] == "br";
    assert TrimEnd("br/", IsSlash) == TrimEnd("br", IsSlash) == "br";
    assert TrimEnd("br", IsSpace) == "br" && TrimStart("br", IsSpace) == "br";
  }

  lemma NextTagReads(before: string, rest: string)
    requires '<' !in before
    ensures NextTag(before + "<br/>" + rest) == More(DecodeEntities(before) + "\n", rest)
  {
    hide DecodeEntities, Break;
    var html := before + "<br/>" + rest;
    var lt := |before|;
    FindIs(html, '<', lt);
    assert html[lt..] == "<br/>" + rest;
    FindIs(html[lt..], '>', 4);
    hide Find;
    assert html[..lt] == before && html[lt + 4 + 1..] == rest;
    assert html[lt + 1..lt + 4] == "br/";
    LineBreakTag();
  }

  /** Lines joined by line-break tags read back as lines. */
  lemma {:induction false} TextReads(text: string)
    ensures StripTags(Render(text)) == text
    decreases |text|
  {
    hide DecodeEntities, Break, Render, Find, NextTag;
    if '\n' in text {
      var at := Find(text, '\n').value;
      var line, more := text[..at], text[at + 1..];
      assert text == line + ("\n" + more);
      RenderConcat(line, "\n" + more);
      RenderConcat("\n", more);
      BreakRenders();
      LineReads(line);
      NextTagReads(Render(line), Render(more));
      TextReads(more);
      assert Render(text) == Render(line) + "<br/>" + Render(more);
      assert (line + "\n") + more == text;
    } else {
      LineReads(text);
      NoTagLeft(Render(text));
    }
  }

  lemma BreakRenders()
    ensures Render("\n") == "<br/>"
  {
    assert "\n"[1..] == "";
    assert Render("\n") == "<br/>" + Render("");
  }

  lemma NoTagLeft(html: string)
    requires '<' !in html
    ensures StripTags(html) == DecodeEntities(html)
  {
    hide DecodeEntities;
    assert Find(html, '<').None?;
  }

  /** Reading undoes rendering, up to no-break spaces becoming plain ones: exactly
      the texts without a no-break space come back as they were. */
  lemma RenderedTextReadsBack(text: string)
    ensures HtmlToText(Render(text)) == PlainSpaces(text)
    ensures HtmlToText(Render(text)) == text <==> NBSP !in text
  {
    TextReads(text);
    hide StripTags, Render;
    if NBSP in text {
      var i :| 0 <= i < |text| && text[i] == NBSP;
      assert PlainSpaces(text)[i] == ' ';
    } else {
      assert PlainSpaces(text) == text;
    }
  }

  /** Whatever the markup, the text holds no no-break space. */
  lemma NoBreakSpaces(html: string)
    ensures NBSP !in HtmlToText(html)
  {
    hide StripTags;
  }

  /** A numeric entity of any character resolves to it wherever it stands after text
      without ampersands, in decimal and in either hexadecimal form. */
  lemma NumericEntityReads(before: string, n: nat, rest: string)
    requires (n < 0xD800 || 0xE000 <= n < 0x11_0000) && '&' !in before
    ensures DecodeEntities(before + ("&" + ("#" + Decimal(n)) + ";" + rest)) == before + ([n as char] + DecodeEntities(rest))
    ensures DecodeEntities(before + ("&" + ("#x" + Hex(n)) + ";" + rest)) == before + ([n as char] + DecodeEntities(rest))
    ensures DecodeEntities(before + ("&" + ("#X" + Hex(n)) + ";" + rest)) == before + ([n as char] + DecodeEntities(rest))
  {
    hide DecodeEntities, Entity;
    DecimalEntity(n);
    HexEntity(n, 'x');
    HexEntity(n, 'X');
    assert "#x" + Hex(n) == ['#', 'x'] + Hex(n) && "#X" + Hex(n) == ['#', 'X'] + Hex(n);
    DecodeHead("#" + Decimal(n), n as char, rest);
    DecodeHead("#x" + Hex(n), n as char, rest);
    DecodeHead("#X" + Hex(n), n as char, rest);
    PlainBefore(before, "&" + ("#" + Decimal(n)) + ";" + rest);
    PlainBefore(before, "&" + ("#x" + Hex(n)) + ";" + rest);
    PlainBefore(before, "&" + ("#X" + Hex(n)) + ";" + rest);
  }

  lemma DecimalEntity(n: nat)
    requires IsScalar(n)
    ensures var name := "#" + Decimal(n); |name| < 10 && ';' !in name && Entity(name) == Some(n as char)
  {
    var name := "#" + Decimal(n);
    DecimalLength(n, 7);
    assert Pow10(7) == 10_000_000;
    DecimalReads(Decimal(n));
    NumberOfDecimal(n);
    assert name[1..] == Decimal(n) && name[0] == '#' && Decimal(n)[0] != '+' && Decimal(n)[0] !in {'x', 'X'};
  }

  function HexDigit(d: nat): (c: char)
    requires d < 16
    ensures HexValue(c) == Some(d) && c !in {'+', ';'}
  {
    if d < 10 then '0' + d as char else 'a' + (d - 10) as char
  }

  /** Hexadecimal text without leading zeros. */
  function Hex(n: nat): (s: string)
    ensures s != [] && s[0] != '+' && ';' !in s
  {
    if n < 16 then [HexDigit(n)] else Hex(n / 16) + [HexDigit(n % 16)]
  }

  lemma {:induction false} HexReads(n: nat)
    ensures DigitsIn(Hex(n), 16) == Some(n)
  {
    if n >= 16 {
      HexReads(n / 16);
      assert Hex(n)[..|Hex(n)| - 1] == Hex(n / 16);
    } else {
      assert Hex(n)[..0] == [];
    }
  }

  lemma HexShort(n: nat)
    requires n < 0x11_0000
    ensures |Hex(n)| <= 6
  {
    assert n / 16 / 16 / 16 / 16 / 16 < 16;
    var a := n / 16;
    var b := a / 16;
    var c := b / 16;
    var d := c / 16;
    assert |Hex(d / 16)| == 1 && |Hex(d)| <= 2 && |Hex(c)| <= 3 && |Hex(b)| <= 4 && |Hex(a)| <= 5;
  }

  lemma HexEntity(n: nat, x: char)
    requires IsScalar(n) && x in {'x', 'X'}
    ensures var name := ['#', x] + Hex(n); |name| < 10 && ';' !in name && Entity(name) == Some(n as char)
  {
    HexShort(n);
    HexReads(n);
    hide Hex, DigitsIn;
    assert ParseU32(Hex(n), 16) == Some(n);
    hide ParseU32, Entity;
    HexName(x, Hex(n));
  }

  lemma HexName(x: char, digits: string)
    requires x in {'x', 'X'}
    ensures var n := ParseU32(digits, 16);
            Entity(['#', x] + digits) == if n.Some? && IsScalar(n.value) then Some(n.value as char) else None
  {
    hide ParseU32;
    var name := ['#', x] + digits;
    assert name[0] == '#';
    assert name[1..][0] == x && name[1..][1..] == digits;
  }

  /** Text without ampersands passes through. */
  lemma {:induction false} PlainBefore(before: string, s: string)
    requires '&' !in before
    ensures DecodeEntities(before + s) == before + DecodeEntities(s)
    decreases |before|
  {
    hide DecodeEntities;
    if before == [] {
      assert before + s == s;
    } else {
      PlainBefore(before[1..], s);
      DecodePlain(before[0], before[1..] + s);
      assert [before[0]] + (before[1..] + s) == before + s;
      assert [before[0]] + (before[1..] + DecodeEntities(s)) == before + DecodeEntities(s);
    }
  }

  lemma {:induction false} DecimalReads(s: string)
    requires AllDigits(s)
    ensures DigitsIn(s, 10) == Some(NumberOf(s))
  {
    if s != [] { DecimalReads(s[..|s| - 1]); }
  }

  /** The six named entities resolve wherever they stand. */
  lemma NamedEntitiesRead(rest: string)
    ensures DecodeEntities("&" + "amp" + ";" + rest) == "&" + DecodeEntities(rest)
    ensures DecodeEntities("&" + "lt" + ";" + rest) == "<" + DecodeEntities(rest)
    ensures DecodeEntities("&" + "gt" + ";" + rest) == ">" + DecodeEntities(rest)
    ensures DecodeEntities("&" + "quot" + ";" + rest) == "\"" + DecodeEntities(rest)
    ensures DecodeEntities("&" + "apos" + ";" + rest) == "'" + DecodeEntities(rest)
    ensures DecodeEntities("&" + "nbsp" + ";" + rest) == [NBSP] + DecodeEntities(rest)
  {
    hide DecodeEntities;
    DecodeHead("amp", '&', rest);
    DecodeHead("lt", '<', rest);
    DecodeHead("gt", '>', rest);
    DecodeHead("quot", '"', rest);
    DecodeHead("apos", '\'', rest);
    DecodeHead("nbsp", NBSP, rest);
  }

  lemma SignStays(s: string, amp: nat)
    requires ';' !in s && Find(s, '&') == Some(amp)
    ensures amp < |s| && NextEntity(s) == More(s[..amp] + "&", s[amp + 1..])
  {
    hide Entity;
    var tail := s[amp..];
    assert tail[1..] == s[amp + 1..];
    forall i | 0 <= i < |tail[1..]| ensures tail[1..][i] != ';' {
      NotAt(s, ';', amp + 1 + i);
    }
    assert Find(tail[1..], ';').None?;
  }

  lemma NotAt(s: string, c: char, i: nat)
    requires c !in s && i < |s|
    ensures s[i] != c
  {}

  lemma SplitAtSign(s: string, amp: nat)
    requires amp < |s| && s[amp] == '&'
    ensures s == s[..amp] + "&" + s[amp + 1..]
  {}

  lemma StillNone(s: string, c: char, i: nat)
    requires c !in s && i <= |s|
    ensures c !in s[i..]
  {}

  /** An ampersand that opens no entity stays: a text without a semicolon is left as
      it is. */
  lemma {:induction false} NoSemicolonNoEntity(s: string)
    requires ';' !in s
    ensures DecodeEntities(s) == s
    decreases |s|
  {
    hide DecodeEntities, NextEntity;
    OneRound(s);
    var amp := Find(s, '&');
    hide Find;
    if amp.Some? {
      SignStays(s, amp.value);
      StillNone(s, ';', amp.value + 1);
      NoSemicolonNoEntity(s[amp.value + 1..]);
      SplitAtSign(s, amp.value);
    } else {
      NoSign(s);
    }
  }

  lemma NoSign(s: string)
    requires Find(s, '&').None?
    ensures NextEntity(s) == Last
  {}

  // ---- what a tag leaves ------------------------------------------------------------------

  ghost predicate All(s: string, p: char -> bool) { forall i :: 0 <= i < |s| ==> p(s[i]) }

  lemma {:induction false} TrimmedEnd(s: string, drop: char -> bool) returns (k: nat)
    ensures k <= |s| && TrimEnd(s, drop) == s[..k] && All(s[k..], drop) && (k > 0 ==> !drop(s[k - 1]))
  {
    if s != [] && drop(s[|s| - 1]) {
      k := TrimmedEnd(s[..|s| - 1], drop);
      assert s[..|s| - 1][..k] == s[..k];
      forall i | 0 <= i < |s[k..]| ensures drop(s[k..][i]) {
        if k + i < |s| - 1 { assert s[k..][i] == s[..|s| - 1][k..][i]; }
      }
    } else {
      k := |s|;
    }
  }

  lemma {:induction false} TrimmedStart(s: string, drop: char -> bool) returns (k: nat)
    ensures k <= |s| && TrimStart(s, drop) == s[k..] && All(s[..k], drop) && (k < |s| ==> !drop(s[k]))
  {
    if s != [] && drop(s[0]) {
      k := TrimmedStart(s[1..], drop);
      k := k + 1;
      assert s[1..][k - 1..] == s[k..];
      forall i | 0 <= i < k ensures drop(s[i]) {
        if i > 0 { assert s[i] == s[1..][..k - 1][i - 1]; }
      }
    } else {
      k := 0;
    }
  }

  /** The tag after its leading blanks is a line break: "br" with blanks and then slashes
      behind it, or "br" and a space before whatever else. */
  ghost predicate ReadsBr(tag: string, k: nat) {
    && k + 2 <= |tag| && All(tag[..k], IsSpace) && tag[k] == 'b' && tag[k + 1] == 'r'
    && ((k + 2 < |tag| && tag[k + 2] == ' ')
        || exists m :: k + 2 <= m <= |tag| && All(tag[k + 2..m], IsSpace) && All(tag[m..], IsSlash))
  }

  /** A tag leaves a line break exactly when it is one, and else nothing. */
  lemma BreaksExactly(tag: string)
    ensures Break(tag) == (if exists k :: ReadsBr(tag, k) then "\n" else "")
  {
    hide TrimEnd, TrimStart, IsSpace;
    var m := TrimmedEnd(tag, IsSlash);
    var n := TrimmedEnd(tag[..m], IsSpace);
    assert tag[..m][..n] == tag[..n];
    var k := TrimmedStart(tag[..n], IsSpace);
    var name := tag[..n][k..];
    assert name == TrimStart(TrimEnd(TrimEnd(tag, IsSlash), IsSpace), IsSpace);
    forall i | n <= i < m ensures IsSpace(tag[i]) { assert tag[..m][n..][i - n] == tag[i]; }
    assert tag[..n][..k] == tag[..k];
    LettersAreNoSpace();
    if IsLineBreak(tag) {
      BreakReads(tag, m, n, k);
    }
    if j :| ReadsBr(tag, j) {
      ReadBreaks(tag, m, n, k, j);
    }
  }

  lemma LettersAreNoSpace()
    ensures !IsSpace('b') && !IsSpace('r') && !IsSpace('/') && IsSpace(' ')
  {}

  lemma BreakReads(tag: string, m: nat, n: nat, k: nat)
    requires k <= n <= m <= |tag| && All(tag[..k], IsSpace) && All(tag[m..], IsSlash)
    requires forall i :: n <= i < m ==> IsSpace(tag[i])
    requires var name := tag[..n][k..]; name == "br" || (|name| >= 3 && name[..3] == "br ")
    ensures ReadsBr(tag, k)
  {
    hide IsSpace;
    var name := tag[..n][k..];
    assert forall i :: 0 <= i < |name| ==> name[i] == tag[k + i];
    if name == "br" {
      assert name[0] == 'b' && name[1] == 'r';
      assert All(tag[k + 2..m], IsSpace) && All(tag[m..], IsSlash);
    } else {
      assert name[0] == name[..3][0] && name[1] == name[..3][1] && name[2] == name[..3][2];
    }
  }

  lemma ReadBreaks(tag: string, m: nat, n: nat, k: nat, j: nat)
    requires k <= n <= m <= |tag| && All(tag[..k], IsSpace) && All(tag[m..], IsSlash)
    requires m > 0 ==> !IsSlash(tag[m - 1])
    requires n > 0 ==> !IsSpace(tag[n - 1])
    requires k < n ==> !IsSpace(tag[k])
    requires forall i :: n <= i < m ==> IsSpace(tag[i])
    requires !IsSpace('b') && !IsSpace('r') && IsSpace(' ') && ReadsBr(tag, j)
    ensures var name := tag[..n][k..]; name == "br" || (|name| >= 3 && name[..3] == "br ")
  {
    hide IsSpace;
    forall i | m <= i < |tag| ensures tag[i] == '/' { assert tag[m..][i - m] == tag[i]; }
    forall i | 0 <= i < k ensures IsSpace(tag[i]) { assert tag[..k][i] == tag[i]; }
    forall i | 0 <= i < j ensures IsSpace(tag[i]) { assert tag[..j][i] == tag[i]; }
    assert k == j;
    assert n >= k + 2;
    var name := tag[..n][k..];
    assert forall i :: 0 <= i < |name| ==> name[i] == tag[k + i];
    if n > k + 2 {
      if tag[k + 2] == ' ' {
        assert name[..3] == "br ";
      } else {
        BlanksToTheEnd(tag, m, n, k);
        assert false;
      }
    } else {
      assert name == "br";
    }
  }

  lemma BlanksToTheEnd(tag: string, m: nat, n: nat, k: nat)
    requires k + 2 < n <= m <= |tag| && !IsSlash(tag[m - 1])
    requires exists e :: k + 2 <= e <= |tag| && All(tag[k + 2..e], IsSpace) && All(tag[e..], IsSlash)
    ensures IsSpace(tag[n - 1])
  {
    hide IsSpace;
    var e :| k + 2 <= e <= |tag| && All(tag[k + 2..e], IsSpace) && All(tag[e..], IsSlash);
    forall i | e <= i < |tag| ensures IsSlash(tag[i]) { assert tag[e..][i - e] == tag[i]; }
    assert tag[k + 2..e][n - 1 - (k + 2)] == tag[n - 1];
  }

  /** Between tags the text is decoded; a closed tag leaves its break and reading goes on
      behind it, an unclosed one takes the rest with it. */
  lemma TagsDrop(before: string, tag: string, rest: string)
    requires '<' !in before && '>' !in tag
    ensures StripTags(before + ("<" + tag + ">" + rest)) == DecodeEntities(before) + Break(tag) + StripTags(rest)
    ensures StripTags(before + ("<" + tag)) == DecodeEntities(before)
  {
    hide DecodeEntities, Break;
    ClosedTag(before, tag, rest);
    UnclosedTag(before, tag);
    hide NextTag;
    assert DecodeEntities(before) + StripTags("") == DecodeEntities(before) by {
      assert StripTags("") == "" by {
        NoTagLeft("");
        NothingToDecode();
      }
    }
  }

  lemma ClosedTag(before: string, tag: string, rest: string)
    requires '<' !in before && '>' !in tag
    ensures NextTag(before + ("<" + tag + ">" + rest)) == More(DecodeEntities(before) + Break(tag), rest)
  {
    hide DecodeEntities, Break;
    var html := before + ("<" + tag + ">" + rest);
    var lt := |before|;
    FindIs(html, '<', lt);
    assert html[lt..] == "<" + tag + ">" + rest;
    FindIs(html[lt..], '>', |tag| + 1);
    hide Find;
    assert html[..lt] == before && html[lt + 1..lt + |tag| + 1] == tag && html[lt + |tag| + 1 + 1..] == rest;
  }

  lemma UnclosedTag(before: string, tag: string)
    requires '<' !in before && '>' !in tag
    ensures NextTag(before + ("<" + tag)) == More(DecodeEntities(before), "")
  {
    hide DecodeEntities;
    var html := before + ("<" + tag);
    var lt := |before|;
    FindIs(html, '<', lt);
    assert html[lt..] == "<" + tag && html[..lt] == before;
    assert Find(html[lt..], '>').None?;
    hide Find;
  }

  // ---- what is no entity ------------------------------------------------------------------

  /** A name between an ampersand and a semicolon that is too long, or no entity, stays as it
      is. */
  lemma OtherNamesStay(name: string, rest: string)
    requires ';' !in name && '&' !in name && (|name| >= 10 || Entity(name).None?)
    ensures DecodeEntities("&" + name + ";" + rest) == "&" + name + ";" + DecodeEntities(rest)
  {
    hide DecodeEntities, NextEntity, Entity;
    var all := "&" + name + ";" + rest;
    OtherNameNext(name, rest);
    OneRound(all);
    assert name + ";" + rest == (name + ";") + rest;
    PlainBefore(name + ";", rest);
    assert "&" + ((name + ";") + DecodeEntities(rest)) == "&" + name + ";" + DecodeEntities(rest);
  }

  lemma OtherNameNext(name: string, rest: string)
    requires ';' !in name && (|name| >= 10 || Entity(name).None?)
    ensures NextEntity("&" + name + ";" + rest) == More("&", name + ";" + rest)
  {
    hide Entity;
    var all := "&" + name + ";" + rest;
    FindIs(all, '&', 0);
    var tail := all[0..];
    assert tail == all && tail[1..] == name + ";" + rest;
    FindIs(tail[1..], ';', |name|);
    hide Find;
    assert tail[1..|name| + 1] == name;
    assert HeadEntity(tail).None?;
    hide HeadEntity;
    assert all[..0] + "&" == "&";
  }

  /** The number of a surrogate, or one beyond Unicode, names no character. */
  lemma OtherNumbersStay(n: nat)
    requires 0xD800 <= n < 0xE000 || 0x11_0000 <= n
    ensures Entity("#" + Decimal(n)).None?
  {
    var name := "#" + Decimal(n);
    DecimalReads(Decimal(n));
    NumberOfDecimal(n);
    assert name[1..] == Decimal(n) && name[0] == '#';
    assert Decimal(n)[0] != '+' && Decimal(n)[0] !in {'x', 'X'} by { assert AllDigits(Decimal(n)); }
  }

  /** A plus sign before the number is read over. */
  lemma SignedNumberReads(n: nat)
    requires n < 0xD800 || 0xE000 <= n < 0x11_0000
    ensures Entity("#" + ("+" + Decimal(n))) == Some(n as char)
  {
    var name := "#" + ("+" + Decimal(n));
    DecimalReads(Decimal(n));
    NumberOfDecimal(n);
    assert name[0] == '#' && name[1..] == "+" + Decimal(n) && ("+" + Decimal(n))[1..] == Decimal(n);
  }

  /** There are six names and the numbers of Unicode scalar values, and no others. */
  lemma EntityNames(name: string)
    requires Entity(name).Some? && (name == "" || name[0] != '#')
    ensures name in {"amp", "lt", "gt", "quot", "apos", "nbsp"}
  {}
}
