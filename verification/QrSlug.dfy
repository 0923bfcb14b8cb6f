/** The printed address of a coupon's QR link: six characters drawn without bias. */
module QrSlug {
  import opened Prelude

  const ALPHABET := "ABCDEFGHJKMNPQRSTUVWXYZ23456789"
  const LENGTH := 6

  /** The bytes used: a multiple of 31 of them, so that every character is equally likely. */
  predicate Accepted(b: nat) { b < 248 }

  function CharOf(b: nat): char { ALPHABET[b % 31] }

  /** The first accepted bytes, at most `n` of them. */
  function FirstAccepted(bytes: seq<nat>, n: nat): seq<nat> {
    if n == 0 || bytes == [] then []
    else if Accepted(bytes[0]) then [bytes[0]] + FirstAccepted(bytes[1..], n - 1)
    else FirstAccepted(bytes[1..], n)
  }

  function Spelled(bytes: seq<nat>): seq<char> { Map(CharOf, bytes) }

  function QrSlugFrom(bytes: seq<nat>): (slug: Option<string>)
    ensures slug.Some? ==> |slug.value| == LENGTH
  {
    var slug := Spelled(FirstAccepted(bytes, LENGTH));
    if |slug| == LENGTH then Some(slug) else None
  }

  function CountAccepted(bytes: seq<nat>): nat {
    if bytes == [] then 0 else (if Accepted(bytes[0]) then 1 else 0) + CountAccepted(bytes[1..])
  }

  lemma {:induction false} FirstAcceptedLength(bytes: seq<nat>, n: nat)
    ensures |FirstAccepted(bytes, n)| == if CountAccepted(bytes) < n then CountAccepted(bytes) else n
  {
    if bytes != [] && n > 0 {
      FirstAcceptedLength(bytes[1..], if Accepted(bytes[0]) then n - 1 else n);
    }
  }

  /** The bytes run out exactly when fewer than six of them are accepted; a slug is
      spelled in the alphabet. */
  lemma SlugExists(bytes: seq<nat>)
    ensures QrSlugFrom(bytes).Some? <==> CountAccepted(bytes) >= LENGTH
    ensures QrSlugFrom(bytes).Some? ==> forall i :: 0 <= i < LENGTH ==> QrSlugFrom(bytes).value[i] in ALPHABET
  {
    FirstAcceptedLength(bytes, LENGTH);
    var slug := Spelled(FirstAccepted(bytes, LENGTH));
    forall i | 0 <= i < |slug| ensures slug[i] in ALPHABET {}
  }

  lemma FirstOne(b: nat, rest: seq<nat>, n: nat)
    requires n > 0
    ensures FirstAccepted([b] + rest, n) ==
            if b < 248 then [b] + FirstAccepted(rest, n - 1) else FirstAccepted(rest, n)
  {
    assert ([b] + rest)[1..] == rest;
  }

  /** The characters follow the accepted bytes in their order, and the others are skipped. */
  lemma {:induction false} SpelledInOrder(bytes: seq<nat>)
    ensures FirstAccepted(bytes, |bytes|) == Kept(bytes)
    ensures forall n: nat :: FirstAccepted(bytes, n) == Kept(bytes)[..if n < |Kept(bytes)| then n else |Kept(bytes)|]
  {
    if bytes != [] {
      SpelledInOrder(bytes[1..]);
      assert bytes == [bytes[0]] + bytes[1..];
      forall n: nat ensures FirstAccepted(bytes, n) == Kept(bytes)[..if n < |Kept(bytes)| then n else |Kept(bytes)|] {
        if n > 0 { FirstOne(bytes[0], bytes[1..], n); }
      }
    }
    KeptFits(bytes);
  }

  /** The bytes below 248, in order. */
  function Kept(bytes: seq<nat>): seq<nat> {
    if bytes == [] then [] else (if bytes[0] < 248 then [bytes[0]] else []) + Kept(bytes[1..])
  }

  lemma {:induction false} KeptFits(bytes: seq<nat>)
    ensures |Kept(bytes)| <= |bytes|
  {
    if bytes != [] { KeptFits(bytes[1..]); }
  }

  /** A slug is the first six bytes below 248, each as the alphabet's character at its
      remainder by 31. */
  lemma SlugSpells(bytes: seq<nat>)
    ensures match QrSlugFrom(bytes)
            case None => |Kept(bytes)| < 6
            case Some(slug) =>
              && |Kept(bytes)| >= 6 && |slug| == 6
              && forall i :: 0 <= i < 6 ==> slug[i] == "ABCDEFGHJKMNPQRSTUVWXYZ23456789"[Kept(bytes)[i] % 31]
  {
    SpelledInOrder(bytes);
    assert FirstAccepted(bytes, 6) == Kept(bytes)[..if 6 < |Kept(bytes)| then 6 else |Kept(bytes)|];
  }

  lemma AlphabetDistinct()
    ensures |ALPHABET| == 31 && NoRepeats(ALPHABET)
  {}

  /** Every character of the alphabet is spelled by exactly eight accepted bytes, so
      random bytes draw each with the same chance. */
  lemma EquallyLikely(k: nat)
    requires k < 31
    ensures |set b: nat | b < 248 && CharOf(b) == ALPHABET[k]| == 8
  {
    hide CharOf;
    var all := set b: nat | b < 248 && CharOf(b) == ALPHABET[k];
    var eight := {k, k + 31, k + 62, k + 93, k + 124, k + 155, k + 186, k + 217};
    forall b: nat ensures b in all <==> b in eight {
      if b < 248 {
        Spells(b, k);
        Residue(b, k);
      }
    }
    assert all == eight;
  }

  lemma Spells(b: nat, k: nat)
    requires k < 31
    ensures CharOf(b) == ALPHABET[k] <==> b % 31 == k
  {
    AlphabetDistinct();
  }

  lemma Residue(b: nat, k: nat)
    requires b < 248 && k < 31
    ensures b % 31 == k <==> b in {k, k + 31, k + 62, k + 93, k + 124, k + 155, k + 186, k + 217}
  {}
}
