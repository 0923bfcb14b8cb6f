/** Shared vocabulary: options and results, decimal text, the order on strings,
    and a stable sort with the facts the folds need about it. */
module Prelude {

  datatype Option<+T> = None | Some(value: T)

  datatype Result<+T, +E> = Ok(value: T) | Err(error: E)

  // ---- text --------------------------------------------------------------

  predicate IsDigit(c: char) { '0' <= c <= '9' }

  function DigitChar(d: int): (c: char)
    requires 0 <= d < 10
    ensures IsDigit(c) && DigitValue(c) == d
  {
    '0' + d as char
  }

  function DigitValue(c: char): (d: int)
    requires IsDigit(c)
    ensures 0 <= d < 10
  {
    c as int - '0' as int
  }

  predicate AllDigits(s: string) { forall i :: 0 <= i < |s| ==> IsDigit(s[i]) }

  /** The number a run of digits writes. */
  function NumberOf(s: string): nat
    requires AllDigits(s)
  {
    if s == [] then 0 else NumberOf(s[..|s| - 1]) * 10 + DigitValue(s[|s| - 1])
  }

  /** Decimal text without leading zeros. */
  function Decimal(n: nat): (s: string)
    ensures s != [] && AllDigits(s)
  {
    if n < 10 then [DigitChar(n)] else Decimal(n / 10) + [DigitChar(n % 10)]
  }

  /** Decimal text filled with zeros to at least `width` characters. */
  function Padded(n: nat, width: nat): (s: string)
    ensures AllDigits(s) && |s| >= width
  {
    var t := Decimal(n);
    if |t| >= width then t else Zeros(width - |t|) + t
  }

  function Zeros(n: nat): (s: string)
    ensures |s| == n && forall i :: 0 <= i < n ==> s[i] == '0'
  {
    seq(n, _ => '0')
  }

  lemma {:induction false} NumberOfDecimal(n: nat)
    ensures NumberOf(Decimal(n)) == n
  {
    if n >= 10 {
      NumberOfDecimal(n / 10);
      assert Decimal(n)[..|Decimal(n)| - 1] == Decimal(n / 10);
    }
  }

  lemma {:induction false} NumberOfZeros(n: nat, s: string)
    requires AllDigits(s)
    ensures AllDigits(Zeros(n) + s) && NumberOf(Zeros(n) + s) == NumberOf(s)
    decreases |s|, n
  {
    if s != [] {
      NumberOfZeros(n, s[..|s| - 1]);
      assert (Zeros(n) + s)[..|Zeros(n) + s| - 1] == Zeros(n) + s[..|s| - 1];
    } else if n > 0 {
      NumberOfZeros(n - 1, []);
      assert (Zeros(n) + s)[..n - 1] == Zeros(n - 1) + [];
    }
  }

  lemma NumberOfFilled(t: string, width: nat)
    requires AllDigits(t) && |t| < width
    ensures NumberOf(Zeros(width - |t|) + t) == NumberOf(t)
  {
    hide NumberOf, Zeros;
    NumberOfZeros(width - |t|, t);
  }

  lemma NumberOfPadded(n: nat, width: nat)
    ensures NumberOf(Padded(n, width)) == n
  {
    NumberOfDecimal(n);
    hide NumberOf;
    if |Decimal(n)| < width {
      NumberOfFilled(Decimal(n), width);
    }
  }

  /** Two runs of digits of one length that write one number are one run. */
  lemma {:induction false} NumberOfInjective(s: string, t: string)
    requires AllDigits(s) && AllDigits(t) && |s| == |t| && NumberOf(s) == NumberOf(t)
    ensures s == t
  {
    if s != [] {
      var n := |s| - 1;
      LastDigit(s);
      LastDigit(t);
      SameParts(NumberOf(s[..n]), DigitValue(s[n]), NumberOf(t[..n]), DigitValue(t[n]));
      hide NumberOf;
      NumberOfInjective(s[..n], t[..n]);
      SameEnds(s, t);
    }
  }

  lemma LastDigit(s: string)
    requires AllDigits(s) && s != []
    ensures NumberOf(s) == NumberOf(s[..|s| - 1]) * 10 + DigitValue(s[|s| - 1])
  {}

  lemma SameParts(a: int, x: int, b: int, y: int)
    requires 0 <= x < 10 && 0 <= y < 10 && a * 10 + x == b * 10 + y
    ensures a == b && x == y
  {}

  lemma SameEnds(s: string, t: string)
    requires s != [] && |s| == |t| && s[..|s| - 1] == t[..|t| - 1] && s[|s| - 1] == t[|t| - 1]
    ensures s == t
  {
    assert s == s[..|s| - 1] + [s[|s| - 1]] && t == t[..|t| - 1] + [t[|t| - 1]];
  }

  lemma {:induction false} DecimalLength(n: nat, k: nat)
    requires k >= 1
    ensures |Decimal(n)| <= k <==> n < Pow10(k)
  {
    if n >= 10 && k >= 2 {
      DecimalLength(n / 10, k - 1);
    } else if n >= 10 {
      assert Pow10(1) == 10 * Pow10(0);
    } else {
      PowPositive(k - 1);
    }
  }

  lemma PowPositive(k: nat)
    ensures Pow10(k) >= 1
  {}

  function Pow10(k: nat): nat { if k == 0 then 1 else 10 * Pow10(k - 1) }

  /** The four-, two-digit fields of a timestamp have exactly their width. */
  lemma PaddedWidth(n: nat, width: nat)
    requires width >= 1
    ensures |Padded(n, width)| == width <==> n < Pow10(width)
  {
    DecimalLength(n, width);
  }

  // ---- the order on strings (code points, as Rust's `str` compares) --------

  predicate LexLess(a: string, b: string) {
    b != [] && (a == [] || a[0] < b[0] || (a[0] == b[0] && LexLess(a[1..], b[1..])))
  }

  predicate LexLe(a: string, b: string) { a == b || LexLess(a, b) }

  lemma {:induction false} LexTotal(a: string, b: string)
    ensures LexLess(a, b) || a == b || LexLess(b, a)
    ensures !(LexLess(a, b) && LexLess(b, a)) && !LexLess(a, a)
  {
    if a != [] {
      LexTotal(a[1..], a[1..]);
      if b != [] {
        LexTotal(a[1..], b[1..]);
        assert a == [a[0]] + a[1..] && b == [b[0]] + b[1..];
      }
    }
  }

  lemma {:induction false} LexTransitive(a: string, b: string, c: string)
    requires LexLess(a, b) && LexLess(b, c)
    ensures LexLess(a, c)
  {
    if a != [] && a[0] == b[0] == c[0] {
      LexTransitive(a[1..], b[1..], c[1..]);
    }
  }

  // ---- a stable sort -------------------------------------------------------

  function Insert<T>(x: T, s: seq<T>, le: (T, T) -> bool): seq<T> {
    if s == [] then [x]
    else if le(x, s[0]) then [x] + s
    else [s[0]] + Insert(x, s[1..], le)
  }

  function Sort<T>(s: seq<T>, le: (T, T) -> bool): seq<T> {
    if s == [] then [] else Insert(s[0], Sort(s[1..], le), le)
  }

  ghost predicate Sorted<T>(s: seq<T>, le: (T, T) -> bool) {
    forall i, j :: 0 <= i < j < |s| ==> le(s[i], s[j])
  }

  // Marks the elements a law of the order is wanted for, so that the laws are
  // used where a proof names them and nowhere else.
  predicate Among<T>(x: T, y: T, z: T) { true }

  /** `le` is total and transitive among the elements of `s`. */
  ghost predicate Preorder<T>(s: seq<T>, le: (T, T) -> bool) {
    && (forall x, y {:trigger Among(x, y, y)} ::
          Among(x, y, y) && x in s && y in s ==> le(x, y) || le(y, x))
    && (forall x, y, z {:trigger Among(x, y, z)} ::
          Among(x, y, z) && x in s && y in s && z in s && le(x, y) && le(y, z) ==> le(x, z))
  }

  /** ... and tells distinct elements apart. */
  ghost predicate TotalOrder<T>(s: seq<T>, le: (T, T) -> bool) {
    && Preorder(s, le)
    && (forall x, y {:trigger Among(x, y, y)} ::
          Among(x, y, y) && x in s && y in s && le(x, y) && le(y, x) ==> x == y)
  }

  /** The same elements, however often and in whatever order. */
  ghost predicate SameMembers<T>(s: seq<T>, t: seq<T>) {
    (forall x :: x in s ==> x in t) && (forall x :: x in t ==> x in s)
  }

  lemma SameElements<T>(s: seq<T>, t: seq<T>)
    requires multiset(s) == multiset(t)
    ensures |s| == |t| && SameMembers(s, t)
  {
    assert |s| == |multiset(s)| && |t| == |multiset(t)|;
    forall x ensures x in s <==> x in t {
      assert x in s <==> x in multiset(s);
      assert x in t <==> x in multiset(t);
    }
  }

  lemma {:induction false} InsertKeeps<T>(x: T, s: seq<T>, le: (T, T) -> bool)
    ensures multiset(Insert(x, s, le)) == multiset(s) + multiset{x}
  {
    if s != [] && !le(x, s[0]) {
      InsertKeeps(x, s[1..], le);
      assert s == [s[0]] + s[1..];
    } else if s != [] {
      assert multiset([x] + s) == multiset{x} + multiset(s);
    }
  }

  /** Sorting is a rearrangement. */
  lemma {:induction false} SortKeeps<T>(s: seq<T>, le: (T, T) -> bool)
    ensures multiset(Sort(s, le)) == multiset(s)
    ensures |Sort(s, le)| == |s| && SameMembers(Sort(s, le), s)
  {
    if s != [] {
      SortKeeps(s[1..], le);
      InsertKeeps(s[0], Sort(s[1..], le), le);
      assert s == [s[0]] + s[1..];
    }
    SameElements(Sort(s, le), s);
  }

  lemma {:induction false} InsertSorts<T>(x: T, s: seq<T>, whole: seq<T>, le: (T, T) -> bool)
    requires Preorder(whole, le) && Sorted(s, le)
    requires x in whole && forall y :: y in s ==> y in whole
    ensures Sorted(Insert(x, s, le), le)
  {
    if s != [] {
      assert Among(x, s[0], s[0]);
      if !le(x, s[0]) {
        InsertSorts(x, s[1..], whole, le);
        InsertKeeps(x, s[1..], le);
        var r := Insert(x, s[1..], le);
        forall j | 0 <= j < |r| ensures le(s[0], r[j]) {
          assert r[j] in multiset(r);
          if r[j] != x { assert r[j] in s[1..]; }
        }
      } else {
        forall j | 0 <= j < |s| ensures le(x, s[j]) {
          assert Among(x, s[0], s[j]);
        }
      }
    }
  }

  lemma {:induction false} SortSorts<T>(s: seq<T>, le: (T, T) -> bool)
    requires Preorder(s, le)
    ensures Sorted(Sort(s, le), le)
  {
    if s != [] {
      assert s == [s[0]] + s[1..];
      SortSorts(s[1..], le);
      SortKeeps(s[1..], le);
      var rest := Sort(s[1..], le);
      forall y | y in rest ensures y in s {
        assert y in multiset(rest) && y in multiset(s[1..]);
      }
      InsertSorts(s[0], rest, s, le);
    }
  }

  lemma BagOfRest<T>(s: seq<T>)
    requires s != []
    ensures multiset(s[1..]) == multiset(s) - multiset{s[0]}
  {
    assert s == [s[0]] + s[1..];
  }

  /** A sorted arrangement under a total order is unique. */
  lemma {:induction false} SortedUnique<T>(s: seq<T>, t: seq<T>, le: (T, T) -> bool)
    requires multiset(s) == multiset(t) && TotalOrder(s, le) && Sorted(s, le) && Sorted(t, le)
    ensures s == t
  {
    SameElements(s, t);
    if s != [] {
      SameHead(s, t, le);
      BagOfRest(s);
      BagOfRest(t);
      assert TotalOrder(s[1..], le) by { TotalOrderPart(s, s[1..], le); }
      SortedUnique(s[1..], t[1..], le);
      assert s == [s[0]] + s[1..] && t == [t[0]] + t[1..];
    }
  }

  lemma TotalOrderPart<T>(s: seq<T>, part: seq<T>, le: (T, T) -> bool)
    requires TotalOrder(s, le) && forall y :: y in part ==> y in s
    ensures TotalOrder(part, le)
  {}

  lemma SameHead<T>(s: seq<T>, t: seq<T>, le: (T, T) -> bool)
    requires |s| == |t| > 0 && SameMembers(s, t)
    requires TotalOrder(s, le) && Sorted(s, le) && Sorted(t, le)
    ensures s[0] == t[0]
  {
    assert s[0] in t && t[0] in s;
    var i :| 0 <= i < |t| && t[i] == s[0];
    var j :| 0 <= j < |s| && s[j] == t[0];
    assert Among(s[0], t[0], t[0]);
  }

  /** Under a total order the sorted text of a bag does not depend on how the
      bag was listed. */
  lemma SortCanonical<T>(s: seq<T>, t: seq<T>, le: (T, T) -> bool)
    requires multiset(s) == multiset(t) && TotalOrder(s, le)
    ensures Sort(s, le) == Sort(t, le)
  {
    SameElements(s, t);
    TotalOrderPart(s, t, le);
    var a, b := Sort(s, le), Sort(t, le);
    assert multiset(a) == multiset(b) && SameMembers(a, s) by {
      SortKeeps(s, le);
      SortKeeps(t, le);
    }
    assert Sorted(a, le) && Sorted(b, le) by {
      SortSorts(s, le);
      SortSorts(t, le);
    }
    TotalOrderPart(s, a, le);
    SortedUnique(a, b, le);
  }

  lemma LexOrder(s: seq<string>)
    ensures TotalOrder(s, LexLe)
  {
    forall x: string, y: string, z: string | Among(x, y, z)
      ensures LexLe(x, y) || LexLe(y, x)
      ensures LexLe(x, y) && LexLe(y, z) ==> LexLe(x, z)
      ensures LexLe(x, y) && LexLe(y, x) ==> x == y
    {
      LexLaws(x, y, z);
    }
  }

  lemma LexLaws(x: string, y: string, z: string)
    ensures LexLe(x, y) || LexLe(y, x)
    ensures LexLe(x, y) && LexLe(y, z) ==> LexLe(x, z)
    ensures LexLe(x, y) && LexLe(y, x) ==> x == y
  {
    hide LexLess;
    LexTotal(x, y);
    if LexLess(x, y) && LexLess(y, z) { LexTransitive(x, y, z); }
  }

  // ---- collapsing repeats --------------------------------------------------

  /** Drop every element equal to its successor (Rust's `Vec::dedup` keeps one of
      each run). */
  function Dedup<T(==)>(s: seq<T>): seq<T> {
    if |s| <= 1 then s
    else if s[0] == s[1] then Dedup(s[1..])
    else [s[0]] + Dedup(s[1..])
  }

  ghost predicate NoRepeats<T>(s: seq<T>) {
    forall i, j :: 0 <= i < j < |s| ==> s[i] != s[j]
  }

  /** After a sort it leaves every element once, in order. */
  lemma {:induction false} DedupSorted<T>(s: seq<T>, d: seq<T>, le: (T, T) -> bool)
    requires TotalOrder(s, le) && Sorted(s, le) && d == Dedup(s)
    ensures SameMembers(d, s) && Sorted(d, le) && NoRepeats(d)
  {
    if |s| > 1 {
      TotalOrderPart(s, s[1..], le);
      DedupSorted(s[1..], Dedup(s[1..]), le);
      OneMore(s, s[1..], Dedup(s[1..]), d, le);
    }
  }

  lemma OneMore<T>(s: seq<T>, t: seq<T>, e: seq<T>, d: seq<T>, le: (T, T) -> bool)
    requires TotalOrder(s, le) && Sorted(s, le) && |s| > 1 && t == s[1..]
    requires Sorted(e, le) && NoRepeats(e) && SameMembers(e, t)
    requires d == if s[0] == s[1] then e else [s[0]] + e
    ensures Sorted(d, le) && NoRepeats(d) && SameMembers(d, s)
  {
    assert s == [s[0]] + t && s[1] == t[0] && le(s[0], s[1]);
    if s[0] != s[1] {
      forall j | 0 <= j < |e| ensures le(s[0], e[j]) && s[0] != e[j] {
        assert e[j] in t;
        var k :| 0 <= k < |t| && t[k] == e[j];
        assert s[k + 1] == e[j] && le(s[0], s[k + 1]);
        if k > 0 { assert le(s[1], s[k + 1]); }
        assert Among(s[0], s[1], s[1]);
      }
    }
  }

  lemma {:induction false} CountOnce<T>(s: seq<T>, x: T)
    requires NoRepeats(s)
    ensures multiset(s)[x] == if x in s then 1 else 0
  {
    if s != [] {
      CountOnce(s[1..], x);
      assert s == [s[0]] + s[1..];
    }
  }

  /** Lists without repeats that hold the same elements hold the same bag. */
  lemma SameBag<T>(s: seq<T>, t: seq<T>)
    requires NoRepeats(s) && NoRepeats(t) && SameMembers(s, t)
    ensures multiset(s) == multiset(t)
  {
    forall x ensures multiset(s)[x] == multiset(t)[x] {
      CountOnce(s, x);
      CountOnce(t, x);
    }
  }

  lemma MembersTransitive<T>(a: seq<T>, b: seq<T>, c: seq<T>)
    requires SameMembers(a, b) && SameMembers(b, c)
    ensures SameMembers(a, c)
  {}

  lemma StillDistinct<T>(s: seq<T>, t: seq<T>)
    requires NoRepeats(s) && multiset(s) == multiset(t)
    ensures NoRepeats(t)
  {
    forall i, j | 0 <= i < j < |t| ensures t[i] != t[j] {
      CountOnce(s, t[i]);
      Twice(t, i, j);
    }
  }

  lemma Twice<T>(t: seq<T>, i: nat, j: nat)
    requires i < j < |t|
    ensures t[i] == t[j] ==> multiset(t)[t[i]] >= 2
  {
    BagWithout(t, i);
    assert t[j] == (t[..i] + t[i + 1..])[j - 1];
  }

  lemma SortedOnce<T>(s: seq<T>, r: seq<T>, d: seq<T>, le: (T, T) -> bool)
    requires TotalOrder(s, le) && r == Sort(s, le) && d == Dedup(r)
    ensures Sorted(d, le) && NoRepeats(d) && SameMembers(d, s)
  {
    assert multiset(r) == multiset(s) by { SortKeeps(s, le); }
    SameElements(r, s);
    SortSorts(s, le);
    TotalOrderPart(s, r, le);
    DedupSorted(r, d, le);
  }

  /** Sorting and collapsing gives the one ordered list of a set of elements. */
  lemma SortedSet<T>(s: seq<T>, t: seq<T>, le: (T, T) -> bool)
    requires TotalOrder(s, le) && SameMembers(s, t)
    ensures Dedup(Sort(s, le)) == Dedup(Sort(t, le))
  {
    TotalOrderPart(s, t, le);
    SortedOnce(s, Sort(s, le), Dedup(Sort(s, le)), le);
    SortedOnce(t, Sort(t, le), Dedup(Sort(t, le)), le);
    SameSets(s, Dedup(Sort(s, le)), Dedup(Sort(t, le)), le);
  }

  lemma SameSets<T>(s: seq<T>, a: seq<T>, b: seq<T>, le: (T, T) -> bool)
    requires TotalOrder(s, le) && Sorted(a, le) && NoRepeats(a) && Sorted(b, le) && NoRepeats(b)
    requires SameMembers(a, s) && SameMembers(b, s)
    ensures a == b
  {
    SameBag(a, b);
    TotalOrderPart(s, a, le);
    SortedUnique(a, b, le);
  }

  // ---- integers ------------------------------------------------------------

  predicate IntLe(x: int, y: int) { x <= y }

  lemma IntOrder(s: seq<int>)
    ensures TotalOrder(s, IntLe)
  {}

  function Sum(s: seq<int>): int {
    if s == [] then 0 else s[0] + Sum(s[1..])
  }

  lemma {:induction false} SumConcat(s: seq<int>, t: seq<int>)
    ensures Sum(s + t) == Sum(s) + Sum(t)
  {
    if s == [] {
      assert s + t == t;
    } else {
      assert (s + t)[1..] == s[1..] + t;
      SumConcat(s[1..], t);
    }
  }

  /** A sum does not depend on the order of its terms. */
  lemma {:induction false} SumOfBag(s: seq<int>, t: seq<int>)
    requires multiset(s) == multiset(t)
    ensures Sum(s) == Sum(t)
  {
    SameElements(s, t);
    if s != [] {
      assert s[0] in t;
      var i :| 0 <= i < |t| && t[i] == s[0];
      BagOfRest(s);
      BagWithout(t, i);
      SumWithout(t[..i], t[i], t[i + 1..]);
      SumOfBag(s[1..], t[..i] + t[i + 1..]);
    }
  }

  lemma SumWithout(a: seq<int>, x: int, b: seq<int>)
    ensures Sum(a + [x] + b) == x + Sum(a + b)
  {
    SumConcat(a + [x], b);
    SumConcat(a, [x]);
    SumConcat(a, b);
  }

  lemma BagWithout<T>(t: seq<T>, i: nat)
    requires i < |t|
    ensures t == t[..i] + [t[i]] + t[i + 1..]
    ensures multiset(t[..i] + t[i + 1..]) == multiset(t) - multiset{t[i]}
  {
    assert t == t[..i] + [t[i]] + t[i + 1..];
  }

  lemma Associative<T>(a: seq<T>, b: seq<T>, c: seq<T>)
    ensures a + b + c == a + (b + c)
  {}

  // ---- mapping a list ------------------------------------------------------

  function Map<A, B>(f: A -> B, s: seq<A>): (r: seq<B>)
    ensures |r| == |s| && forall i :: 0 <= i < |s| ==> r[i] == f(s[i])
  {
    if s == [] then [] else [f(s[0])] + Map(f, s[1..])
  }

  lemma {:induction false} MapConcat<A, B>(f: A -> B, s: seq<A>, t: seq<A>)
    ensures Map(f, s + t) == Map(f, s) + Map(f, t)
  {}

  /** Rearranging a list rearranges its image. */
  lemma {:induction false} MapBag<A, B>(f: A -> B, s: seq<A>, t: seq<A>)
    requires multiset(s) == multiset(t)
    ensures multiset(Map(f, s)) == multiset(Map(f, t))
  {
    SameElements(s, t);
    if s != [] {
      assert s[0] in t;
      var i :| 0 <= i < |t| && t[i] == s[0];
      BagOfRest(s);
      BagWithout(t, i);
      MapBag(f, s[1..], t[..i] + t[i + 1..]);
      MapWithout(f, t, i);
      MapRest(f, s);
    }
  }

  lemma MapRest<A, B>(f: A -> B, s: seq<A>)
    requires s != []
    ensures multiset(Map(f, s)) == multiset(Map(f, s[1..])) + multiset{f(s[0])}
  {
    assert Map(f, s) == [f(s[0])] + Map(f, s[1..]);
  }

  lemma MapWithout<A, B>(f: A -> B, t: seq<A>, i: nat)
    requires i < |t|
    ensures multiset(Map(f, t)) == multiset(Map(f, t[..i] + t[i + 1..])) + multiset{f(t[i])}
  {
    var a, b := t[..i], t[i + 1..];
    BagWithout(t, i);
    MapConcat(f, a + [t[i]], b);
    MapConcat(f, a, [t[i]]);
    MapConcat(f, a, b);
    assert Map(f, [t[i]]) == [f(t[i])];
    hide Map;
    MiddleBag(Map(f, a), f(t[i]), Map(f, b));
  }

  lemma MiddleBag<T>(a: seq<T>, x: T, b: seq<T>)
    ensures multiset(a + [x] + b) == multiset(a + b) + multiset{x}
  {}

  /** What comes from the `n`th place on. */
  function Later<T>(f: nat -> T, n: nat): nat -> T { (k: nat) => f(k + n) }
}
