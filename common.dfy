/**
 * Shared vocabulary of the marketplace model: optional values, the string
 * operations the TypeScript and Python code leans on (toLowerCase, includes,
 * trim, str.split), list aggregates (filter, count, sum), first-occurrence
 * de-duplication as done by `new Set(...)`, membership toggling, and the
 * comparator sort used wherever the source calls `Array.prototype.sort`.
 */
module Common {

  datatype Option<T> = None | Some(value: T)

  /** A partial update `{ ...current, ...given }` on one field: a key that
    * the update carries wins. */
  function Pick<T>(given: Option<T>, current: T): T {
    if given.Some? then given.value else current
  }

  /** `value || fallback` on an optional string: a missing or empty value
    * gives the fallback. */
  function OrElse(value: Option<string>, fallback: string): (r: string)
    ensures value.Some? && value.value != "" ==> r == value.value
    ensures value.None? || value.value == "" ==> r == fallback
  {
    if value.Some? && value.value != "" then value.value else fallback
  }

  // ---------------------------------------------------------------------
  // Characters and strings
  // ---------------------------------------------------------------------

  /** The white-space characters that JavaScript `trim`/`\s` and Python
    * `str.split()` both treat as separators (ASCII space, tab, line feed,
    * carriage return, vertical tab, form feed, no-break space, BOM). */
  predicate IsSpace(c: char) {
    c == ' ' || c == '\t' || c == '\n' || c == '\r' ||
    c == '\U{000B}' || c == '\U{000C}' || c == '\U{00A0}' || c == '\U{FEFF}'
  }

  predicate IsBlank(s: string) {
    forall i :: 0 <= i < |s| ==> IsSpace(s[i])
  }

  /** `/^[^\s@]+@[^\s@]+\.[^\s@]+$/`: no white space, a single `@` with
    * text before it, and a dot after it with text on both sides. */
  predicate WellFormedEmail(s: string) {
    exists i, j :: 0 < i && i + 1 < j && j + 1 < |s| && s[i] == '@' && s[j] == '.' &&
      forall k :: 0 <= k < |s| && k != i ==> s[k] != '@' && !IsSpace(s[k])
  }

  lemma EmailExamples()
    ensures WellFormedEmail("ali@shop.sa")
    ensures !WellFormedEmail("ali@shop")
    ensures !WellFormedEmail("a@b@c.sa")
  {
    assert "ali@shop.sa"[3] == '@' && "ali@shop.sa"[8] == '.';
    assert "a@b@c.sa"[1] == '@' && "a@b@c.sa"[3] == '@';
  }

  /** A well-formed address has one `@` and no white space. */
  lemma WellFormedEmailShape(s: string)
    requires WellFormedEmail(s)
    ensures !IsBlank(s) && s != ""
    ensures forall k :: 0 <= k < |s| ==> !IsSpace(s[k])
  {
    var i, j :| 0 < i && i + 1 < j && j + 1 < |s| && s[i] == '@' && s[j] == '.' &&
      forall k :: 0 <= k < |s| && k != i ==> s[k] != '@' && !IsSpace(s[k]);
    assert !IsSpace(s[0]);
  }

  /** `toLowerCase` restricted to the Latin capitals; Arabic text has no case. */
  function LowerChar(c: char): char {
    if 'A' <= c <= 'Z' then (c as int + 32) as char else c
  }

  function Lower(s: string): string {
    seq(|s|, i requires 0 <= i < |s| => LowerChar(s[i]))
  }

  lemma LowerIdempotent(s: string)
    ensures Lower(Lower(s)) == Lower(s)
  {
  }

  predicate IsPrefix(p: string, s: string) {
    |p| <= |s| && s[..|p|] == p
  }

  /** `hay.includes(needle)` / Python `needle in hay`. */
  predicate Contains(hay: string, needle: string)
    decreases |hay|
  {
    IsPrefix(needle, hay) || (|hay| > 0 && Contains(hay[1..], needle))
  }

  /** `needle` occurs in `hay` at offset `k`. */
  predicate OccursAt(hay: string, needle: string, k: int) {
    0 <= k && k + |needle| <= |hay| && hay[k..k + |needle|] == needle
  }

  /** Contains agrees with the textbook definition: some window of `hay`
    * equals `needle`. */
  lemma {:induction false} ContainsIffOccurs(hay: string, needle: string)
    ensures Contains(hay, needle) <==> exists k :: OccursAt(hay, needle, k)
    decreases |hay|
  {
    if IsPrefix(needle, hay) {
      assert OccursAt(hay, needle, 0);
    } else if |hay| > 0 {
      ContainsIffOccurs(hay[1..], needle);
      if exists k :: OccursAt(hay, needle, k) {
        var k :| OccursAt(hay, needle, k);
        if k > 0 {
          assert hay[1..][k - 1..k - 1 + |needle|] == hay[k..k + |needle|];
          assert OccursAt(hay[1..], needle, k - 1);
        }
      }
      if Contains(hay[1..], needle) {
        var k :| OccursAt(hay[1..], needle, k);
        assert hay[k + 1..k + 1 + |needle|] == hay[1..][k..k + |needle|];
        assert OccursAt(hay, needle, k + 1);
      }
    }
  }

  lemma ContainsEmpty(hay: string)
    ensures Contains(hay, "")
  {
    assert IsPrefix("", hay);
  }

  /** The case-insensitive search used by every list filter of the UI:
    * `field.toLowerCase().includes(query.toLowerCase())`. */
  predicate Matches(field: string, query: string) {
    Contains(Lower(field), Lower(query))
  }

  lemma EmptyQueryMatches(field: string)
    ensures Matches(field, "")
  {
    assert Lower("") == "";
    ContainsEmpty(Lower(field));
  }

  /** A field matches its own text whatever the case of the query. */
  lemma MatchesSelf(field: string)
    ensures Matches(field, field)
  {
    assert IsPrefix(Lower(field), Lower(field));
  }

  function TrimStart(s: string): (r: string)
    ensures |r| <= |s|
    ensures r != "" ==> !IsSpace(r[0])
    decreases |s|
  {
    if |s| > 0 && IsSpace(s[0]) then TrimStart(s[1..]) else s
  }

  function TrimEnd(s: string): string
    decreases |s|
  {
    if |s| > 0 && IsSpace(s[|s| - 1]) then TrimEnd(s[..|s| - 1]) else s
  }

  /** JavaScript `String.prototype.trim`. */
  function Trim(s: string): string {
    TrimEnd(TrimStart(s))
  }

  lemma {:induction false} TrimStartBlank(s: string)
    ensures TrimStart(s) == "" <==> IsBlank(s)
    decreases |s|
  {
    if |s| > 0 && IsSpace(s[0]) {
      TrimStartBlank(s[1..]);
      if IsBlank(s[1..]) {
        forall i | 0 <= i < |s| ensures IsSpace(s[i]) {
          if i > 0 { assert s[i] == s[1..][i - 1]; }
        }
      }
    }
  }

  lemma {:induction false} TrimEndEmpty(s: string)
    ensures TrimEnd(s) == "" <==> IsBlank(s)
    decreases |s|
  {
    if |s| > 0 && IsSpace(s[|s| - 1]) {
      TrimEndEmpty(s[..|s| - 1]);
      if IsBlank(s[..|s| - 1]) {
        forall i | 0 <= i < |s| ensures IsSpace(s[i]) {
          if i < |s| - 1 { assert s[i] == s[..|s| - 1][i]; }
        }
      }
    }
  }

  /** `!s.trim()` holds exactly of the blank strings. */
  lemma TrimEmptyIffBlank(s: string)
    ensures Trim(s) == "" <==> IsBlank(s)
  {
    var t := TrimStart(s);
    TrimEndEmpty(t);
    TrimStartBlank(s);
    if t != "" { assert !IsSpace(t[0]); }
  }

  /** No white space at either end. */
  predicate Trimmed(s: string) {
    s == "" || (!IsSpace(s[0]) && !IsSpace(s[|s| - 1]))
  }

  /** `TrimEnd` keeps a prefix whose last character is not white space. */
  lemma {:induction false} TrimEndShape(s: string)
    ensures |TrimEnd(s)| <= |s| && TrimEnd(s) == s[..|TrimEnd(s)|]
    ensures TrimEnd(s) != "" ==> !IsSpace(TrimEnd(s)[|TrimEnd(s)| - 1])
    decreases |s|
  {
    if |s| > 0 && IsSpace(s[|s| - 1]) {
      TrimEndShape(s[..|s| - 1]);
    }
  }

  /** `trim()` leaves no white space at either end, and trimming again
    * changes nothing. */
  lemma TrimIsTrimmed(s: string)
    ensures Trimmed(Trim(s))
    ensures Trim(Trim(s)) == Trim(s)
  {
    var t := TrimStart(s);
    var r := Trim(s);
    TrimEndShape(t);
    if r != "" {
      assert r[0] == t[0];
      assert TrimStart(r) == r;
      assert TrimEnd(r) == r;
    }
  }

  /** Python `str.split()` with no argument: the maximal runs of non-space
    * characters, in order; no empty words. */
  function SplitWords(s: string): seq<string>
    decreases |s|
  {
    var t := TrimStart(s);
    if t == "" then []
    else
      var w := WordLength(t);
      [t[..w]] + SplitWords(t[w..])
  }

  /** The length of the leading run of non-space characters. */
  function WordLength(s: string): (n: nat)
    ensures n <= |s|
    ensures |s| > 0 && !IsSpace(s[0]) ==> n > 0
    decreases |s|
  {
    if |s| == 0 || IsSpace(s[0]) then 0 else 1 + WordLength(s[1..])
  }

  lemma {:induction false} WordLengthOfWord(w: string, rest: string)
    requires forall i :: 0 <= i < |w| ==> !IsSpace(w[i])
    requires rest == [] || IsSpace(rest[0])
    ensures WordLength(w + rest) == |w|
  {
    if w != [] {
      assert (w + rest)[1..] == w[1..] + rest;
      WordLengthOfWord(w[1..], rest);
    }
  }

  lemma SplitWordsAtWord(s: string)
    requires s != [] && !IsSpace(s[0])
    ensures SplitWords(s) == [s[..WordLength(s)]] + SplitWords(s[WordLength(s)..])
  {
    assert TrimStart(s) == s;
  }

  lemma SplitWordsAtSpace(s: string)
    requires s != [] && IsSpace(s[0])
    ensures SplitWords(s) == SplitWords(s[1..])
  {
    assert TrimStart(s) == TrimStart(s[1..]);
  }

  lemma SplitOneWord(w: string)
    requires w != [] && forall i :: 0 <= i < |w| ==> !IsSpace(w[i])
    ensures SplitWords(w) == [w]
  {
    WordLengthOfWord(w, "");
    assert w + "" == w;
    SplitWordsAtWord(w);
    assert w[|w|..] == "";
  }

  /** `"<w1> <w2>".split()` is `[w1, w2]` for two non-empty words. */
  lemma TwoWords(w1: string, w2: string)
    requires w1 != [] && w2 != []
    requires forall i :: 0 <= i < |w1| ==> !IsSpace(w1[i])
    requires forall i :: 0 <= i < |w2| ==> !IsSpace(w2[i])
    ensures SplitWords(w1 + " " + w2) == [w1, w2]
  {
    var rest := " " + w2;
    var h := w1 + rest;
    assert w1 + " " + w2 == h;
    WordLengthOfWord(w1, rest);
    assert h[0] == w1[0];
    SplitWordsAtWord(h);
    assert h[..|w1|] == w1;
    assert h[|w1|..] == rest;
    SplitWordsAtSpace(rest);
    assert rest[1..] == w2;
    SplitOneWord(w2);
  }

  /** `auth.split()` is empty exactly when the header is blank: that is the
    * case where `parts[0]` raises. */
  lemma SplitWordsEmptyIffBlank(s: string)
    ensures SplitWords(s) == [] <==> IsBlank(s)
  {
    TrimStartBlank(s);
  }

  // ---------------------------------------------------------------------
  // Decimal digits
  // ---------------------------------------------------------------------

  function Pow10(w: nat): nat {
    if w == 0 then 1 else 10 * Pow10(w - 1)
  }

  predicate IsDigit(c: char) { '0' <= c <= '9' }

  function DigitChar(d: int): char
    requires 0 <= d < 10
  {
    ('0' as int + d) as char
  }

  /** `n` written with exactly `w` decimal digits, zero-padded on the left
    * (`strftime`'s `%Y`, `%m`, `%d` for values that fit). */
  function Digits(n: nat, w: nat): (r: string)
    ensures |r| == w
    ensures forall i :: 0 <= i < |r| ==> IsDigit(r[i])
  {
    if w == 0 then [] else Digits(n / 10, w - 1) + [DigitChar(n % 10)]
  }

  /** The value of a string of decimal digits. */
  function ParseDigits(s: string): nat
    requires forall i :: 0 <= i < |s| ==> IsDigit(s[i])
  {
    if s == [] then 0 else ParseDigits(s[..|s| - 1]) * 10 + DigitValue(s[|s| - 1])
  }

  function DigitValue(c: char): nat
    requires IsDigit(c)
  {
    c as int - '0' as int
  }

  lemma DivBound(n: nat, p: nat)
    requires n < 10 * p
    ensures n / 10 < p
  {
  }

  /** Reading back the digits gives the number, when it fits. */
  lemma {:induction false} DigitsRoundTrip(n: nat, w: nat)
    requires n < Pow10(w)
    ensures ParseDigits(Digits(n, w)) == n
  {
    if w > 0 {
      DivBound(n, Pow10(w - 1));
      DigitsRoundTrip(n / 10, w - 1);
      var d := Digits(n, w);
      assert d[..|d| - 1] == Digits(n / 10, w - 1);
    }
  }

  /** The shortest decimal text of `n` (`str(n)`, `JSON.stringify(n)`). */
  function NatText(n: nat): (r: string)
    ensures r != [] && forall i :: 0 <= i < |r| ==> IsDigit(r[i])
  {
    if n < 10 then [DigitChar(n)] else NatText(n / 10) + [DigitChar(n % 10)]
  }

  /** `NatText` reads back as `n` and has no leading zero. */
  lemma {:induction false} NatTextRoundTrip(n: nat)
    ensures ParseDigits(NatText(n)) == n
    ensures NatText(n)[0] == '0' ==> n == 0
  {
    if n >= 10 {
      NatTextRoundTrip(n / 10);
      var t := NatText(n);
      assert t[..|t| - 1] == NatText(n / 10);
      assert t[0] == NatText(n / 10)[0];
    }
  }

  // ---------------------------------------------------------------------
  // List aggregates
  // ---------------------------------------------------------------------

  /** `xs.map(f)`. */
  function MapSeq<T, U>(xs: seq<T>, f: T -> U): (r: seq<U>)
    ensures |r| == |xs| && forall i :: 0 <= i < |xs| ==> r[i] == f(xs[i])
  {
    seq(|xs|, i requires 0 <= i < |xs| => f(xs[i]))
  }

  /** `xs.filter(p)`. */
  function Filter<T>(xs: seq<T>, p: T -> bool): (r: seq<T>)
    ensures |r| <= |xs|
    ensures forall x :: x in r ==> x in xs && p(x)
  {
    if xs == [] then [] else (if p(xs[0]) then [xs[0]] else []) + Filter(xs[1..], p)
  }

  lemma {:induction false} FilterKeepsAll<T>(xs: seq<T>, p: T -> bool)
    requires forall x :: x in xs ==> p(x)
    ensures Filter(xs, p) == xs
  {
    if xs != [] { FilterKeepsAll(xs[1..], p); }
  }

  lemma {:induction false} FilterMembership<T>(xs: seq<T>, p: T -> bool, x: T)
    ensures x in Filter(xs, p) <==> x in xs && p(x)
  {
    if xs != [] { FilterMembership(xs[1..], p, x); }
  }

  /** Two tests that agree on every element filter the same. */
  lemma {:induction false} FilterAgree<T>(xs: seq<T>, p: T -> bool, q: T -> bool)
    requires forall x :: x in xs ==> p(x) == q(x)
    ensures Filter(xs, p) == Filter(xs, q)
  {
    if xs != [] { FilterAgree(xs[1..], p, q); }
  }

  /** Filtering twice is filtering once by both tests. */
  lemma {:induction false} FilterFilter<T>(xs: seq<T>, p: T -> bool, q: T -> bool, both: T -> bool)
    requires forall x :: x in xs ==> both(x) == (p(x) && q(x))
    ensures Filter(Filter(xs, p), q) == Filter(xs, both)
  {
    if xs != [] {
      FilterFilter(xs[1..], p, q, both);
      assert Filter(xs, p) == (if p(xs[0]) then [xs[0]] else []) + Filter(xs[1..], p);
      FilterAppend(if p(xs[0]) then [xs[0]] else [], Filter(xs[1..], p), q);
    }
  }

  lemma {:induction false} FilterAppend<T>(a: seq<T>, b: seq<T>, p: T -> bool)
    ensures Filter(a + b, p) == Filter(a, p) + Filter(b, p)
  {
    if a == [] {
      assert a + b == b;
    } else {
      assert (a + b)[1..] == a[1..] + b;
      FilterAppend(a[1..], b, p);
    }
  }

  /** `xs.findIndex(p)`, with `None` for -1. */
  function FirstIndex<T>(xs: seq<T>, p: T -> bool): (r: Option<nat>)
    ensures r.Some? ==> r.value < |xs| && p(xs[r.value]) && forall j :: 0 <= j < r.value ==> !p(xs[j])
    ensures r.None? ==> forall j :: 0 <= j < |xs| ==> !p(xs[j])
  {
    if xs == [] then None
    else if p(xs[0]) then Some(0)
    else
      var rest := FirstIndex(xs[1..], p);
      if rest.Some? then Some(rest.value + 1) else None
  }

  /** Filtering shortens the list exactly when some element fails the test. */
  lemma {:induction false} FilterShortens<T>(xs: seq<T>, p: T -> bool)
    ensures |Filter(xs, p)| < |xs| <==> exists k :: 0 <= k < |xs| && !p(xs[k])
  {
    if xs != [] {
      FilterShortens(xs[1..], p);
      if exists k :: 0 <= k < |xs[1..]| && !p(xs[1..][k]) {
        var k :| 0 <= k < |xs[1..]| && !p(xs[1..][k]);
        assert !p(xs[k + 1]);
      }
      if exists k :: 0 <= k < |xs| && !p(xs[k]) {
        var k :| 0 <= k < |xs| && !p(xs[k]);
        if k > 0 { assert xs[1..][k - 1] == xs[k]; }
      }
    }
  }

  /** `rel` holds between every element and each later one. */
  predicate Pairwise<T>(xs: seq<T>, rel: (T, T) -> bool) {
    forall i, j :: 0 <= i < j < |xs| ==> rel(xs[i], xs[j])
  }

  /** Filtering keeps the relative order: a relation holding between every
    * earlier and later element still holds in the result. */
  lemma {:induction false} FilterPairwise<T>(xs: seq<T>, p: T -> bool, rel: (T, T) -> bool)
    requires Pairwise(xs, rel)
    ensures Pairwise(Filter(xs, p), rel)
  {
    if xs != [] {
      var rest := Filter(xs[1..], p);
      assert Pairwise(xs[1..], rel) by {
        forall i, j | 0 <= i < j < |xs[1..]| ensures rel(xs[1..][i], xs[1..][j]) {
          assert xs[1..][i] == xs[i + 1] && xs[1..][j] == xs[j + 1];
        }
      }
      FilterPairwise(xs[1..], p, rel);
      var r := Filter(xs, p);
      if p(xs[0]) {
        assert r == [xs[0]] + rest;
        forall i, j | 0 <= i < j < |r| ensures rel(r[i], r[j]) {
          if i == 0 {
            assert r[j] == rest[j - 1] && rest[j - 1] in rest;
            var k :| 0 <= k < |xs[1..]| && xs[1..][k] == r[j];
            assert r[0] == xs[0] && xs[k + 1] == r[j];
            assert rel(xs[0], xs[k + 1]);
          } else {
            assert r[i] == rest[i - 1] && r[j] == rest[j - 1];
          }
        }
      } else {
        assert r == rest;
      }
    }
  }

  /** `xs.filter(p).length`. */
  function Count<T>(xs: seq<T>, p: T -> bool): nat {
    if xs == [] then 0 else (if p(xs[0]) then 1 else 0) + Count(xs[1..], p)
  }

  lemma {:induction false} CountBounded<T>(xs: seq<T>, p: T -> bool)
    ensures Count(xs, p) <= |xs|
    ensures Count(xs, p) == |Filter(xs, p)|
  {
    if xs != [] { CountBounded(xs[1..], p); }
  }

  /** A count by a weaker predicate is never smaller. */
  lemma {:induction false} CountMonotone<T>(xs: seq<T>, p: T -> bool, q: T -> bool)
    requires forall x :: p(x) ==> q(x)
    ensures Count(xs, p) <= Count(xs, q)
  {
    if xs != [] { CountMonotone(xs[1..], p, q); }
  }

  /** Counts by complementary predicates add up to the length. */
  lemma {:induction false} CountSplit<T>(xs: seq<T>, p: T -> bool, q: T -> bool)
    requires forall x :: q(x) == !p(x)
    ensures Count(xs, p) + Count(xs, q) == |xs|
  {
    if xs != [] { CountSplit(xs[1..], p, q); }
  }

  lemma {:induction false} CountAppend<T>(a: seq<T>, b: seq<T>, p: T -> bool)
    ensures Count(a + b, p) == Count(a, p) + Count(b, p)
  {
    if a == [] {
      assert a + b == b;
    } else {
      assert (a + b)[1..] == a[1..] + b;
      CountAppend(a[1..], b, p);
    }
  }

  lemma {:induction false} CountPositive<T>(xs: seq<T>, p: T -> bool)
    ensures Count(xs, p) > 0 <==> exists i :: 0 <= i < |xs| && p(xs[i])
  {
    if xs != [] {
      CountPositive(xs[1..], p);
      if exists i :: 0 <= i < |xs| && p(xs[i]) {
        var i :| 0 <= i < |xs| && p(xs[i]);
        if i > 0 { assert p(xs[1..][i - 1]); }
      }
      if exists i :: 0 <= i < |xs[1..]| && p(xs[1..][i]) {
        var i :| 0 <= i < |xs[1..]| && p(xs[1..][i]);
        assert p(xs[i + 1]);
      }
    }
  }

  /** `xs.reduce((sum, x) => sum + f(x), 0)`. */
  function Sum<T>(xs: seq<T>, f: T -> real): real {
    if xs == [] then 0.0 else f(xs[0]) + Sum(xs[1..], f)
  }

  lemma {:induction false} SumAppend<T>(a: seq<T>, b: seq<T>, f: T -> real)
    ensures Sum(a + b, f) == Sum(a, f) + Sum(b, f)
  {
    if a == [] {
      assert a + b == b;
    } else {
      assert (a + b)[1..] == a[1..] + b;
      SumAppend(a[1..], b, f);
    }
  }

  lemma {:induction false} SumNonNegative<T>(xs: seq<T>, f: T -> real)
    requires forall x :: x in xs ==> f(x) >= 0.0
    ensures Sum(xs, f) >= 0.0
  {
    if xs != [] { SumNonNegative(xs[1..], f); }
  }

  /** The sum over a sub-list of non-negative terms is at most the total. */
  lemma {:induction false} SumFilterAtMost<T>(xs: seq<T>, p: T -> bool, f: T -> real)
    requires forall x :: x in xs ==> f(x) >= 0.0
    ensures Sum(Filter(xs, p), f) <= Sum(xs, f)
  {
    if xs != [] {
      assert forall x :: x in xs[1..] ==> x in xs;
      SumFilterAtMost(xs[1..], p, f);
      assert Filter(xs, p) == (if p(xs[0]) then [xs[0]] else []) + Filter(xs[1..], p);
      SumAppend(if p(xs[0]) then [xs[0]] else [], Filter(xs[1..], p), f);
    }
  }

  lemma MulSucc(m: nat, r: real)
    ensures ((m + 1) as real) * r == (m as real) * r + r
  {
  }

  /** Terms of at least `lo` sum to at least `n * lo`. */
  lemma {:induction false} SumAtLeast<T>(xs: seq<T>, f: T -> real, lo: real)
    requires forall i :: 0 <= i < |xs| ==> lo <= f(xs[i])
    ensures (|xs| as real) * lo <= Sum(xs, f)
  {
    if xs != [] {
      var rest := xs[1..];
      SumAtLeast(rest, f, lo);
      MulSucc(|rest|, lo);
      var a := (|rest| as real) * lo;
      assert a <= Sum(rest, f);
      assert lo <= f(xs[0]);
      assert Sum(xs, f) == f(xs[0]) + Sum(rest, f);
      assert (|xs| as real) * lo == a + lo;
    }
  }

  /** Terms of at most `hi` sum to at most `n * hi`. */
  lemma {:induction false} SumAtMost<T>(xs: seq<T>, f: T -> real, hi: real)
    requires forall i :: 0 <= i < |xs| ==> f(xs[i]) <= hi
    ensures Sum(xs, f) <= (|xs| as real) * hi
  {
    if xs != [] {
      var rest := xs[1..];
      SumAtMost(rest, f, hi);
      MulSucc(|rest|, hi);
      var a := (|rest| as real) * hi;
      assert Sum(rest, f) <= a;
      assert f(xs[0]) <= hi;
      assert Sum(xs, f) == f(xs[0]) + Sum(rest, f);
      assert (|xs| as real) * hi == a + hi;
    }
  }

  /** `xs.reduce(...) / xs.length`, taken as 0 for an empty list. */
  function Mean<T>(xs: seq<T>, f: T -> real): real {
    if xs == [] then 0.0 else Sum(xs, f) / (|xs| as real)
  }

  /** A mean lies between the smallest and the largest term. */
  lemma MeanBetween<T>(xs: seq<T>, f: T -> real, lo: real, hi: real)
    requires xs != [] && forall i :: 0 <= i < |xs| ==> lo <= f(xs[i]) <= hi
    ensures lo <= Mean(xs, f) <= hi
  {
    SumAtLeast(xs, f, lo);
    SumAtMost(xs, f, hi);
    QuotientBetween(Sum(xs, f), |xs| as real, lo, hi);
  }

  lemma QuotientBetween(s: real, n: real, lo: real, hi: real)
    requires n > 0.0 && n * lo <= s <= n * hi
    ensures lo <= s / n <= hi
  {
    var q := s / n;
    assert q * n == s;
    assert (q - lo) * n >= 0.0;
    assert (hi - q) * n >= 0.0;
  }

  /** The first `n` elements (`slice(0, n)`). */
  function Take<T>(xs: seq<T>, n: nat): (r: seq<T>)
    ensures |r| <= n && |r| <= |xs|
    ensures r == xs[..|r|]
  {
    if |xs| <= n then xs else xs[..n]
  }

  predicate NoDuplicates<T(==)>(xs: seq<T>) {
    forall i, j :: 0 <= i < j < |xs| ==> xs[i] != xs[j]
  }

  /** `Array.from(new Set(xs))`: first occurrences, in order. */
  function Distinct<T(==)>(xs: seq<T>): seq<T>
    decreases |xs|
  {
    if xs == [] then []
    else
      var r := Distinct(xs[..|xs| - 1]);
      if xs[|xs| - 1] in r then r else r + [xs[|xs| - 1]]
  }

  lemma {:induction false} DistinctSpec<T>(xs: seq<T>)
    ensures NoDuplicates(Distinct(xs))
    ensures forall x :: x in Distinct(xs) <==> x in xs
    decreases |xs|
  {
    if xs != [] {
      var init := xs[..|xs| - 1];
      DistinctSpec(init);
      assert xs == init + [xs[|xs| - 1]];
    }
  }

  /** `Distinct` of a list that already has no duplicates is the list. */
  lemma {:induction false} DistinctOfDistinct<T>(xs: seq<T>)
    requires NoDuplicates(xs)
    ensures Distinct(xs) == xs
    decreases |xs|
  {
    if xs != [] {
      var init := xs[..|xs| - 1];
      assert NoDuplicates(init);
      DistinctOfDistinct(init);
      assert xs[|xs| - 1] !in init;
      assert xs == init + [xs[|xs| - 1]];
    }
  }

  /** `set.has(x) ? set.delete(x) : set.add(x)` on a fresh copy. */
  function Toggle<T(!new)>(s: set<T>, x: T): (r: set<T>)
    ensures x in r <==> x !in s
    ensures forall y :: y != x ==> (y in r <==> y in s)
  {
    if x in s then s - {x} else s + {x}
  }

  lemma ToggleTwice<T(!new)>(s: set<T>, x: T)
    ensures Toggle(Toggle(s, x), x) == s
  {
  }

  // ---------------------------------------------------------------------
  // Sorting
  // ---------------------------------------------------------------------

  /** `le(a, b)` reads "a may come before b"; the source's comparators are
    * total: for any two elements one may precede the other. */
  ghost predicate Total<T(!new)>(le: (T, T) -> bool) {
    forall a, b :: le(a, b) || le(b, a)
  }

  predicate SortedBy<T>(xs: seq<T>, le: (T, T) -> bool) {
    forall i :: 0 < i < |xs| ==> le(xs[i - 1], xs[i])
  }

  function Insert<T>(x: T, xs: seq<T>, le: (T, T) -> bool): seq<T> {
    if xs == [] then [x]
    else if le(x, xs[0]) then [x] + xs
    else [xs[0]] + Insert(x, xs[1..], le)
  }

  /** The result of `[...xs].sort(cmp)`: each element is placed before the
    * first later-sorted element it may precede, so ties keep their order. */
  function SortBy<T>(xs: seq<T>, le: (T, T) -> bool): seq<T> {
    if xs == [] then [] else Insert(xs[0], SortBy(xs[1..], le), le)
  }

  lemma {:induction false} InsertPermutes<T>(x: T, xs: seq<T>, le: (T, T) -> bool)
    ensures multiset(Insert(x, xs, le)) == multiset(xs) + multiset{x}
    ensures |Insert(x, xs, le)| == |xs| + 1
  {
    if xs != [] && !le(x, xs[0]) {
      InsertPermutes(x, xs[1..], le);
      assert xs == [xs[0]] + xs[1..];
    }
  }

  lemma {:induction false} InsertSorted<T(!new)>(x: T, xs: seq<T>, le: (T, T) -> bool)
    requires Total(le) && SortedBy(xs, le)
    ensures SortedBy(Insert(x, xs, le), le)
    ensures Insert(x, xs, le) != []
    ensures Insert(x, xs, le)[0] == x || (xs != [] && Insert(x, xs, le)[0] == xs[0])
  {
    if xs != [] && !le(x, xs[0]) {
      var rest := xs[1..];
      assert SortedBy(rest, le) by {
        forall i | 0 < i < |rest| ensures le(rest[i - 1], rest[i]) {
          assert rest[i - 1] == xs[i] && rest[i] == xs[i + 1];
        }
      }
      InsertSorted(x, rest, le);
      var tail := Insert(x, rest, le);
      assert le(xs[0], tail[0]) by {
        if tail[0] == x { assert le(xs[0], x); } else { assert tail[0] == xs[1]; }
      }
      var r := [xs[0]] + tail;
      forall i | 0 < i < |r| ensures le(r[i - 1], r[i]) {
        if i > 1 { assert r[i - 1] == tail[i - 2] && r[i] == tail[i - 1]; }
      }
    }
  }

  /** Sorting yields an ordered permutation of its input. */
  lemma {:induction false} SortBySpec<T(!new)>(xs: seq<T>, le: (T, T) -> bool)
    requires Total(le)
    ensures SortedBy(SortBy(xs, le), le)
    ensures multiset(SortBy(xs, le)) == multiset(xs)
    ensures |SortBy(xs, le)| == |xs|
  {
    if xs != [] {
      SortBySpec(xs[1..], le);
      InsertPermutes(xs[0], SortBy(xs[1..], le), le);
      InsertSorted(xs[0], SortBy(xs[1..], le), le);
      assert xs == [xs[0]] + xs[1..];
    }
  }

  /** A comparator that orders descending by a numeric key. */
  function ByDesc<T>(key: T -> real): (T, T) -> bool {
    (a: T, b: T) => key(a) >= key(b)
  }

  function ByAsc<T>(key: T -> real): (T, T) -> bool {
    (a: T, b: T) => key(a) <= key(b)
  }

  lemma KeyOrderTotal<T(!new)>(key: T -> real)
    ensures Total(ByDesc(key)) && Total(ByAsc(key))
  {
  }

  /** Sorting by a descending key puts a largest key first. */
  lemma {:induction false} SortedDescFirstIsMax<T>(xs: seq<T>, key: T -> real, i: nat)
    requires SortedBy(xs, ByDesc(key)) && i < |xs|
    ensures key(xs[0]) >= key(xs[i])
  {
    if i > 0 {
      SortedDescFirstIsMax(xs, key, i - 1);
      assert ByDesc(key)(xs[i - 1], xs[i]);
    }
  }

  ghost predicate Transitive<T(!new)>(le: (T, T) -> bool) {
    forall a, b, c :: le(a, b) && le(b, c) ==> le(a, c)
  }

  /** In a list ordered by a transitive relation, each element may precede
    * every later one, not only its neighbour. */
  lemma {:induction false} SortedPairwise<T(!new)>(xs: seq<T>, le: (T, T) -> bool, i: nat, j: nat)
    requires Transitive(le) && SortedBy(xs, le) && i < j < |xs|
    ensures le(xs[i], xs[j])
  {
    if j > i + 1 {
      SortedPairwise(xs, le, i, j - 1);
      assert le(xs[j - 1], xs[j]);
    }
  }

  /** The two-level comparator `(a, b) => (primary(b) - primary(a)) ||
    * (secondary(a) - secondary(b))`: larger primary key first, ties broken
    * by the smaller secondary key. */
  function DescThenAsc<T>(primary: T -> real, secondary: T -> real): (T, T) -> bool {
    (a: T, b: T) => primary(a) > primary(b) || (primary(a) == primary(b) && secondary(a) <= secondary(b))
  }

  lemma DescThenAscOrders<T(!new)>(primary: T -> real, secondary: T -> real)
    ensures Total(DescThenAsc(primary, secondary))
    ensures Transitive(DescThenAsc(primary, secondary))
  {
  }

  /** `[...xs].sort(cmp).slice(0, n)` is ordered and holds the first
    * `min(n, |xs|)` elements, all drawn from `xs`. */
  lemma TopOrdered<T(!new)>(xs: seq<T>, le: (T, T) -> bool, n: nat)
    requires Total(le)
    ensures |Take(SortBy(xs, le), n)| == (if |xs| < n then |xs| else n)
    ensures SortedBy(Take(SortBy(xs, le), n), le)
    ensures forall x :: x in Take(SortBy(xs, le), n) ==> x in xs
  {
    var sorted := SortBy(xs, le);
    var r := Take(sorted, n);
    SortBySpec(xs, le);
    forall i | 0 < i < |r| ensures le(r[i - 1], r[i]) {
      assert r[i - 1] == sorted[i - 1] && r[i] == sorted[i];
    }
    forall x | x in r ensures x in xs {
      assert x in multiset(sorted);
    }
  }

  /** `[...xs].sort(cmp).slice(0, n)` keeps the best `n`: every element it
    * returns may precede every element it leaves out. */
  lemma TakeSortedIsTop<T(!new)>(xs: seq<T>, le: (T, T) -> bool, n: nat, y: T, i: nat)
    requires Total(le) && Transitive(le)
    requires i < |Take(SortBy(xs, le), n)|
    requires y in xs && y !in Take(SortBy(xs, le), n)
    ensures le(Take(SortBy(xs, le), n)[i], y)
  {
    var sorted := SortBy(xs, le);
    var top := Take(sorted, n);
    SortBySpec(xs, le);
    assert y in multiset(sorted);
    var j :| 0 <= j < |sorted| && sorted[j] == y;
    assert forall k :: 0 <= k < |top| ==> top[k] == sorted[k];
    assert j >= |top|;
    assert top[i] == sorted[i];
    SortedPairwise(sorted, le, i, j);
  }
}
