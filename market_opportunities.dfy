/**
 * The market-opportunities panel
 * (business-platform/backup/frontend-2025-10-04_12-27-42/src/components/MarketOpportunities.tsx):
 * the opportunities offered to a user type, their search, type filter and
 * three sort orders, the summary figures, sending an opportunity to the
 * shared market, and the tab of public supplier exhibitions gathered from
 * every `exhibitions_<supplier>` entry of local storage.
 *
 * The fixture opportunities per user type are a parameter (`Catalogue`).
 */
module MarketOpportunities {
  import opened Common
  import ExhibitionGallery

  datatype OppType = Partnership | Expansion | Trend | Seasonal | Premium
  datatype Level = High | Medium | LowLevel

  datatype Opportunity = Opportunity(
    id: string, title: string, description: string, kind: OppType, priority: Level,
    estimatedRevenue: string, timeframe: string, effort: Level, successRate: int, tags: seq<string>)

  /** The `baseOpportunities` table, keyed by user type. */
  type Catalogue = map<string, seq<Opportunity>>

  /** `getOpportunitiesForUser`: the table's list, or none for a user type it
    * does not know. */
  function OpportunitiesFor(table: Catalogue, userType: string): (r: seq<Opportunity>)
    ensures userType !in table ==> r == []
    ensures userType in table ==> r == table[userType]
  {
    if userType in table then table[userType] else []
  }

  // ---------------------------------------------------------------------
  // Search, filter, sort
  // ---------------------------------------------------------------------

  /** Some tag matches the search. */
  predicate TagMatches(tags: seq<string>, term: string) {
    exists k :: 0 <= k < |tags| && Matches(tags[k], term)
  }

  function SearchHit(term: string): Opportunity -> bool {
    (o: Opportunity) => Matches(o.title, term) || Matches(o.description, term) || TagMatches(o.tags, term)
  }

  function OfType(kind: OppType): Opportunity -> bool {
    (o: Opportunity) => o.kind == kind
  }

  /** The sort selector. */
  datatype SortKey = ByPriority | ByRevenue | BySuccess

  /** `{ high: 3, medium: 2, low: 1 }`. */
  function Rank(l: Level): (r: int)
    ensures 1 <= r <= 3
  {
    match l
    case High => 3
    case Medium => 2
    case LowLevel => 1
  }

  function PriorityKey(o: Opportunity): real { Rank(o.priority) as real }
  function RevenueKey(o: Opportunity): real { ParseIntOrZero(o.estimatedRevenue) as real }
  function SuccessKey(o: Opportunity): real { o.successRate as real }

  /** The comparator: descending by the chosen key. */
  function KeyOf(sortBy: SortKey): Opportunity -> real {
    match sortBy
    case ByPriority => PriorityKey
    case ByRevenue => RevenueKey
    case BySuccess => SuccessKey
  }

  /** `filteredAndSortedOpportunities`: a non-empty search keeps the
    * opportunities whose title, description or some tag matches; a type
    * other than "all" (`None`) keeps that type; then the sort. */
  function Shown(ops: seq<Opportunity>, term: string, kind: Option<OppType>, sortBy: SortKey): seq<Opportunity> {
    var searched := if term != "" then Filter(ops, SearchHit(term)) else ops;
    var typed := if kind.Some? then Filter(searched, OfType(kind.value)) else searched;
    SortBy(typed, ByDesc(KeyOf(sortBy)))
  }

  /** The two tests together: the search (when not empty) and the type
    * (when not "all"). */
  predicate Passes(o: Opportunity, term: string, kind: Option<OppType>) {
    (term == "" || SearchHit(term)(o)) && (kind.None? || o.kind == kind.value)
  }

  function PassesTest(term: string, kind: Option<OppType>): Opportunity -> bool {
    (o: Opportunity) => Passes(o, term, kind)
  }

  /** Searching, then filtering by type, keeps the list's order and is one
    * filter by both tests. */
  lemma SearchedThenTyped(ops: seq<Opportunity>, term: string, kind: Option<OppType>)
    ensures var searched := if term != "" then Filter(ops, SearchHit(term)) else ops;
      (if kind.Some? then Filter(searched, OfType(kind.value)) else searched) == Filter(ops, PassesTest(term, kind))
  {
    if term != "" && kind.Some? {
      FilterFilter(ops, SearchHit(term), OfType(kind.value), PassesTest(term, kind));
    } else if term != "" {
      FilterAgree(ops, SearchHit(term), PassesTest(term, kind));
    } else if kind.Some? {
      FilterAgree(ops, OfType(kind.value), PassesTest(term, kind));
    } else {
      FilterKeepsAll(ops, PassesTest(term, kind));
    }
  }

  /** The panel shows exactly the opportunities passing the search and the
    * type filter, each as often as in the list, ordered by the chosen key
    * from largest to smallest; the priority order puts every high before
    * every medium and every medium before every low. */
  lemma ShownSpec(ops: seq<Opportunity>, term: string, kind: Option<OppType>, sortBy: SortKey)
    ensures var r := Shown(ops, term, kind, sortBy);
      && SortedBy(r, ByDesc(KeyOf(sortBy)))
      && multiset(r) == multiset(Filter(ops, PassesTest(term, kind)))
      && (forall o :: o in r <==> o in ops && Passes(o, term, kind))
      && (term == "" && kind.None? ==> multiset(r) == multiset(ops))
      && (sortBy == ByPriority ==>
            forall i, j :: 0 <= i < j < |r| ==> Rank(r[i].priority) >= Rank(r[j].priority))
  {
    var typed := Filter(ops, PassesTest(term, kind));
    SearchedThenTyped(ops, term, kind);
    KeyOrderTotal(KeyOf(sortBy));
    SortBySpec(typed, ByDesc(KeyOf(sortBy)));
    var r := SortBy(typed, ByDesc(KeyOf(sortBy)));
    forall o ensures o in r <==> o in typed {
      assert o in r <==> o in multiset(r);
    }
    forall o ensures o in typed <==> o in ops && Passes(o, term, kind) {
      FilterMembership(ops, PassesTest(term, kind), o);
    }
    if term == "" && kind.None? {
      FilterKeepsAll(ops, PassesTest(term, kind));
    }
    if sortBy == ByPriority {
      forall i, j | 0 <= i < j < |r| ensures Rank(r[i].priority) >= Rank(r[j].priority) {
        SortedPairwise(r, ByDesc(PriorityKey), i, j);
      }
    }
  }

  /** An empty search, the "all" type and the priority sort show a list
    * whose first opportunity has the highest priority of them all. */
  lemma FirstIsMostUrgent(ops: seq<Opportunity>, i: nat)
    requires i < |ops|
    ensures var r := Shown(ops, "", None, ByPriority);
      r != [] && Rank(r[0].priority) >= Rank(ops[i].priority)
  {
    var r := Shown(ops, "", None, ByPriority);
    ShownSpec(ops, "", None, ByPriority);
    assert ops[i] in multiset(r);
    var j :| 0 <= j < |r| && r[j] == ops[i];
    SortedDescFirstIsMax(r, PriorityKey, j);
  }

  // ---------------------------------------------------------------------
  // `parseInt(s.replace(/,/g, '')) || 0`
  // ---------------------------------------------------------------------

  function StripCommas(s: string): (r: string)
    ensures forall i :: 0 <= i < |r| ==> r[i] != ','
  {
    if s == "" then "" else (if s[0] == ',' then "" else [s[0]]) + StripCommas(s[1..])
  }

  /** The number of leading decimal digits. */
  function LeadingDigits(s: string): (n: nat)
    ensures n <= |s|
    ensures forall i :: 0 <= i < n ==> IsDigit(s[i])
    ensures n < |s| ==> !IsDigit(s[n])
  {
    if s != "" && IsDigit(s[0]) then 1 + LeadingDigits(s[1..]) else 0
  }

  /** `parseInt` in base ten after leading white space and an optional sign;
    * no digits gives NaN, which `|| 0` turns into 0. */
  function ParseIntOrZero(s: string): int {
    ParseLeadingInt(StripCommas(s))
  }

  /** `parseInt(u) || 0` for text without commas. */
  function ParseLeadingInt(u: string): int {
    var t := TrimStart(u);
    var signed := t != "" && (t[0] == '-' || t[0] == '+');
    var body := if signed then t[1..] else t;
    var n := LeadingDigits(body);
    var value: int := if n == 0 then 0 else ParseDigits(body[..n]);
    if signed && t[0] == '-' then -value else value
  }

  lemma {:induction false} StripCommasAppend(a: string, b: string)
    requires forall i :: 0 <= i < |a| ==> a[i] != ','
    ensures StripCommas(a + b) == a + StripCommas(b)
  {
    if a == "" {
      assert a + b == b;
    } else {
      StripCommasAppend(a[1..], b);
      assert a[0] != ',';
      calc {
        StripCommas(a + b);
        [a[0]] + StripCommas((a + b)[1..]);
        { assert (a + b)[1..] == a[1..] + b; }
        [a[0]] + (a[1..] + StripCommas(b));
        { assert a == [a[0]] + a[1..]; }
        a + StripCommas(b);
      }
    }
  }

  lemma {:induction false} LeadingDigitsOfNumber(d: string, rest: string)
    requires forall i :: 0 <= i < |d| ==> IsDigit(d[i])
    requires rest == "" || !IsDigit(rest[0])
    ensures LeadingDigits(d + rest) == |d|
  {
    if d != "" {
      LeadingDigitsOfNumber(d[1..], rest);
      assert (d + rest)[1..] == d[1..] + rest;
    }
  }

  /** Digits followed by anything but a digit or a comma read as those
    * digits. */
  lemma DigitsThen(d: string, unit: string)
    requires d != "" && forall i :: 0 <= i < |d| ==> IsDigit(d[i])
    requires unit == "" || (unit[0] != ',' && !IsDigit(unit[0]))
    ensures ParseIntOrZero(d + unit) == ParseDigits(d)
  {
    StripCommasAppend(d, unit);
    var rest := StripCommas(unit);
    assert rest == "" || rest[0] == unit[0];
    LeadingDigitsThen(d, rest);
  }

  lemma LeadingDigitsThen(d: string, rest: string)
    requires d != "" && forall i :: 0 <= i < |d| ==> IsDigit(d[i])
    requires rest == "" || !IsDigit(rest[0])
    ensures ParseLeadingInt(d + rest) == ParseDigits(d)
  {
    var t := d + rest;
    assert t[0] == d[0] && IsDigit(t[0]);
    assert TrimStart(t) == t by {
      assert !IsSpace(t[0]);
    }
    LeadingDigitsOfNumber(d, rest);
    assert t[..|d|] == d;
  }

  /** An amount written in digits and followed by a unit ("45000 ريال")
    * reads back as that amount. */
  lemma RevenueOfAmount(n: nat, unit: string)
    requires unit == "" || (unit[0] != ',' && !IsDigit(unit[0]))
    ensures ParseIntOrZero(NatText(n) + unit) == n
  {
    DigitsThen(NatText(n), unit);
    NatTextRoundTrip(n);
  }

  lemma {:induction false} ParseDigitsAppend(x: string, y: string)
    requires forall i :: 0 <= i < |x| ==> IsDigit(x[i])
    requires forall i :: 0 <= i < |y| ==> IsDigit(y[i])
    ensures ParseDigits(x + y) == ParseDigits(x) * Pow10(|y|) + ParseDigits(y)
  {
    if y == [] {
      assert x + y == x;
    } else {
      var y0 := y[..|y| - 1];
      ParseDigitsAppend(x, y0);
      assert (x + y)[..|x + y| - 1] == x + y0;
      ShiftDigit(ParseDigits(x), ParseDigits(y0), DigitValue(y[|y| - 1]), Pow10(|y0|));
    }
  }

  /** Appending a digit to the lower part of a two-part number. */
  lemma ShiftDigit(high: nat, low: nat, d: nat, p: nat)
    ensures (high * p + low) * 10 + d == high * (10 * p) + (low * 10 + d)
  {
  }

  /** An amount written with a thousands comma and a unit ("45,000 ريال")
    * reads back as that amount. */
  lemma RevenueOfGroupedAmount(thousands: nat, rest: nat, unit: string)
    requires rest < 1000
    requires unit == "" || (unit[0] != ',' && !IsDigit(unit[0]))
    ensures ParseIntOrZero(NatText(thousands) + "," + Digits(rest, 3) + unit) == thousands * 1000 + rest
  {
    var d := NatText(thousands);
    var g := Digits(rest, 3);
    DropComma(d, g + unit);
    assert d + "," + g + unit == d + "," + (g + unit);
    assert (d + g) + unit == d + (g + unit);
    DigitsThen(d + g, unit);
    ParseDigitsAppend(d, g);
    NatTextRoundTrip(thousands);
    DigitsRoundTrip(rest, 3);
  }

  /** A comma after a run of digits does not change what `parseInt` reads. */
  lemma DropComma(d: string, rest: string)
    requires forall i :: 0 <= i < |d| ==> IsDigit(d[i])
    ensures ParseIntOrZero(d + "," + rest) == ParseIntOrZero(d + rest)
  {
    StripCommasAppend(d, "," + rest);
    StripCommasAppend(d, rest);
    assert d + "," + rest == d + ("," + rest);
    assert ("," + rest)[1..] == rest;
    assert StripCommas(d + "," + rest) == StripCommas(d + rest);
  }

  /** Text that starts with neither a digit, a sign, white space nor a comma
    * reads as 0. */
  lemma NoNumberIsZero(s: string)
    requires s == "" || !(IsDigit(s[0]) || s[0] == '-' || s[0] == '+' || s[0] == ',' || IsSpace(s[0]))
    ensures ParseIntOrZero(s) == 0
  {
    if s != "" {
      var t := StripCommas(s);
      assert t[0] == s[0];
      assert TrimStart(t) == t;
    }
  }

  // ---------------------------------------------------------------------
  // Summary figures
  // ---------------------------------------------------------------------

  /** A JavaScript number that is either an integer or NaN. */
  datatype Average = Rounded(value: int) | NotANumber

  /** `Math.round(x)`: halves go up. */
  function Round(x: real): int {
    (x + 0.5).Floor
  }

  /** `Math.round(Σ successRate / length)`; 0 / 0 is NaN. */
  function AvgSuccess(ops: seq<Opportunity>): Average {
    if ops == [] then NotANumber else Rounded(Round(Mean(ops, SuccessKey)))
  }

  /** The rounded mean is a number exactly when there are opportunities,
    * and then lies between the lowest and the highest rate. */
  lemma AvgSuccessSpec(ops: seq<Opportunity>, lo: int, hi: int)
    requires forall i :: 0 <= i < |ops| ==> lo <= ops[i].successRate <= hi
    ensures AvgSuccess(ops).NotANumber? <==> ops == []
    ensures ops != [] ==> lo <= AvgSuccess(ops).value <= hi
  {
    if ops != [] {
      MeanBetween(ops, SuccessKey, lo as real, hi as real);
    }
  }

  predicate IsHighPriority(o: Opportunity) { o.priority == High }
  predicate IsLowEffort(o: Opportunity) { o.effort == LowLevel }
  predicate IsTrend(o: Opportunity) { o.kind == Trend }

  datatype Stats = Stats(total: nat, highPriority: nat, avgSuccess: Average, lowEffort: nat, trending: nat)

  /** `stats`, over the user's whole list whatever the search. */
  function StatsOf(ops: seq<Opportunity>): Stats {
    Stats(|ops|, Count(ops, IsHighPriority), AvgSuccess(ops), Count(ops, IsLowEffort), Count(ops, IsTrend))
  }

  /** Each count is the number of opportunities of its kind, none exceeds
    * the total, and the average is NaN only for an empty list. */
  lemma StatsSpec(ops: seq<Opportunity>)
    ensures var s := StatsOf(ops);
      && s.highPriority == |Filter(ops, IsHighPriority)| <= s.total
      && s.lowEffort == |Filter(ops, IsLowEffort)| <= s.total
      && s.trending == |Filter(ops, IsTrend)| <= s.total
      && (s.avgSuccess.NotANumber? <==> s.total == 0)
  {
    CountBounded(ops, IsHighPriority);
    CountBounded(ops, IsLowEffort);
    CountBounded(ops, IsTrend);
  }

  // ---------------------------------------------------------------------
  // The shared market and the exhibitions tab
  // ---------------------------------------------------------------------

  datatype User = User(id: string, name: string, userType: string)

  /** The market item `sendToMarketplace` adds (stock 1, type offer). */
  datatype OfferListing = OfferListing(id: string, name: string, price: int, category: string,
                                       description: string, sku: string, providerId: string, providerName: string)

  /** The market category of an opportunity type. */
  function CategoryOf(kind: OppType): string {
    match kind
    case Partnership => "شراكة"
    case Expansion => "توسع"
    case Trend => "اتجاه"
    case Seasonal => "موسمي"
    case Premium => "مميز"
  }

  function OfferOf(o: Opportunity, u: User, itemId: string): OfferListing {
    OfferListing(itemId, o.title, ParseIntOrZero(o.estimatedRevenue), CategoryOf(o.kind),
                 o.description, "OPP-" + o.id, u.id, u.name)
  }

  /** What one local-storage entry holds: nothing (or the empty string), text
    * `JSON.parse` throws on, or a list of exhibitions. */
  datatype StoredList = Absent | Garbled | Listed(exhibitions: seq<ExhibitionGallery.Exhibition>)

  predicate IsPublic(e: ExhibitionGallery.Exhibition) {
    e.visibility == ExhibitionGallery.Public
  }

  /** The public exhibitions of the `exhibitions_` entries, in key order. */
  function PublicFrom(entries: seq<(string, StoredList)>): seq<ExhibitionGallery.Exhibition> {
    if entries == [] then []
    else
      var more := PublicFrom(entries[..|entries| - 1]);
      var (key, stored) := entries[|entries| - 1];
      if IsPrefix("exhibitions_", key) && stored.Listed? then more + Filter(stored.exhibitions, IsPublic) else more
  }

  /** Entry `k` is a readable `exhibitions_` entry listing `e`. */
  predicate ListedIn(entries: seq<(string, StoredList)>, k: int, e: ExhibitionGallery.Exhibition) {
    0 <= k < |entries| && IsPrefix("exhibitions_", entries[k].0) &&
    entries[k].1.Listed? && e in entries[k].1.exhibitions
  }

  /** Every exhibition on the tab is public and comes from a readable
    * `exhibitions_` entry, and every public exhibition of such an entry is
    * on the tab. */
  lemma {:induction false} PublicFromSpec(entries: seq<(string, StoredList)>, e: ExhibitionGallery.Exhibition)
    ensures e in PublicFrom(entries) <==> IsPublic(e) && exists k :: ListedIn(entries, k, e)
  {
    if entries != [] {
      var last := |entries| - 1;
      var init := entries[..last];
      PublicFromSpec(init, e);
      var (key, stored) := entries[last];
      var added := if IsPrefix("exhibitions_", key) && stored.Listed? then Filter(stored.exhibitions, IsPublic) else [];
      assert PublicFrom(entries) == PublicFrom(init) + added;
      if IsPrefix("exhibitions_", key) && stored.Listed? {
        FilterMembership(stored.exhibitions, IsPublic, e);
      }
      if e in PublicFrom(entries) {
        if e in added {
          assert ListedIn(entries, last, e);
        } else {
          var k :| ListedIn(init, k, e);
          assert ListedIn(entries, k, e);
        }
      }
      if IsPublic(e) && exists k :: ListedIn(entries, k, e) {
        var k :| ListedIn(entries, k, e);
        if k < last {
          assert ListedIn(init, k, e);
        } else {
          assert e in added;
        }
      }
    }
  }

  class Board {
    var exhibitions: seq<ExhibitionGallery.Exhibition>
    /** The shared market's offers. */
    var market: seq<OfferListing>

    constructor (market: seq<OfferListing>)
      ensures exhibitions == [] && this.market == market
    {
      exhibitions := [];
      this.market := market;
    }

    /** `loadExhibitions`: walks the storage entries and gathers the public
      * exhibitions of each readable `exhibitions_` entry. */
    method LoadExhibitions(entries: seq<(string, StoredList)>)
      modifies this`exhibitions
      ensures exhibitions == PublicFrom(entries)
    {
      var all: seq<ExhibitionGallery.Exhibition> := [];
      var i := 0;
      while i < |entries|
        invariant 0 <= i <= |entries|
        invariant all == PublicFrom(entries[..i])
      {
        var (key, stored) := entries[i];
        if IsPrefix("exhibitions_", key) && stored.Listed? {
          all := all + Filter(stored.exhibitions, IsPublic);
        }
        assert entries[..i + 1][..i] == entries[..i];
        i := i + 1;
      }
      assert entries[..i] == entries;
      exhibitions := all;
    }

    /** `sendToMarketplace`: refused without a signed-in user; otherwise one
      * offer priced at the parsed revenue joins the market. */
    method SendToMarketplace(user: Option<User>, o: Opportunity, itemId: string) returns (sent: bool)
      modifies this`market
      ensures sent <==> user.Some?
      ensures sent ==> market == old(market) + [OfferOf(o, user.value, itemId)]
      ensures !sent ==> market == old(market)
    {
      if user.None? {
        return false;
      }
      market := market + [OfferOf(o, user.value, itemId)];
      sent := true;
    }
  }
}
