/**
 * The supplier's partners page
 * (enhanced-business-platform/src/components/supplier/SupplierMerchants.jsx):
 * merchants and shipping companies the supplier works with, kept in the
 * browser under `supplier_partners_v1`, listed with a star rating, narrowed
 * by a search and by rating and type selectors, and extended through an
 * "add partner" form that posts to the API and falls back to a local record
 * when the call fails.
 *
 * The fixture partners, the API's answer and `Date.now()` are parameters.
 */
module SupplierMerchants {
  import opened Common

  /** A partner as stored; `None` is a field the stored object lacks. */
  datatype Partner = Partner(
    id: int, name: Option<string>, email: Option<string>, phone: Option<string>,
    partnerType: Option<string>, businessType: Option<string>, services: Option<string>,
    rating: Option<real>, totalOrders: int, totalSpent: Option<real>, status: Option<string>,
    lastOrderDate: string, paymentTerms: string)

  // ---------------------------------------------------------------------
  // Stars
  // ---------------------------------------------------------------------

  datatype Star = Full | Half | Empty

  /** `Math.ceil`. */
  function Ceil(r: real): int {
    -((-r).Floor)
  }

  /** `rating % 1 !== 0`. */
  predicate HasFraction(r: real) {
    r.Floor as real != r
  }

  /** `n` copies of `x`; none when `n` is not positive, as a counting loop
    * with that bound runs no times. */
  function Repeat<T>(x: T, n: int): (r: seq<T>)
    ensures |r| == if n > 0 then n else 0
    ensures forall i :: 0 <= i < |r| ==> r[i] == x
    decreases n
  {
    if n <= 0 then [] else Repeat(x, n - 1) + [x]
  }

  /** The row of stars for a rating: the full ones, a half one for a
    * fractional rating, and the empty ones up to five. */
  function StarsOf(r: real): seq<Star> {
    Repeat(Full, r.Floor) + (if HasFraction(r) then [Half] else []) + Repeat(Empty, 5 - Ceil(r))
  }

  /** The ceiling is the floor for a whole rating and one more otherwise. */
  lemma CeilOfFloor(r: real)
    ensures !HasFraction(r) ==> Ceil(r) == r.Floor
    ensures HasFraction(r) ==> Ceil(r) == r.Floor + 1
  {
    var f := r.Floor;
    if HasFraction(r) {
      assert (f as real) < r < (f as real) + 1.0;
      assert (-f - 1) as real < -r < (-f) as real;
      assert (-r).Floor == -f - 1;
    } else {
      assert -r == (-f) as real;
    }
  }

  /** A rating from 0 to 5 is drawn as exactly five stars: as many full
    * stars as its whole part, a half star exactly when it has a fraction,
    * and empty stars for the rest. */
  lemma StarsSpec(r: real)
    requires 0.0 <= r <= 5.0
    ensures |StarsOf(r)| == 5
    ensures Count(StarsOf(r), IsStar(Full)) == r.Floor
    ensures Count(StarsOf(r), IsStar(Half)) == if HasFraction(r) then 1 else 0
    ensures Count(StarsOf(r), IsStar(Empty)) == 5 - Ceil(r)
  {
    CeilOfFloor(r);
    var half: seq<Star> := if HasFraction(r) then [Half] else [];
    var full := Repeat(Full, r.Floor);
    var empty := Repeat(Empty, 5 - Ceil(r));
    CountAppend(full + half, empty, IsStar(Full));
    CountAppend(full, half, IsStar(Full));
    CountAppend(full + half, empty, IsStar(Half));
    CountAppend(full, half, IsStar(Half));
    CountAppend(full + half, empty, IsStar(Empty));
    CountAppend(full, half, IsStar(Empty));
    CountRepeat(Full, r.Floor, Full);
    CountRepeat(Full, r.Floor, Half);
    CountRepeat(Full, r.Floor, Empty);
    CountRepeat(Empty, 5 - Ceil(r), Full);
    CountRepeat(Empty, 5 - Ceil(r), Half);
    CountRepeat(Empty, 5 - Ceil(r), Empty);
  }

  function IsStar(s: Star): Star -> bool {
    (t: Star) => t == s
  }

  lemma {:induction false} CountRepeat(x: Star, n: int, s: Star)
    ensures Count(Repeat(x, n), IsStar(s)) == if x == s && n > 0 then n else 0
    decreases n
  {
    if n > 0 {
      CountRepeat(x, n - 1, s);
      CountAppend(Repeat(x, n - 1), [x], IsStar(s));
    }
  }

  /** `renderStars`: a loop for the full stars, a test for the half star,
    * and a loop for the empty stars. */
  method RenderStars(rating: real) returns (stars: seq<Star>)
    ensures stars == StarsOf(rating)
  {
    var fullStars := rating.Floor;
    stars := [];
    var i := 0;
    while i < fullStars
      invariant 0 <= i <= if fullStars > 0 then fullStars else 0
      invariant stars == Repeat(Full, i)
    {
      stars := stars + [Full];
      i := i + 1;
    }
    assert stars == Repeat(Full, fullStars);
    if HasFraction(rating) {
      stars := stars + [Half];
    }
    var before := stars;
    var emptyStars := 5 - Ceil(rating);
    var j := 0;
    while j < emptyStars
      invariant 0 <= j <= if emptyStars > 0 then emptyStars else 0
      invariant stars == before + Repeat(Empty, j)
    {
      stars := stars + [Empty];
      j := j + 1;
    }
  }

  // ---------------------------------------------------------------------
  // The list filter
  // ---------------------------------------------------------------------

  /** The rating selector; a missing rating compares false both ways. */
  predicate RatingPasses(filter: string, rating: Option<real>) {
    filter == "all" ||
    (filter == "high" && rating.Some? && rating.value >= 4.5) ||
    (filter == "medium" && rating.Some? && rating.value >= 3.5 && rating.value < 4.5) ||
    (filter == "low" && rating.Some? && rating.value < 3.5)
  }

  /** Every rating falls in exactly one of the three bands, and a partner
    * without a rating passes only "all". */
  lemma RatingBandsPartition(rating: Option<real>)
    ensures RatingPasses("all", rating)
    ensures rating.Some? ==>
      (RatingPasses("high", rating) || RatingPasses("medium", rating) || RatingPasses("low", rating)) &&
      !(RatingPasses("high", rating) && RatingPasses("medium", rating)) &&
      !(RatingPasses("high", rating) && RatingPasses("low", rating)) &&
      !(RatingPasses("medium", rating) && RatingPasses("low", rating))
    ensures rating.None? ==> !RatingPasses("high", rating) && !RatingPasses("medium", rating) && !RatingPasses("low", rating)
  {
  }

  /** `merchant.type || 'merchant'`. */
  function TypeOf(p: Partner): string {
    OrElse(p.partnerType, "merchant")
  }

  /** A partner without a type (or with an empty one) is listed among the
    * merchants and not among the shipping companies. */
  lemma TypeDefaultsToMerchant(p: Partner)
    requires p.partnerType.None? || p.partnerType.value == ""
    ensures TypeOf(p) == "merchant" && TypeOf(p) != "shipping"
  {
  }

  /** The search: name, e-mail or business type, a missing field searched
    * as empty text. */
  predicate SearchHits(p: Partner, term: string) {
    Matches(OrElse(p.name, ""), term) || Matches(OrElse(p.email, ""), term) ||
    Matches(OrElse(p.businessType, ""), term)
  }

  /** `filteredMerchants`' test. */
  function Keeps(term: string, rating: string, kind: string): Partner -> bool {
    (p: Partner) => SearchHits(p, term) && RatingPasses(rating, p.rating) && (kind == "all" || TypeOf(p) == kind)
  }

  function Filtered(ps: seq<Partner>, term: string, rating: string, kind: string): seq<Partner> {
    Filter(ps, Keeps(term, rating, kind))
  }

  /** A partner is listed exactly when the search hits one of its three
    * fields and it passes both selectors; an empty search with both
    * selectors on "all" lists everyone, in order. */
  lemma FilteredSpec(ps: seq<Partner>, term: string, rating: string, kind: string)
    ensures forall p :: p in Filtered(ps, term, rating, kind) <==>
      p in ps && SearchHits(p, term) && RatingPasses(rating, p.rating) && (kind == "all" || TypeOf(p) == kind)
    ensures Filtered(ps, "", "all", "all") == ps
  {
    forall p ensures p in Filtered(ps, term, rating, kind) <==> p in ps && Keeps(term, rating, kind)(p) {
      FilterMembership(ps, Keeps(term, rating, kind), p);
    }
    forall p | p in ps ensures Keeps("", "all", "all")(p) {
      EmptyQueryMatches(OrElse(p.name, ""));
    }
    FilterKeepsAll(ps, Keeps("", "all", "all"));
  }

  // ---------------------------------------------------------------------
  // The stat cards
  // ---------------------------------------------------------------------

  function IsActive(p: Partner): bool {
    p.status == Some("active") || p.status == Some("vip")
  }

  function IsVip(p: Partner): bool {
    p.status == Some("vip")
  }

  /** `m.totalSpent || 0`. */
  function SpentOf(p: Partner): real {
    if p.totalSpent.Some? then p.totalSpent.value else 0.0
  }

  /** Partners, active partners (VIP included), VIP partners, and the sum
    * spent. */
  function Stats(ps: seq<Partner>): (nat, nat, nat, real) {
    (|ps|, Count(ps, IsActive), Count(ps, IsVip), Sum(ps, SpentOf))
  }

  /** The VIP figure never exceeds the active one, nor that the total. */
  lemma StatsSpec(ps: seq<Partner>)
    ensures var (total, active, vip, _) := Stats(ps);
      vip <= active <= total
  {
    CountMonotone(ps, IsVip, IsActive);
    CountBounded(ps, IsActive);
  }

  // ---------------------------------------------------------------------
  // Adding a partner
  // ---------------------------------------------------------------------

  /** The add-partner form; `kind` is the type selector. */
  datatype PartnerForm = PartnerForm(kind: string, name: string, email: string, phone: string, services: string)

  const BlankForm := PartnerForm("merchant", "", "", "", "")

  /** The record the API returns for a created partner; any field may be
    * missing, and a missing or zero id is replaced by `Date.now()`. */
  datatype Created = Created(id: Option<int>, name: Option<string>, email: Option<string>, phone: Option<string>)

  /** How the POST ends: a 2xx answer with or without a `merchant`, or any
    * failure (a non-2xx status, the network, a body that is not JSON). */
  datatype ApiOutcome = Succeeded(merchant: Option<Created>) | Failed

  function BusinessTypeOf(kind: string): string {
    if kind == "shipping" then "شحن وتوصيل" else "تجارة"
  }

  /** The partner the page prepends after the POST; `now` is `Date.now()`. */
  function NewPartner(f: PartnerForm, outcome: ApiOutcome, now: int): Partner {
    match outcome
    case Failed =>
      Partner(now, Some(f.name), Some(f.email), Some(f.phone), Some(f.kind), Some(BusinessTypeOf(f.kind)),
              Some(f.services), Some(0.0), 0, Some(0.0), None, "-", "-")
    case Succeeded(m) =>
      var c := if m.Some? then m.value else Created(Some(now), Some(f.name), Some(f.email), Some(f.phone));
      Partner(if c.id.Some? && c.id.value != 0 then c.id.value else now, Some(OrElse(c.name, f.name)), Some(OrElse(c.email, f.email)),
              Some(OrElse(c.phone, f.phone)), Some(f.kind), Some(BusinessTypeOf(f.kind)),
              Some(f.services), Some(0.0), 0, Some(0.0), None, "-", "-")
  }

  /** Whatever the API answers, the new partner carries the form's type and
    * services, a zero rating (the low band) and no status, so it is not
    * counted as active; its name is the form's unless the API names it. */
  lemma NewPartnerSpec(f: PartnerForm, outcome: ApiOutcome, now: int)
    ensures var p := NewPartner(f, outcome, now);
      p.partnerType == Some(f.kind) && p.services == Some(f.services) &&
      (p.businessType == Some("شحن وتوصيل") <==> f.kind == "shipping") &&
      RatingPasses("low", p.rating) && !IsActive(p) && SpentOf(p) == 0.0
    ensures outcome.Failed? || outcome.merchant.None? ==> NewPartner(f, outcome, now).name == Some(f.name)
    ensures outcome.Failed? ==> NewPartner(f, outcome, now).id == now
    ensures outcome.Succeeded? && outcome.merchant.Some? ==>
      NewPartner(f, outcome, now).id ==
        (if outcome.merchant.value.id == Some(0) || outcome.merchant.value.id.None? then now
         else outcome.merchant.value.id.value)
  {
  }

  /** Adding a partner adds one to the partner count and leaves the other
    * three figures as they were. */
  lemma AddKeepsStats(ps: seq<Partner>, f: PartnerForm, outcome: ApiOutcome, now: int)
    ensures var (t0, a0, v0, s0) := Stats(ps);
      var (t1, a1, v1, s1) := Stats([NewPartner(f, outcome, now)] + ps);
      t1 == t0 + 1 && a1 == a0 && v1 == v0 && s1 == s0
  {
    var p := NewPartner(f, outcome, now);
    assert ([p] + ps)[1..] == ps;
  }

  // ---------------------------------------------------------------------
  // Storage and the page
  // ---------------------------------------------------------------------

  /** What `localStorage.getItem` returns for a key: nothing, the empty
    * string, text `JSON.parse` throws on, or a stored list. */
  datatype StoredList = Absent | EmptyText | Garbled | Listed(partners: seq<Partner>)

  /** The state initialiser: the partners key, falling back to the older
    * merchants key when the first is missing or empty; anything unreadable
    * gives no partners. */
  function Initial(primary: StoredList, legacy: StoredList): (r: seq<Partner>)
    ensures primary.Listed? ==> r == primary.partners
    ensures (primary.Absent? || primary.EmptyText?) && legacy.Listed? ==> r == legacy.partners
    ensures primary.Garbled? || ((primary.Absent? || primary.EmptyText?) && !legacy.Listed?) ==> r == []
  {
    var raw := if primary.Absent? || primary.EmptyText? then legacy else primary;
    match raw
    case Listed(ps) => ps
    case _ => []
  }

  class PartnersPage {
    var partners: seq<Partner>
    /** What the effect last wrote under `supplier_partners_v1`. */
    var stored: seq<Partner>
    var form: PartnerForm
    var showAddPartner: bool

    /** Opening the page: the stored partners, or the fixture partners
      * when none are stored; the effect writes the list back. */
    constructor (primary: StoredList, legacy: StoredList, mock: seq<Partner>)
      ensures |Initial(primary, legacy)| > 0 ==> partners == Initial(primary, legacy)
      ensures |Initial(primary, legacy)| == 0 ==> partners == mock
      ensures stored == partners && form == BlankForm && !showAddPartner
    {
      var loaded := Initial(primary, legacy);
      partners := if |loaded| > 0 then loaded else mock;
      stored := if |loaded| > 0 then loaded else mock;
      form := BlankForm;
      showAddPartner := false;
    }

    /** `openAddPartner`: a blank form, shown. */
    method OpenAddPartner()
      modifies this
      ensures form == BlankForm && showAddPartner
      ensures partners == old(partners) && stored == old(stored)
    {
      form := BlankForm;
      showAddPartner := true;
    }

    /** Typing into the form. */
    method UpdateForm(f: PartnerForm)
      modifies this
      ensures form == f
      ensures partners == old(partners) && stored == old(stored) && showAddPartner == old(showAddPartner)
    {
      form := f;
    }

    /** `handleAddPartnerSubmit`: a blank name is refused and nothing
      * changes; otherwise exactly one partner is put at the head of the
      * list, whether the API call succeeded or failed, the list is saved
      * and the form closes. */
    method AddPartner(outcome: ApiOutcome, now: int) returns (added: bool)
      modifies this
      ensures added <==> !IsBlank(old(form).name)
      ensures added ==> partners == [NewPartner(old(form), outcome, now)] + old(partners)
      ensures added ==> stored == partners && !showAddPartner
      ensures !added ==> partners == old(partners) && stored == old(stored) && showAddPartner == old(showAddPartner)
      ensures form == old(form)
    {
      if IsBlank(form.name) {
        return false;
      }
      partners := [NewPartner(form, outcome, now)] + partners;
      stored := partners;
      showAddPartner := false;
      added := true;
    }
  }
}
