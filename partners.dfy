/**
 * Adding and removing trading partners from a dashboard, the handler pair
 * the merchant dashboard (frontend/src/pages/MerchantDashboard.tsx) and the
 * supplier dashboard (frontend/src/pages/supplier/Dashboard.tsx) share
 * line for line: the form becomes a trimmed payload, a partner that
 * already exists by e-mail, phone or name is refused, and a new one is
 * stored at the end of the saved list and shown first on the page.
 *
 * The saved list is what `storage.getPartners()` returns (its reading and
 * label clean-up are modelled in `LocalStorage`); the generated id and the
 * clock are parameters.
 */
module Partners {
  import opened Common

  datatype Partner = Partner(
    id: string, name: string, email: string, phone: string, partnerType: string,
    city: string, category: string, createdAt: string)

  /** The fields of the add-partner form the handlers read; `None` is a
    * missing field. */
  datatype PartnerForm = PartnerForm(
    businessName: Option<string>, contactPerson: Option<string>, email: Option<string>,
    phone: Option<string>, partnerType: Option<string>, city: Option<string>, category: Option<string>)

  /** `Omit<Partner, 'id' | 'createdAt'>`. */
  datatype Payload = Payload(
    name: string, email: string, phone: string, partnerType: string, city: string, category: string)

  /** The payload the handlers build: every field trimmed, the name taken
    * from the business name, else the contact person, else a default. */
  function PayloadOf(f: PartnerForm): Payload {
    Payload(Trim(OrElse(f.businessName, OrElse(f.contactPerson, "شريك جديد"))),
            Trim(OrElse(f.email, "")), Trim(OrElse(f.phone, "")), Trim(OrElse(f.partnerType, "")),
            Trim(OrElse(f.city, "")), Trim(OrElse(f.category, "")))
  }

  /** No payload field has white space at either end, and the name comes
    * from the first non-empty of business name and contact person. */
  lemma PayloadSpec(f: PartnerForm)
    ensures var p := PayloadOf(f);
      && Trimmed(p.name) && Trimmed(p.email) && Trimmed(p.phone)
      && Trimmed(p.partnerType) && Trimmed(p.city) && Trimmed(p.category)
      && (f.businessName.Some? && f.businessName.value != "" ==> p.name == Trim(f.businessName.value))
      && ((f.businessName.None? || f.businessName.value == "") && f.contactPerson.Some? && f.contactPerson.value != "" ==>
            p.name == Trim(f.contactPerson.value))
      && ((f.businessName.None? || f.businessName.value == "") && (f.contactPerson.None? || f.contactPerson.value == "") ==>
            p.name == "شريك جديد")
  {
    TrimIsTrimmed(OrElse(f.businessName, OrElse(f.contactPerson, "شريك جديد")));
    TrimIsTrimmed(OrElse(f.email, ""));
    TrimIsTrimmed(OrElse(f.phone, ""));
    TrimIsTrimmed(OrElse(f.partnerType, ""));
    TrimIsTrimmed(OrElse(f.city, ""));
    TrimIsTrimmed(OrElse(f.category, ""));
    assert Trim("شريك جديد") == "شريك جديد" by {
      assert !IsSpace("شريك جديد"[0]);
      assert TrimStart("شريك جديد") == "شريك جديد";
    }
  }

  /** Two partners clash when they share a non-empty e-mail (ignoring case),
    * a non-empty phone, or a non-empty name (ignoring case). */
  predicate Clash(name1: string, email1: string, phone1: string, name2: string, email2: string, phone2: string) {
    || (email1 != "" && email2 != "" && Lower(email1) == Lower(email2))
    || (phone1 != "" && phone2 != "" && phone1 == phone2)
    || (name1 != "" && name2 != "" && Lower(name1) == Lower(name2))
  }

  /** The `find` test of the handlers: the payload against a saved partner. */
  predicate Duplicate(p: Payload, q: Partner) {
    Clash(p.name, p.email, p.phone, q.name, q.email, q.phone)
  }

  function DuplicateOf(p: Payload): Partner -> bool {
    (q: Partner) => Duplicate(p, q)
  }

  predicate NoClash(a: Partner, b: Partner) {
    !Clash(a.name, a.email, a.phone, b.name, b.email, b.phone)
  }

  /** No two saved partners share an e-mail, phone or name. */
  predicate ClashFree(ps: seq<Partner>) {
    Pairwise(ps, NoClash)
  }

  function Stamp(p: Payload, id: string, now: string): Partner {
    Partner(id, p.name, p.email, p.phone, p.partnerType, p.city, p.category, now)
  }

  /** The clash test does not depend on which side is the new partner. */
  lemma ClashSymmetric(name1: string, email1: string, phone1: string, name2: string, email2: string, phone2: string)
    ensures Clash(name1, email1, phone1, name2, email2, phone2) == Clash(name2, email2, phone2, name1, email1, phone1)
  {
  }

  /** A payload with no e-mail, phone or name is never a duplicate. */
  lemma EmptyPayloadNeverDuplicate(p: Payload, existing: seq<Partner>)
    requires p.name == "" && p.email == "" && p.phone == ""
    ensures FirstIndex(existing, DuplicateOf(p)).None?
  {
  }

  /** Adding only partners the check lets through keeps the saved list
    * clash-free, whether the new one goes last (the saved list) or first
    * (the page). */
  lemma AddKeepsClashFree(existing: seq<Partner>, p: Payload, id: string, now: string)
    requires ClashFree(existing)
    requires FirstIndex(existing, DuplicateOf(p)).None?
    ensures ClashFree(existing + [Stamp(p, id, now)])
    ensures ClashFree([Stamp(p, id, now)] + existing)
  {
    var n := Stamp(p, id, now);
    var last := existing + [n];
    forall i, j | 0 <= i < j < |last| ensures NoClash(last[i], last[j]) {
      if j == |existing| {
        assert !DuplicateOf(p)(existing[i]);
        ClashSymmetric(p.name, p.email, p.phone, existing[i].name, existing[i].email, existing[i].phone);
      } else {
        assert NoClash(existing[i], existing[j]);
      }
    }
    var first := [n] + existing;
    forall i, j | 0 <= i < j < |first| ensures NoClash(first[i], first[j]) {
      if i == 0 {
        assert !DuplicateOf(p)(existing[j - 1]);
      } else {
        assert NoClash(existing[i - 1], existing[j - 1]);
      }
    }
  }

  /** `p => p.id !== id`. */
  function NotId(id: string): Partner -> bool {
    (q: Partner) => q.id != id
  }

  /** Removing an id keeps every other partner, in order, and keeps the
    * list clash-free. */
  lemma RemoveSpec(ps: seq<Partner>, id: string)
    ensures forall q :: q in Filter(ps, NotId(id)) <==> q in ps && q.id != id
    ensures ClashFree(ps) ==> ClashFree(Filter(ps, NotId(id)))
  {
    forall q ensures q in Filter(ps, NotId(id)) <==> q in ps && q.id != id {
      FilterMembership(ps, NotId(id), q);
    }
    if ClashFree(ps) {
      FilterPairwise(ps, NotId(id), NoClash);
    }
  }

  /** The partner handlers of a dashboard: the saved list and the list on
    * the page. */
  class PartnerBook {
    var saved: seq<Partner>
    var shown: seq<Partner>

    constructor (saved: seq<Partner>)
      ensures this.saved == saved && shown == saved
    {
      this.saved := saved;
      shown := saved;
    }

    /** `handleAddPartner`: a duplicate of a saved partner is skipped with
      * nothing written; otherwise the partner is saved last and shown
      * first. */
    method AddPartner(f: PartnerForm, id: string, now: string) returns (added: Option<Partner>)
      modifies this
      ensures var p := PayloadOf(f);
        added.None? <==> FirstIndex(old(saved), DuplicateOf(p)).Some?
      ensures added.None? ==> saved == old(saved) && shown == old(shown)
      ensures added.Some? ==>
        && added.value == Stamp(PayloadOf(f), id, now)
        && saved == old(saved) + [added.value]
        && shown == [added.value] + old(shown)
      ensures old(ClashFree(saved)) ==> ClashFree(saved)
    {
      var p := PayloadOf(f);
      var dup := FirstIndex(saved, DuplicateOf(p));
      if dup.Some? {
        return None;
      }
      if ClashFree(saved) {
        AddKeepsClashFree(saved, p, id, now);
      }
      var n := Stamp(p, id, now);
      saved := saved + [n];
      shown := [n] + shown;
      added := Some(n);
    }

    /** The delete button: `storage.deletePartner` reports whether a saved
      * partner went, and only then is the partner taken off the page. */
    method DeletePartner(id: string) returns (ok: bool)
      modifies this
      ensures ok <==> exists k :: 0 <= k < |old(saved)| && old(saved)[k].id == id
      ensures saved == Filter(old(saved), NotId(id))
      ensures shown == if ok then Filter(old(shown), NotId(id)) else old(shown)
      ensures old(ClashFree(saved)) ==> ClashFree(saved)
    {
      RemoveSpec(saved, id);
      FilterShortens(saved, NotId(id));
      var filtered := Filter(saved, NotId(id));
      ok := |filtered| != |saved|;
      saved := filtered;
      if ok {
        shown := Filter(shown, NotId(id));
      }
    }
  }
}
