/**
 * The four-step "add partner" wizard of the supplier dashboard
 * (frontend/src/components/supplier/AddPartnerModal.tsx): company details,
 * contact details, legal details and terms of cooperation. "Next" checks
 * the fields of the current step and moves on only when they pass, and the
 * last step hands the collected record to the dashboard and starts over.
 *
 * Uploaded files are represented by their name and size; the browser's
 * file picker and `onClose` are outside the model.
 */
module AddPartnerModal {
  import opened Common
  import LocalStorage

  datatype File = File(name: string, size: nat)

  /** The text inputs of the wizard. */
  datatype Field =
    | BusinessName | ContactPerson | BusinessType | PartnerType | Category
    | Email | Phone | Whatsapp | Website | City | District | Street | PostalCode
    | CommercialRegister | TaxNumber | BankAccount | BankName
    | PaymentTerms | DeliveryTerms | Notes

  /** The step whose page shows an input. */
  function StepOf(f: Field): int {
    match f
    case BusinessName | ContactPerson | BusinessType | PartnerType | Category => 1
    case Email | Phone | Whatsapp | Website | City | District | Street | PostalCode => 2
    case CommercialRegister | TaxNumber | BankAccount | BankName => 3
    case PaymentTerms | DeliveryTerms | Notes => 4
  }

  /** `PartnerData`; a text field missing from `text` holds the empty
    * string. */
  datatype PartnerData = PartnerData(
    text: map<Field, string>, minimumOrder: real, discountRate: real,
    documents: seq<File>, logo: Option<File>, status: string)

  function Text(d: PartnerData, f: Field): string {
    FieldText(d.text, f)
  }

  function FieldText(text: map<Field, string>, f: Field): string {
    if f in text then text[f] else ""
  }

  /** The blank record the wizard opens with and returns to: payment within
    * 30 days, status pending, everything else empty. */
  const DefaultData := PartnerData(map[PaymentTerms := "30"], 0.0, 0.0, [], None, "pending")

  // ---------------------------------------------------------------------
  // Validation
  // ---------------------------------------------------------------------

  /** The errors `validateStep` records for a step. Names, people, e-mail,
    * phone and registration numbers must not be blank; the choices must
    * not be empty; a non-empty e-mail of the wrong form replaces the
    * "required" message. Step 4 has no checks. */
  function StepErrors(text: map<Field, string>, step: int): map<string, string> {
    if step == 1 then
      CompanyErrors(FieldText(text, BusinessName), FieldText(text, ContactPerson), FieldText(text, BusinessType),
                    FieldText(text, PartnerType), FieldText(text, Category))
    else if step == 2 then
      ContactErrors(FieldText(text, Email), FieldText(text, Phone), FieldText(text, City))
    else if step == 3 then
      LegalErrors(FieldText(text, CommercialRegister), FieldText(text, TaxNumber))
    else map[]
  }

  function CompanyErrors(businessName: string, contactPerson: string, businessType: string,
                         partnerType: string, category: string): map<string, string> {
    var e1 := if IsBlank(businessName) then map["businessName" := "اسم الشركة مطلوب"] else map[];
    var e2 := if IsBlank(contactPerson) then e1["contactPerson" := "اسم الشخص المسؤول مطلوب"] else e1;
    var e3 := if businessType == "" then e2["businessType" := "نوع النشاط مطلوب"] else e2;
    var e4 := if partnerType == "" then e3["partnerType" := "نوع الشريك مطلوب"] else e3;
    if category == "" then e4["category" := "فئة النشاط مطلوبة"] else e4
  }

  function ContactErrors(email: string, phone: string, city: string): map<string, string> {
    var e1 := if IsBlank(email) then map["email" := "البريد الإلكتروني مطلوب"] else map[];
    var e2 := if IsBlank(phone) then e1["phone" := "رقم الهاتف مطلوب"] else e1;
    var e3 := if city == "" then e2["city" := "المدينة مطلوبة"] else e2;
    if email != "" && !WellFormedEmail(email) then e3["email" := "صيغة البريد الإلكتروني غير صحيحة"] else e3
  }

  function LegalErrors(commercialRegister: string, taxNumber: string): map<string, string> {
    var e1 := if IsBlank(commercialRegister) then map["commercialRegister" := "السجل التجاري مطلوب"] else map[];
    if IsBlank(taxNumber) then e1["taxNumber" := "الرقم الضريبي مطلوب"] else e1
  }

  /** `validateStep`'s verdict: no error recorded. */
  predicate StepValid(d: PartnerData, step: int) {
    StepErrors(d.text, step) == map[]
  }

  lemma CompanyErrorsSpec(businessName: string, contactPerson: string, businessType: string, partnerType: string, category: string)
    ensures CompanyErrors(businessName, contactPerson, businessType, partnerType, category) == map[] <==>
      !IsBlank(businessName) && !IsBlank(contactPerson) && businessType != "" && partnerType != "" && category != ""
  {
    var e := CompanyErrors(businessName, contactPerson, businessType, partnerType, category);
    if IsBlank(businessName) { assert "businessName" in e; }
    if IsBlank(contactPerson) { assert "contactPerson" in e; }
    if businessType == "" { assert "businessType" in e; }
    if partnerType == "" { assert "partnerType" in e; }
    if category == "" { assert "category" in e; }
  }

  lemma ContactErrorsSpec(email: string, phone: string, city: string)
    ensures ContactErrors(email, phone, city) == map[] <==> WellFormedEmail(email) && !IsBlank(phone) && city != ""
  {
    var e := ContactErrors(email, phone, city);
    if WellFormedEmail(email) { WellFormedEmailShape(email); }
    if !WellFormedEmail(email) {
      assert email == "" ==> IsBlank(email);
      assert "email" in e;
    }
    if IsBlank(phone) { assert "phone" in e; }
    if city == "" { assert "city" in e; }
  }

  lemma LegalErrorsSpec(commercialRegister: string, taxNumber: string)
    ensures LegalErrors(commercialRegister, taxNumber) == map[] <==> !IsBlank(commercialRegister) && !IsBlank(taxNumber)
  {
    var e := LegalErrors(commercialRegister, taxNumber);
    if IsBlank(commercialRegister) { assert "commercialRegister" in e; }
    if IsBlank(taxNumber) { assert "taxNumber" in e; }
  }

  /** What each step demands, in both directions, and that the last step
    * demands nothing. */
  lemma StepValidSpec(d: PartnerData, step: int)
    ensures StepValid(d, 1) <==>
      !IsBlank(Text(d, BusinessName)) && !IsBlank(Text(d, ContactPerson)) &&
      Text(d, BusinessType) != "" && Text(d, PartnerType) != "" && Text(d, Category) != ""
    ensures StepValid(d, 2) <==>
      WellFormedEmail(Text(d, Email)) && !IsBlank(Text(d, Phone)) && Text(d, City) != ""
    ensures StepValid(d, 3) <==> !IsBlank(Text(d, CommercialRegister)) && !IsBlank(Text(d, TaxNumber))
    ensures !(1 <= step <= 3) ==> StepValid(d, step)
  {
    CompanyErrorsSpec(Text(d, BusinessName), Text(d, ContactPerson), Text(d, BusinessType), Text(d, PartnerType), Text(d, Category));
    ContactErrorsSpec(Text(d, Email), Text(d, Phone), Text(d, City));
    LegalErrorsSpec(Text(d, CommercialRegister), Text(d, TaxNumber));
  }

  /** The blank record passes none of the first three steps. */
  lemma DefaultFailsEveryCheckedStep()
    ensures !StepValid(DefaultData, 1) && !StepValid(DefaultData, 2) && !StepValid(DefaultData, 3)
  {
    StepValidSpec(DefaultData, 1);
  }

  /** Typing into an input of one step leaves the verdict on every other
    * step as it was. */
  lemma EditKeepsOtherSteps(d: PartnerData, f: Field, v: string, step: int)
    requires StepOf(f) != step
    ensures StepErrors(d.text[f := v], step) == StepErrors(d.text, step)
  {
    var t, t' := d.text, d.text[f := v];
    if step == 1 {
      assert FieldText(t', BusinessName) == FieldText(t, BusinessName);
      assert FieldText(t', ContactPerson) == FieldText(t, ContactPerson);
      assert FieldText(t', BusinessType) == FieldText(t, BusinessType);
      assert FieldText(t', PartnerType) == FieldText(t, PartnerType);
      assert FieldText(t', Category) == FieldText(t, Category);
    } else if step == 2 {
      assert FieldText(t', Email) == FieldText(t, Email);
      assert FieldText(t', Phone) == FieldText(t, Phone);
      assert FieldText(t', City) == FieldText(t, City);
    } else if step == 3 {
      assert FieldText(t', CommercialRegister) == FieldText(t, CommercialRegister);
      assert FieldText(t', TaxNumber) == FieldText(t, TaxNumber);
    }
  }

  /** The verdicts depend on the text inputs alone: documents, logo and
    * amounts play no part in them. */
  lemma SameTextSameVerdicts(d: PartnerData, e: PartnerData)
    requires d.text == e.text
    ensures forall s :: StepValid(d, s) <==> StepValid(e, s)
  {
  }

  // ---------------------------------------------------------------------
  // Documents and labels
  // ---------------------------------------------------------------------

  /** `documents.filter((_, i) => i !== index)`, with `offset` the position
    * of the first element of `xs` in the whole list. */
  function DropIndex<T>(xs: seq<T>, index: int, offset: int): seq<T>
    decreases |xs|
  {
    if xs == [] then []
    else (if offset == index then [] else [xs[0]]) + DropIndex(xs[1..], index, offset + 1)
  }

  /** Removing a document drops exactly the one at the index and keeps the
    * others in order; an index outside the list changes nothing. */
  lemma {:induction false} DropIndexSpec<T>(xs: seq<T>, index: int, offset: int)
    ensures offset <= index < offset + |xs| ==> DropIndex(xs, index, offset) == xs[..index - offset] + xs[index - offset + 1..]
    ensures !(offset <= index < offset + |xs|) ==> DropIndex(xs, index, offset) == xs
    decreases |xs|
  {
    if xs != [] {
      DropIndexSpec(xs[1..], index, offset + 1);
      if offset == index {
        assert DropIndex(xs[1..], index, offset + 1) == xs[1..];
      } else if offset < index < offset + |xs| {
        assert xs[..index - offset] == [xs[0]] + xs[1..][..index - offset - 1];
        assert xs[index - offset + 1..] == xs[1..][index - offset..];
      } else {
        assert xs == [xs[0]] + xs[1..];
      }
    }
  }

  /** `getPartnerTypeLabel`. */
  function PartnerTypeLabel(t: string): string {
    if t == "" then "-"
    else if t == "retailer" then "تاجر تجزئة"
    else if t == "supplier" then "مورد"
    else if t == "shipping_company" then "شركة شحن"
    else t
  }

  /** An empty type shows a dash, the three codes show the Arabic labels
    * that the stored-partner normalisation turns back into the codes, and
    * any other text shows as it is. */
  lemma PartnerTypeLabelSpec(t: string)
    ensures t == "" ==> PartnerTypeLabel(t) == "-"
    ensures t == "retailer" || t == "supplier" || t == "shipping_company" ==>
      PartnerTypeLabel(t) != t && LocalStorage.NormalizeLabel(PartnerTypeLabel(t)) == t
    ensures t != "" && t != "retailer" && t != "supplier" && t != "shipping_company" ==> PartnerTypeLabel(t) == t
  {
  }

  // ---------------------------------------------------------------------
  // The wizard
  // ---------------------------------------------------------------------

  class PartnerWizard {
    var currentStep: int
    var errors: map<string, string>
    var data: PartnerData
    /** The records handed to `onSubmit`, oldest first. */
    var submitted: seq<PartnerData>

    /** The step is one of the four, and every step before it passed its
      * checks. */
    predicate Valid()
      reads this
    {
      1 <= currentStep <= 4 && forall s :: 1 <= s < currentStep ==> StepValid(data, s)
    }

    constructor ()
      ensures currentStep == 1 && errors == map[] && data == DefaultData && submitted == []
      ensures Valid()
    {
      currentStep := 1;
      errors := map[];
      data := DefaultData;
      submitted := [];
    }

    /** `handleNext`: the current step's errors are shown, and the wizard
      * moves on (never past step 4) only when there are none. */
    method Next()
      requires Valid()
      modifies this
      ensures errors == StepErrors(old(data).text, old(currentStep))
      ensures StepValid(old(data), old(currentStep)) ==> currentStep == if old(currentStep) < 4 then old(currentStep) + 1 else 4
      ensures !StepValid(old(data), old(currentStep)) ==> currentStep == old(currentStep)
      ensures data == old(data) && submitted == old(submitted)
      ensures Valid()
    {
      errors := StepErrors(data.text, currentStep);
      if errors == map[] && currentStep < 4 {
        currentStep := currentStep + 1;
      }
    }

    /** `handlePrevious`: one step back, never before step 1. */
    method Previous()
      requires Valid()
      modifies this
      ensures currentStep == if old(currentStep) > 1 then old(currentStep) - 1 else 1
      ensures data == old(data) && errors == old(errors) && submitted == old(submitted)
      ensures Valid()
    {
      if currentStep > 1 {
        currentStep := currentStep - 1;
      }
    }

    /** Typing into an input, which is shown only on its own step. */
    method Edit(f: Field, v: string)
      requires Valid() && StepOf(f) == currentStep
      modifies this
      ensures data == old(data).(text := old(data).text[f := v])
      ensures Text(data, f) == v && forall g :: g != f ==> Text(data, g) == Text(old(data), g)
      ensures currentStep == old(currentStep) && errors == old(errors) && submitted == old(submitted)
      ensures Valid()
    {
      data := data.(text := data.text[f := v]);
      forall s | 1 <= s < currentStep ensures StepValid(data, s) {
        assert StepValid(old(data), s);
        EditKeepsOtherSteps(old(data), f, v, s);
      }
    }

    /** The two number inputs of step 4: `parseFloat(value) || 0`, with
      * `None` for text that is not a number. */
    method EditAmount(minimum: bool, parsed: Option<real>)
      requires Valid()
      modifies this
      ensures var value := if parsed.Some? then parsed.value else 0.0;
        data == if minimum then old(data).(minimumOrder := value) else old(data).(discountRate := value)
      ensures currentStep == old(currentStep) && errors == old(errors) && submitted == old(submitted)
      ensures Valid()
    {
      var value := if parsed.Some? then parsed.value else 0.0;
      if minimum {
        data := data.(minimumOrder := value);
      } else {
        data := data.(discountRate := value);
      }
      SameTextSameVerdicts(old(data), data);
    }

    /** `handleFileUpload`: documents are appended; a logo upload keeps the
      * first chosen file, and choosing none keeps the old logo. */
    method UploadFiles(files: seq<File>, documents: bool)
      requires Valid()
      modifies this
      ensures documents ==> data == old(data).(documents := old(data).documents + files)
      ensures !documents && files != [] ==> data == old(data).(logo := Some(files[0]))
      ensures !documents && files == [] ==> data == old(data)
      ensures currentStep == old(currentStep) && errors == old(errors) && submitted == old(submitted)
      ensures Valid()
    {
      if documents {
        data := data.(documents := data.documents + files);
      } else if files != [] {
        data := data.(logo := Some(files[0]));
      }
      SameTextSameVerdicts(old(data), data);
    }

    /** `removeDocument`: the document at the index goes, the others keep
      * their order. */
    method RemoveDocument(index: int)
      requires Valid()
      modifies this
      ensures 0 <= index < |old(data).documents| ==>
        data.documents == old(data).documents[..index] + old(data).documents[index + 1..]
      ensures !(0 <= index < |old(data).documents|) ==> data.documents == old(data).documents
      ensures data == old(data).(documents := data.documents)
      ensures currentStep == old(currentStep) && errors == old(errors) && submitted == old(submitted)
      ensures Valid()
    {
      DropIndexSpec(data.documents, index, 0);
      data := data.(documents := DropIndex(data.documents, index, 0));
      SameTextSameVerdicts(old(data), data);
    }

    /** `handleSubmit`, whose button is shown on the last step: the record
      * is handed over (it has passed every step's checks) and the wizard
      * starts again from a blank record at step 1. */
    method Submit()
      requires Valid() && currentStep == 4
      modifies this
      ensures submitted == old(submitted) + [old(data)]
      ensures forall s :: StepValid(old(data), s)
      ensures currentStep == 1 && data == DefaultData && errors == map[]
      ensures Valid()
    {
      errors := StepErrors(data.text, currentStep);
      assert errors == map[];
      forall s ensures StepValid(data, s) {
        StepValidSpec(data, s);
      }
      submitted := submitted + [data];
      currentStep := 1;
      data := DefaultData;
    }
  }
}
