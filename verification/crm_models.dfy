/**
 * The validated customer record of `crm/models.py` (`CustomerBase`):
 * length bounds on the text fields, non-negative credit terms, and the
 * phone, GSTIN and PAN format rules, each of which lets the empty string
 * through. A failed record is the list of the fields that failed, in
 * declaration order.
 */
module CrmModels {
  import opened Wrappers
  import opened Records
  import Helpers

  /** The fields of a `CustomerBase` as supplied; `None` is a field left out. */
  datatype CustomerInput = CustomerInput(
    name: string,
    phone: Option<string>,
    company: Option<string>,
    address: Option<string>,
    city: Option<string>,
    state: Option<string>,
    country: Option<string>,
    postalCode: Option<string>,
    customerType: Option<CustomerType>,
    status: Option<CustomerStatus>,
    tags: seq<string>,
    notes: Option<string>,
    gstin: Option<string>,
    pan: Option<string>,
    creditLimit: Option<real>,
    paymentTerms: Option<int>)

  /** A validated customer record, with the defaults filled in. */
  datatype CustomerRecord = CustomerRecord(
    name: string,
    phone: Option<string>,
    company: Option<string>,
    address: Option<string>,
    city: Option<string>,
    state: Option<string>,
    country: Option<string>,
    postalCode: Option<string>,
    customerType: CustomerType,
    status: CustomerStatus,
    tags: seq<string>,
    notes: Option<string>,
    gstin: Option<string>,
    pan: Option<string>,
    creditLimit: Option<real>,
    paymentTerms: Option<int>)

  /** `Field(None, max_length=n)` on an optional text field. */
  predicate AtMost(v: Option<string>, n: nat) {
    v.None? || |v.value| <= n
  }

  /** `phone`: at most 15 characters, then `validate_phone` unless the value is empty. */
  predicate PhoneOk(v: Option<string>) {
    AtMost(v, 15) && (v.None? || v.value == "" || Helpers.ValidatePhone(v.value))
  }

  /** `gstin`: at most 15 characters, then exactly 15 unless the value is empty. */
  predicate GstinOk(v: Option<string>) {
    AtMost(v, 15) && (v.None? || v.value == "" || |v.value| == 15)
  }

  /** `pan`: at most 10 characters, then exactly 10 unless the value is empty. */
  predicate PanOk(v: Option<string>) {
    AtMost(v, 10) && (v.None? || v.value == "" || |v.value| == 10)
  }

  /** The fields of a customer input that fail, in declaration order. */
  function CustomerErrors(input: CustomerInput): (r: seq<string>)
    ensures r == [] <==>
      2 <= |input.name| <= 100
      && PhoneOk(input.phone)
      && AtMost(input.company, 100) && AtMost(input.address, 500)
      && AtMost(input.city, 50) && AtMost(input.state, 50) && AtMost(input.country, 50)
      && AtMost(input.postalCode, 10) && AtMost(input.notes, 1000)
      && GstinOk(input.gstin) && PanOk(input.pan)
      && (input.creditLimit.Some? ==> input.creditLimit.value >= 0.0)
      && (input.paymentTerms.Some? ==> input.paymentTerms.value >= 0)
  {
    (if 2 <= |input.name| <= 100 then [] else ["name"])
    + (if PhoneOk(input.phone) then [] else ["phone"])
    + (if AtMost(input.company, 100) then [] else ["company"])
    + (if AtMost(input.address, 500) then [] else ["address"])
    + (if AtMost(input.city, 50) then [] else ["city"])
    + (if AtMost(input.state, 50) then [] else ["state"])
    + (if AtMost(input.country, 50) then [] else ["country"])
    + (if AtMost(input.postalCode, 10) then [] else ["postal_code"])
    + (if AtMost(input.notes, 1000) then [] else ["notes"])
    + (if GstinOk(input.gstin) then [] else ["gstin"])
    + (if PanOk(input.pan) then [] else ["pan"])
    + (if input.creditLimit.None? || input.creditLimit.value >= 0.0 then [] else ["credit_limit"])
    + (if input.paymentTerms.None? || input.paymentTerms.value >= 0 then [] else ["payment_terms"])
  }

  /** `CustomerCreate(...)`: the fields are kept as given; type and status default to individual and active. */
  function ValidateCustomer(input: CustomerInput): (r: Result<CustomerRecord, seq<string>>)
    ensures r.Err? <==> CustomerErrors(input) != []
    ensures r.Err? ==> r.error == CustomerErrors(input)
    ensures r.Ok? ==>
      r.value.name == input.name && r.value.phone == input.phone
      && r.value.gstin == input.gstin && r.value.pan == input.pan
      && r.value.customerType == input.customerType.GetOr(Individual)
      && r.value.status == input.status.GetOr(Active)
    ensures r.Ok? ==> r.value == CustomerRecord(input.name, input.phone, input.company, input.address, input.city,
      input.state, input.country, input.postalCode, input.customerType.GetOr(Individual), input.status.GetOr(Active),
      input.tags, input.notes, input.gstin, input.pan, input.creditLimit, input.paymentTerms)
  {
    var errors := CustomerErrors(input);
    if errors != [] then Err(errors)
    else
      Ok(CustomerRecord(input.name, input.phone, input.company, input.address, input.city, input.state,
        input.country, input.postalCode, input.customerType.GetOr(Individual), input.status.GetOr(Active),
        input.tags, input.notes, input.gstin, input.pan, input.creditLimit, input.paymentTerms))
  }

  /**
   * The three format rules: a non-empty GSTIN has exactly 15 characters, a
   * non-empty PAN exactly 10, a non-empty phone at most 15 characters and
   * 10 to 15 digits.
   */
  lemma FormatRules(v: string)
    requires v != ""
    ensures GstinOk(Some(v)) <==> |v| == 15
    ensures PanOk(Some(v)) <==> |v| == 10
    ensures PhoneOk(Some(v)) <==> |v| <= 15 && 10 <= |Helpers.PhoneDigits(v)|
  {
  }

  /** An empty phone, GSTIN or PAN is accepted: each check is guarded by the value being non-empty. */
  lemma EmptyValuesSkipChecks(input: CustomerInput)
    ensures var other := input.(phone := Some(""), gstin := Some(""), pan := Some(""));
      PhoneOk(other.phone) && GstinOk(other.gstin) && PanOk(other.pan)
  {
  }

  /** A phone written in digits only is accepted exactly when it has 10 to 15 of them. */
  lemma DigitPhoneRule(v: string)
    requires v != "" && forall i :: 0 <= i < |v| ==> Helpers.IsDigit(v[i])
    ensures PhoneOk(Some(v)) <==> 10 <= |v| <= 15
  {
    Helpers.PhoneOfDigitsOnly(v);
  }

  /** A phone with separators is refused once it is longer than 15 characters, whatever its digits. */
  lemma LongPhoneRefused(v: string)
    requires |v| > 15
    ensures !PhoneOk(Some(v))
  {
  }

  /** With the type and status left out, a valid customer is an active individual. */
  lemma CustomerDefaults(input: CustomerInput)
    requires CustomerErrors(input) == [] && input.customerType.None? && input.status.None?
    ensures ValidateCustomer(input).Ok?
    ensures ValidateCustomer(input).value.customerType == Individual
    ensures ValidateCustomer(input).value.status == Active
  {
  }
}
