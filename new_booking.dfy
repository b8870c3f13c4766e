/** The new-booking modal: a form of text fields and three job flags, a
    generic change handler, and a submit that insists on a mobile number
    before it normalises the form and inserts it as a job. */
module NewBooking {
  import opened Js
  import opened Payload

  /** The text fields of the initial form, all `''` at first. */
  const TextFields: seq<string> := [
    "job_type", "customer_job_reference", "customer_name", "company_name", "address_line_1",
    "address_line_2", "city", "county", "post_code", "telephone_number", "mobile_number", "email",
    "date_of_service", "driver_id", "invoice_address", "job_cost_ex_vat", "job_cost_inc_vat",
    "date_of_collection", "on_site_contact_number", "delivery_instructions", "portaloo_numbers",
    "waste_type", "tank_size", "payment_type", "job_notes"]

  /** `!formData.mobile_number || formData.mobile_number.trim() === ''` */
  predicate MobileMissing(v: Value) {
    !Truthy(v) || Trim(ToStr(v)) == ""
  }

  /** How `handleSubmit` ends. */
  datatype SubmitResult =
    | NoMobile                          // alert: a mobile number is required
    | Inserted(payload: Record, ok: bool)  // the row was sent; `ok` is the insert's outcome

  /** The submit: refused without a mobile number, otherwise the normalised
      form is inserted, and the row sent always carries that number. */
  function Submit(form: Record, insertOk: bool): (r: SubmitResult)
    ensures r.NoMobile? <==> MobileMissing(Get(form, "mobile_number"))
    ensures r.Inserted? ==> r.payload == BookingPayload(form) && r.ok == insertOk
    ensures r.Inserted? ==> Get(r.payload, "mobile_number") == Get(form, "mobile_number")
    ensures r.Inserted? ==> !MobileMissing(Get(r.payload, "mobile_number"))
  {
    if MobileMissing(Get(form, "mobile_number")) then NoMobile
    else Inserted(BookingPayload(form), insertOk)
  }

  /** The modal's state: the form being filled in. */
  class Modal {
    var form: Record

    constructor ()
      ensures form == BlankForm(TextFields)
    {
      form := BlankForm(TextFields);
    }

    /** `handleChange`: only the named field changes. */
    method HandleChange(e: ChangeEvent)
      modifies this
      ensures form == ApplyChange(old(form), e)
    {
      form := ApplyChange(form, e);
    }

    /** `handleSubmit`: the guard, then the flag coercion and the
        blank-to-null loop on a copy of the form, which itself is not changed. */
    method HandleSubmit(insertOk: bool) returns (r: SubmitResult)
      ensures r == Submit(form, insertOk)
    {
      var mobile := Get(form, "mobile_number");
      if !Truthy(mobile) || Trim(ToStr(mobile)) == "" {
        return NoMobile;
      }
      var payload := Normalise(form);
      r := Inserted(payload, insertOk);
    }
  }

  /** The form as first shown cannot be saved: its mobile number is `''`. */
  lemma FreshFormRefused(insertOk: bool)
    ensures Submit(BlankForm(TextFields), insertOk) == NoMobile
  {
    assert "mobile_number" in TextFields && "mobile_number" !in Flags;
  }

  /** Typing a mobile number that is not only white space is enough to get
      past the guard, whatever else the form holds. */
  lemma TypedMobileAccepted(form: Record, mobile: string, insertOk: bool)
    requires Trim(mobile) != ""
    ensures Submit(ApplyChange(form, ChangeEvent("mobile_number", mobile, false, false)), insertOk).Inserted?
  {
    assert Trim("") == "";
  }
}
