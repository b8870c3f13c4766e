/** The quick-book modal: a password gate in front of a shorter booking form
    that is inserted without any required-field check. */
module QuickBookModal {
  import opened Js
  import opened Payload

  /** The passphrase the gate compares with, character for character. */
  const Passphrase: string := "iydkmbn!@"

  /** The text fields of the initial form, all `''` at first. */
  const TextFields: seq<string> := [
    "job_type", "customer_name", "company_name", "address_line_1", "address_line_2", "city",
    "county", "post_code", "telephone_number", "mobile_number", "date_of_service", "driver_id",
    "invoice_address", "date_of_collection", "on_site_contact_number", "delivery_instructions",
    "portaloo_numbers", "waste_type", "tank_size", "payment_type"]

  /** The insert `handleSubmit` sends, and its outcome. */
  datatype Insert = Insert(payload: Record, ok: bool)

  /** The modal's state. While `unlocked` is false only the password input and
      its button are shown; afterwards only the form and its Save button. */
  class Modal {
    var unlocked: bool
    var passwordInput: string
    var form: Record

    constructor ()
      ensures !unlocked && passwordInput == "" && form == BlankForm(TextFields)
    {
      unlocked := false;
      passwordInput := "";
      form := BlankForm(TextFields);
    }

    /** The password input's `onChange`. */
    method TypePassword(text: string)
      requires !unlocked
      modifies this
      ensures passwordInput == text && !unlocked && form == old(form)
    {
      passwordInput := text;
    }

    /** `handlePasswordSubmit`: unlocks exactly on the passphrase, and alerts
        otherwise. */
    method PasswordSubmit() returns (alerted: bool)
      requires !unlocked
      modifies this
      ensures unlocked <==> passwordInput == Passphrase
      ensures alerted <==> !unlocked
      ensures passwordInput == old(passwordInput) && form == old(form)
    {
      if passwordInput == Passphrase {
        unlocked := true;
        alerted := false;
      } else {
        alerted := true;
      }
    }

    /** `handleChange`: only the named field changes, and the gate stays open. */
    method HandleChange(e: ChangeEvent)
      requires unlocked
      modifies this
      ensures form == ApplyChange(old(form), e)
      ensures unlocked && passwordInput == old(passwordInput)
    {
      form := ApplyChange(form, e);
    }

    /** `handleSubmit`: the flag coercion and the blank-to-null loop on a copy
        of the form, then the insert; nothing is required of the form. */
    method HandleSubmit(insertOk: bool) returns (r: Insert)
      requires unlocked
      ensures r.payload == BookingPayload(form) && r.ok == insertOk
    {
      var payload := Normalise(form);
      r := Insert(payload, insertOk);
    }
  }

  /** Saving the form as first shown inserts a job whose text fields are all
      `null` and whose three flags are `false`. */
  lemma FreshFormPayload()
    ensures forall k :: k in BookingPayload(BlankForm(TextFields)) <==> k in TextFields || k in Flags
    ensures forall k :: k in BookingPayload(BlankForm(TextFields)) ==>
      BookingPayload(BlankForm(TextFields))[k] == if k in Flags then Bool(false) else Null
  {
    BlankFormPayload(TextFields);
  }
}
