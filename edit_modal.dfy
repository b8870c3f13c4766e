/** The edit-job modal: a copy of the job as the form, a change handler that
    reads `driver_id` as a number, a submit that updates the job by its id,
    and the date inputs that show only the date part of a stored timestamp. */
module EditModal {
  import opened Js
  import opened Payload

  /** `handleChange`: the checkbox state, `Number(value)` for `driver_id`, or
      the text; only the named field changes. */
  function EditChange(form: Record, e: ChangeEvent): (r: Record)
    ensures r.Keys == form.Keys + {e.name}
    ensures forall k :: k in form && k != e.name ==> r[k] == form[k]
    ensures e.isCheckbox ==> r[e.name] == Bool(e.checked)
    ensures !e.isCheckbox && e.name == "driver_id" ==> r[e.name].Num? || r[e.name].NaN?
    ensures !e.isCheckbox && e.name != "driver_id" ==> r[e.name] == Str(e.value)
  {
    form[e.name := if e.isCheckbox then Bool(e.checked) else if e.name == "driver_id" then NumberOf(e.value) else Str(e.value)]
  }

  /** Apart from a typed `driver_id`, the change handler is the one the
      other booking forms use. */
  lemma EditChangeAsBookingForms(form: Record, e: ChangeEvent)
    requires e.isCheckbox || e.name != "driver_id"
    ensures EditChange(form, e) == ApplyChange(form, e)
  {
  }

  /** A driver id written out in decimal is stored as that number, and a
      cleared `driver_id` is stored as 0. */
  lemma DriverIdNumber(form: Record, n: int, text: string)
    ensures EditChange(form, ChangeEvent("driver_id", IntToString(n), false, false))["driver_id"] == Num(n)
    ensures Trim(text) == "" ==> EditChange(form, ChangeEvent("driver_id", text, false, false))["driver_id"] == Num(0)
  {
    NumberOfIntToString(n);
  }

  /** The update `handleSubmit` sends: the row selector, the payload and the outcome. */
  datatype Update = Update(id: Value, payload: Record, ok: bool)

  /** `const { id, ...payload } = formData`, then the flags and the
      blank-to-null loop: the id selects the row and is never part of the
      payload. A form without an id still sends the update, with `undefined`
      as the selector. */
  function Submit(form: Record, updateOk: bool): (r: Update)
    ensures r.id == Get(form, "id") && r.ok == updateOk
    ensures r.payload == BookingPayload(form - {"id"})
    ensures "id" !in r.payload
    ensures forall k :: k in r.payload <==> (k in form && k != "id") || k in Flags
  {
    Update(Get(form, "id"), BookingPayload(form - {"id"}), updateOk)
  }

  /** Every field other than the id and the flags is sent as the form holds
      it, with `''` as `null`; the flags are sent as booleans. */
  lemma SubmitFields(form: Record, updateOk: bool, k: string)
    ensures k in form && k != "id" && k !in Flags ==> Submit(form, updateOk).payload[k] == NullIfBlank(form[k])
    ensures k in Flags ==> Submit(form, updateOk).payload[k] == Bool(Truthy(Get(form, k)))
  {
    var rest := form - {"id"};
    assert k in Flags ==> Get(rest, k) == Get(form, k);
  }

  /** `formData[name]?.split('T')[0] || ''`: the part of a stored date before
      its first `T`, or `''` for a missing value. */
  function DateShown(v: Value): (r: string)
    ensures !v.Str? ==> r == ""
    ensures 'T' !in r
    ensures v.Str? && 'T' !in v.s ==> r == v.s
    ensures v.Str? && 'T' in v.s ==> r == v.s[..IndexOf(v.s, 'T')]
  {
    if v.Str? then SplitOn(v.s, 'T')[0] else ""
  }

  /** A date picked in the input is shown as picked, and a stored timestamp
      `<date>T<time>` is shown as its date. */
  lemma DateShownRoundTrip(date: string, time: string)
    requires 'T' !in date
    ensures DateShown(Str(date)) == date
    ensures DateShown(Str(date + "T" + time)) == date
  {
    var s := date + "T" + time;
    assert s[|date|] == 'T' && s[..|date|] == date;
    IndexOfFirst(s, 'T', |date|);
  }

  /** The modal's state: the form, initially a copy of the job. */
  class Modal {
    var form: Record

    constructor (job: Record)
      ensures form == job
    {
      form := job;
    }

    method HandleChange(e: ChangeEvent)
      modifies this
      ensures form == EditChange(old(form), e)
    {
      form := EditChange(form, e);
    }

    /** `handleSubmit`: splits the id off a copy, coerces the flags and runs
        the blank-to-null loop; the form itself is not changed. */
    method HandleSubmit(updateOk: bool) returns (r: Update)
      ensures r == Submit(form, updateOk)
    {
      var id := Get(form, "id");
      var payload := form - {"id"};
      payload := Normalise(payload);
      r := Update(id, payload, updateOk);
    }
  }
}
