/** Payload normalisation shared by the booking and WTN forms: the
    `Object.keys(payload).forEach` loop that turns `''` into `null`, the `!!`
    coercion of the three job flags, and the generic form change handler. */
module Payload {
  import opened Js

  /** The value one pass of the blank-to-null loop leaves for `v`. */
  function NullIfBlank(v: Value): Value {
    if v == Str("") then Null else v
  }

  /** The record the blank-to-null loop leaves behind. */
  function Nulled(p: Record): (r: Record)
    ensures r.Keys == p.Keys
    ensures forall k :: k in r ==> r[k] != Str("")
    ensures forall k :: Get(r, k) == NullIfBlank(Get(p, k))
  {
    map k | k in p :: NullIfBlank(p[k])
  }

  /** `Object.keys(payload).forEach(key => { if (payload[key] === '') payload[key] = null })`:
      the same keys, every `''` is now `null`, every other value (including
      `false`, `0` and `null`) is untouched. */
  method NullBlanks(p: Record) returns (r: Record)
    ensures r.Keys == p.Keys
    ensures forall k :: k in p ==> r[k] == NullIfBlank(p[k])
    ensures forall k :: k in r ==> r[k] != Str("")
    ensures r == Nulled(p)
  {
    r := p;
    var todo := p.Keys;
    while todo != {}
      invariant todo <= p.Keys
      invariant r.Keys == p.Keys
      invariant forall k :: k in p && k !in todo ==> r[k] == NullIfBlank(p[k])
      invariant forall k :: k in todo ==> r[k] == p[k]
      decreases |todo|
    {
      var k :| k in todo;
      if r[k] == Str("") {
        r := r[k := Null];
      }
      todo := todo - {k};
    }
  }

  /** The three job flags every booking form coerces with `!!`. */
  const Flags: seq<string> := ["waste_transfer_note_complete", "job_complete", "paid"]

  /** The record after `payload.waste_transfer_note_complete =
      !!payload.waste_transfer_note_complete` and the same for `job_complete`
      and `paid`: the three flags are present and boolean, nothing else moves. */
  function WithFlags(p: Record): (r: Record)
    ensures r.Keys == p.Keys + {"waste_transfer_note_complete", "job_complete", "paid"}
    ensures forall f :: f in Flags ==> r[f] == Bool(Truthy(Get(p, f)))
    ensures forall k :: k in p && k !in Flags ==> r[k] == p[k]
  {
    p["waste_transfer_note_complete" := Bool(Truthy(Get(p, "waste_transfer_note_complete")))]
     ["job_complete" := Bool(Truthy(Get(p, "job_complete")))]
     ["paid" := Bool(Truthy(Get(p, "paid")))]
  }

  /** The three assignments, one after the other, on the payload copy. */
  method CoerceFlags(p: Record) returns (r: Record)
    ensures r == WithFlags(p)
  {
    r := p;
    r := r["waste_transfer_note_complete" := Bool(Truthy(Get(r, "waste_transfer_note_complete")))];
    r := r["job_complete" := Bool(Truthy(Get(r, "job_complete")))];
    r := r["paid" := Bool(Truthy(Get(r, "paid")))];
  }

  /** The row a booking form sends: flags coerced first, then every `''`
      nulled. The flags stay booleans (`false` is not `''`), every other
      field is its form value with `''` read as `null`. */
  function BookingPayload(p: Record): (r: Record)
    ensures r.Keys == p.Keys + {"waste_transfer_note_complete", "job_complete", "paid"}
    ensures forall f :: f in Flags ==> r[f] == Bool(Truthy(Get(p, f)))
    ensures forall k :: k in p && k !in Flags ==> r[k] == NullIfBlank(p[k])
    ensures forall k :: k in r ==> r[k] != Str("")
  {
    Nulled(WithFlags(p))
  }

  /** `handleSubmit`'s normalisation: coerce the flags, then run the
      blank-to-null loop over the copy. */
  method Normalise(p: Record) returns (r: Record)
    ensures r == BookingPayload(p)
  {
    r := CoerceFlags(p);
    r := NullBlanks(r);
  }

  /** Normalising a payload that was already normalised changes nothing. */
  lemma NormaliseIdempotent(p: Record)
    ensures BookingPayload(BookingPayload(p)) == BookingPayload(p)
  {
    var once := BookingPayload(p);
    var twice := BookingPayload(once);
    forall k | k in twice ensures twice[k] == once[k] {
      if k !in Flags {
        assert twice[k] == NullIfBlank(once[k]);
      }
    }
  }

  /** A form whose text fields start as `''` and whose three flags start as `false`. */
  function BlankForm(fields: seq<string>): (r: Record)
    ensures forall k :: k in r <==> k in fields || k in Flags
    ensures forall f :: f in Flags ==> r[f] == Bool(false)
    ensures forall k :: k in r && k !in Flags ==> r[k] == Str("")
  {
    (map k | k in fields :: Str(""))
      ["waste_transfer_note_complete" := Bool(false)]["job_complete" := Bool(false)]["paid" := Bool(false)]
  }

  /** An untouched blank form sends `null` for every text field and `false`
      for every flag. */
  lemma BlankFormPayload(fields: seq<string>)
    ensures forall k :: k in BookingPayload(BlankForm(fields)) <==> k in fields || k in Flags
    ensures forall k :: k in BookingPayload(BlankForm(fields)) ==>
      BookingPayload(BlankForm(fields))[k] == if k in Flags then Bool(false) else Null
  {
  }

  /** The target of an input's change event. */
  datatype ChangeEvent = ChangeEvent(name: string, value: string, isCheckbox: bool, checked: bool)

  /** `setFormData(prev => ({ ...prev, [name]: type === 'checkbox' ? checked : value }))` */
  function ApplyChange(form: Record, e: ChangeEvent): (r: Record)
    ensures r.Keys == form.Keys + {e.name}
    ensures r[e.name] == if e.isCheckbox then Bool(e.checked) else Str(e.value)
    ensures forall k :: k in form && k != e.name ==> r[k] == form[k]
  {
    form[e.name := if e.isCheckbox then Bool(e.checked) else Str(e.value)]
  }
}
