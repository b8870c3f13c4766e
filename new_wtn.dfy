/** The "new waste transfer note" form: the site address prefilled from the
    job, the required-field check run before saving, and the payload the
    form inserts (the "Other" placeholders replaced by the typed text, blanks
    turned into nulls, the SIC fields restored, the signatures uploaded). */
module NewWtn {
  import opened Js
  import opened Payload

  // ---------------------------------------------------------------------------
  // Site address prefill

  /** `parts.filter(Boolean)`, each survivor shown as a string. */
  function Kept(parts: seq<Value>): (r: seq<string>)
    ensures |r| <= |parts|
  {
    if parts == [] then []
    else (if Truthy(parts[0]) then [ToStr(parts[0])] else []) + Kept(parts[1..])
  }

  /** The six address parts of a job, in the order the form joins them. */
  function AddressParts(job: Record): seq<Value> {
    [Get(job, "company_name"), Get(job, "address_line_1"), Get(job, "address_line_2"),
     Get(job, "city"), Get(job, "county"), Get(job, "post_code")]
  }

  /** `[company_name, address_line_1, ...].filter(Boolean).join(', ')` */
  function FullAddress(job: Record): string {
    JoinWith(Kept(AddressParts(job)), ", ")
  }

  /** Only textual parts are ever stored in a job's address columns. */
  predicate Textual(v: Value) {
    v.Undef? || v.Null? || v.Str?
  }

  /** A falsy part is skipped wherever it stands. */
  lemma {:induction false} KeptSkipsFalsy(a: seq<Value>, x: Value, b: seq<Value>)
    requires !Truthy(x)
    ensures Kept(a + [x] + b) == Kept(a + b)
    decreases |a|
  {
    var s := a + [x] + b;
    if a == [] {
      assert s[0] == x && s[1..] == b;
      assert a + b == b;
    } else {
      assert s[0] == a[0] && s[1..] == a[1..] + [x] + b;
      assert (a + b)[0] == a[0] && (a + b)[1..] == a[1..] + b;
      KeptSkipsFalsy(a[1..], x, b);
    }
  }

  /** Every kept piece comes from a truthy part, and every truthy textual part is kept. */
  lemma {:induction false} KeptMembers(parts: seq<Value>)
    requires forall i :: 0 <= i < |parts| ==> Textual(parts[i])
    ensures forall s :: s in Kept(parts) <==> Str(s) in parts && s != ""
    decreases |parts|
  {
    if parts != [] {
      KeptMembers(parts[1..]);
      assert parts == [parts[0]] + parts[1..];
      forall s ensures s in Kept(parts) <==> Str(s) in parts && s != "" {
        if Str(s) in parts && s != "" && Str(s) !in parts[1..] {
          assert parts[0] == Str(s);
        }
      }
    }
  }

  /** Filled-in text parts are all kept, in order. */
  lemma {:induction false} KeptAllFilled(parts: seq<Value>)
    requires forall i :: 0 <= i < |parts| ==> parts[i].Str? && parts[i].s != ""
    ensures |Kept(parts)| == |parts|
    ensures forall i :: 0 <= i < |parts| ==> Kept(parts)[i] == parts[i].s
    decreases |parts|
  {
    if parts != [] {
      KeptAllFilled(parts[1..]);
      assert Kept(parts) == [parts[0].s] + Kept(parts[1..]);
    }
  }

  /** When all six parts are filled in, the address is the six in order, joined by ", ". */
  lemma FullAddressAllPresent(job: Record, a: string, b: string, c: string, d: string, e: string, f: string)
    requires AddressParts(job) == [Str(a), Str(b), Str(c), Str(d), Str(e), Str(f)]
    requires a != "" && b != "" && c != "" && d != "" && e != "" && f != ""
    ensures FullAddress(job) == JoinWith([a, b, c, d, e, f], ", ")
  {
    KeptAllFilled(AddressParts(job));
    assert Kept(AddressParts(job)) == [a, b, c, d, e, f];
  }

  /** The address is empty exactly when no textual part is filled in. */
  lemma FullAddressEmpty(job: Record)
    requires forall i :: 0 <= i < 6 ==> Textual(AddressParts(job)[i])
    ensures FullAddress(job) == "" <==> forall i :: 0 <= i < 6 ==> !Truthy(AddressParts(job)[i])
  {
    var ps := AddressParts(job);
    KeptMembers(ps);
    var k := Kept(ps);
    if k != [] {
      assert k[0] in k;
      assert JoinWith(k, ", ") != "" by { JoinStartsWithFirst(k, ", "); }
    }
    if exists i :: 0 <= i < 6 && Truthy(ps[i]) {
      var i :| 0 <= i < 6 && Truthy(ps[i]);
      assert ps[i].Str? && ps[i].s in k;
    }
  }

  lemma JoinStartsWithFirst(parts: seq<string>, sep: string)
    requires parts != []
    ensures parts[0] <= JoinWith(parts, sep)
  {
  }

  /** The fields the job prefills. */
  predicate Prefilled(k: string) {
    k == "date_of_service" || k == "customer_job_reference" || k == "client_name" || k == "client_telephone"
    || k == "client_address" || k == "site_address" || k == "job_description" || k == "driver_name"
  }

  /** `setFormData(prev => ({ ...prev, date_of_service: ... || '', ... }))`:
      the site address is the joined address, the client address is left
      empty, the other prefilled fields fall back to `''`, and every other
      field keeps its value. */
  function Prefill(prev: Record, job: Record, driverName: Value): (r: Record)
    ensures Get(r, "site_address") == Str(FullAddress(job))
    ensures Get(r, "client_address") == Str("")
    ensures Get(r, "date_of_service") == Or(Get(job, "date_of_service"), Str(""))
    ensures Get(r, "customer_job_reference") == Or(Get(job, "customer_job_reference"), Str(""))
    ensures Get(r, "client_name") == Or(Get(job, "customer_name"), Str(""))
    ensures Get(r, "client_telephone") == Or(Get(job, "mobile_number"), Str(""))
    ensures Get(r, "job_description") == Or(Get(job, "job_type"), Str(""))
    ensures Get(r, "driver_name") == Or(driverName, Str(""))
  {
    prev["date_of_service" := Or(Get(job, "date_of_service"), Str(""))]
        ["customer_job_reference" := Or(Get(job, "customer_job_reference"), Str(""))]
        ["client_name" := Or(Get(job, "customer_name"), Str(""))]
        ["client_telephone" := Or(Get(job, "mobile_number"), Str(""))]
        ["client_address" := Str("")]
        ["site_address" := Or(Str(FullAddress(job)), Str(""))]
        ["job_description" := Or(Get(job, "job_type"), Str(""))]
        ["driver_name" := Or(driverName, Str(""))]
  }

  /** Prefilling leaves every other field as it was. */
  lemma PrefillKeeps(prev: Record, job: Record, driverName: Value, k: string)
    requires !Prefilled(k)
    ensures Get(Prefill(prev, job, driverName), k) == Get(prev, k)
  {
  }

  // ---------------------------------------------------------------------------
  // Required fields

  /** The thirteen required text fields and their labels, in declaration order. */
  const RequiredText: seq<(string, string)> := [
    ("client_name", "Client Name"), ("site_address", "Site Address"),
    ("vehicle_registration", "Vehicle Registration"), ("sic_code", "SIC Code"),
    ("ewc", "EWC"), ("waste_description", "Waste Description"),
    ("amount_removed", "Amount Removed"), ("disposal_address", "Disposal Address"),
    ("job_description", "Job Description"), ("time_in", "Time In"), ("time_out", "Time Out"),
    ("driver_name", "Driver Name"), ("customer_name", "Customer Name")]

  /** The labels of the required fields that are absent or only white space, in order. */
  function MissingText(form: Record, req: seq<(string, string)>): (r: seq<string>)
    ensures |r| <= |req|
  {
    if req == [] then []
    else
      var last := req[|req| - 1];
      MissingText(form, req[..|req| - 1]) + (if Blank(Get(form, last.0)) then [last.1] else [])
  }

  /** A label is listed exactly when one of its fields is blank. */
  lemma {:induction false} MissingTextMembers(form: Record, req: seq<(string, string)>)
    ensures forall l :: l in MissingText(form, req) <==>
      exists i :: 0 <= i < |req| && req[i].1 == l && Blank(Get(form, req[i].0))
    decreases |req|
  {
    if req != [] {
      var init := req[..|req| - 1];
      MissingTextMembers(form, init);
      forall l ensures l in MissingText(form, req) <==>
        exists i :: 0 <= i < |req| && req[i].1 == l && Blank(Get(form, req[i].0))
      {
        if exists i :: 0 <= i < |req| && req[i].1 == l && Blank(Get(form, req[i].0)) {
          var i :| 0 <= i < |req| && req[i].1 == l && Blank(Get(form, req[i].0));
          if i < |req| - 1 {
            assert init[i] == req[i];
          }
        }
        if l in MissingText(form, init) {
          var i :| 0 <= i < |init| && init[i].1 == l && Blank(Get(form, init[i].0));
          assert req[i] == init[i];
        }
      }
    }
  }

  /** Nothing is missing exactly when every required field is filled in. */
  lemma {:induction false} MissingTextEmpty(form: Record, req: seq<(string, string)>)
    ensures MissingText(form, req) == [] <==> forall i :: 0 <= i < |req| ==> !Blank(Get(form, req[i].0))
    decreases |req|
  {
    if req != [] {
      var init := req[..|req| - 1];
      MissingTextEmpty(form, init);
      assert forall i :: 0 <= i < |init| ==> init[i] == req[i];
    }
  }

  /** A form that passes the check has an EWC and a vehicle registration. */
  lemma RequiredPresent(form: Record)
    requires MissingText(form, RequiredText) == []
    ensures !Blank(Get(form, "ewc")) && !Blank(Get(form, "vehicle_registration"))
  {
    MissingTextEmpty(form, RequiredText);
    assert RequiredText[4].0 == "ewc" && RequiredText[2].0 == "vehicle_registration";
  }

  /** The required-field loop (`requiredText.forEach(... missing.push(label))`). */
  method CollectMissing(form: Record, req: seq<(string, string)>) returns (missing: seq<string>)
    ensures missing == MissingText(form, req)
  {
    missing := [];
    var i := 0;
    while i < |req|
      invariant 0 <= i <= |req|
      invariant missing == MissingText(form, req[..i])
    {
      var key, caption := req[i].0, req[i].1;
      assert req[..i + 1][..i] == req[..i];
      if Blank(Get(form, key)) {
        missing := missing + [caption];
      }
      i := i + 1;
    }
    assert req[..|req|] == req;
  }

  /** A signature is missing when no URL is saved and its pad is absent or empty. */
  predicate SignatureMissing(saved: Value, drawn: bool) {
    !Truthy(saved) && !drawn
  }

  /** What a signature pad holds and what uploading it gives. */
  datatype Pad =
    | Empty                   // absent, or nothing drawn: `uploadSignature` returns null
    | Drawn(url: string)      // uploaded; the public URL of the stored image
    | Rejected                // drawn, but the storage upload reported an error

  /** Every label the alert lists: the required text fields, then the two signatures. */
  function Missing(form: Record, operative: Pad, customer: Pad): seq<string> {
    MissingText(form, RequiredText)
    + (if SignatureMissing(Get(form, "operative_signature"), !operative.Empty?) then ["Driver Signature"] else [])
    + (if SignatureMissing(Get(form, "customer_signature"), !customer.Empty?) then ["Customer Signature"] else [])
  }

  /** Nothing is missing exactly when every required field is filled in and each
      signature is saved or drawn. */
  lemma MissingEmpty(form: Record, operative: Pad, customer: Pad)
    ensures Missing(form, operative, customer) == [] <==>
      (forall i :: 0 <= i < |RequiredText| ==> !Blank(Get(form, RequiredText[i].0)))
      && (Truthy(Get(form, "operative_signature")) || !operative.Empty?)
      && (Truthy(Get(form, "customer_signature")) || !customer.Empty?)
  {
    MissingTextEmpty(form, RequiredText);
  }

  // ---------------------------------------------------------------------------
  // "Other" placeholders

  const EwcOther: string := "Other - ______________________________________"
  const VehicleOther: string := "Other – ___________________________"

  /** The placeholder is selected and the free-text field is filled in. */
  predicate OtherChosen(p: Record, key: string, other: string, sentinel: string) {
    StrictEq(Get(p, key), Str(sentinel)) && Truthy(Get(p, other))
  }

  /** `if (p[key] === sentinel && p[other]) p[key] = p[other].trim(); delete p[other]` */
  function UseOther(p: Record, key: string, other: string, sentinel: string): (r: Record)
    requires key != other
    ensures other !in r
    ensures Get(r, key) == Chosen(p, key, other, sentinel)
    ensures forall k :: k != key && k != other ==> Get(r, k) == Get(p, k)
  {
    var q := if OtherChosen(p, key, other, sentinel) then p[key := Str(Trim(ToStr(Get(p, other))))] else p;
    q - {other}
  }

  /** The value a placeholder field ends up with before blanks are nulled:
      the trimmed free text when the placeholder is selected and the text is
      filled in, the selected option otherwise. */
  function Chosen(form: Record, key: string, other: string, sentinel: string): Value {
    if OtherChosen(form, key, other, sentinel) then Str(Trim(ToStr(Get(form, other)))) else Get(form, key)
  }

  /** The payload after both placeholder substitutions (lines 393-410). */
  function Prepared(form: Record): (r: Record)
    ensures "ewc_other" !in r && "vehicle_registration_other" !in r
    ensures Get(r, "ewc") == Chosen(form, "ewc", "ewc_other", EwcOther)
    ensures Get(r, "vehicle_registration") == Chosen(form, "vehicle_registration", "vehicle_registration_other", VehicleOther)
    ensures forall k :: (k != "ewc" && k != "vehicle_registration" && k != "ewc_other" &&
                         k != "vehicle_registration_other") ==> Get(r, k) == Get(form, k)
  {
    var p := UseOther(form, "ewc", "ewc_other", EwcOther);
    UseOther(p, "vehicle_registration", "vehicle_registration_other", VehicleOther)
  }

  // ---------------------------------------------------------------------------
  // Submission

  datatype SubmitResult =
    | Refused(missing: seq<string>)  // the alert lists the missing fields; nothing is saved
    | NoEwc                          // "Please select an EWC code."
    | NoUser                         // "Unable to fetch user."
    | UploadFailed                   // a signature upload threw
    | Saved(payload: Record)         // inserted into waste_transfer_notes
    | SaveFailed(payload: Record)    // the insert reported an error

  /** The value `uploadSignature` resolves to for a pad whose upload does not throw. */
  function Upload(pad: Pad): Value
    requires !pad.Rejected?
  {
    if pad.Drawn? then Str(pad.url) else Null
  }

  /** The signature a note carries: the URL already saved, else the upload's result. */
  function SignatureOf(saved: Value, pad: Pad): Value
    requires Truthy(saved) || !pad.Rejected?
  {
    if Truthy(saved) then saved else Upload(pad)
  }

  /** Lines 436-450: each signature not already saved is uploaded, the
      operative's first; an upload that throws stops the submission. */
  function Signed(p: Record, operative: Pad, customer: Pad): (r: Option<Record>)
    ensures r.None? <==> (!Truthy(Get(p, "operative_signature")) && operative.Rejected?)
                         || (!Truthy(Get(p, "customer_signature")) && customer.Rejected?)
    ensures r.Some? ==> Get(r.value, "operative_signature") == SignatureOf(Get(p, "operative_signature"), operative)
    ensures r.Some? ==> Get(r.value, "customer_signature") == SignatureOf(Get(p, "customer_signature"), customer)
    ensures r.Some? ==> forall k :: k != "operative_signature" && k != "customer_signature" ==> Get(r.value, k) == Get(p, k)
    ensures r.Some? ==> forall k :: k in r.value && k != "operative_signature" && k != "customer_signature" ==> k in p
  {
    if !Truthy(Get(p, "operative_signature")) && operative.Rejected? then None
    else
      var p1 := if Truthy(Get(p, "operative_signature")) then p else p["operative_signature" := Upload(operative)];
      if !Truthy(Get(p1, "customer_signature")) && customer.Rejected? then None
      else Some(if Truthy(Get(p1, "customer_signature")) then p1 else p1["customer_signature" := Upload(customer)])
  }

  /** Lines 456-467: the SIC fields reset to the form's values, the EWC
      placeholder substituted again from the form, the helper field dropped. */
  function Restored(p: Record, form: Record): (r: Record)
    ensures "ewc_other" !in r
    ensures "sic_code" in r && r["sic_code"] == Get(form, "sic_code")
    ensures "sic_other" in r && r["sic_other"] == Get(form, "sic_other")
    ensures Get(r, "ewc") == if OtherChosen(form, "ewc", "ewc_other", EwcOther)
                             then Str(Trim(ToStr(Get(form, "ewc_other")))) else Get(p, "ewc")
    ensures forall k :: k != "sic_code" && k != "sic_other" && k != "ewc" && k != "ewc_other" ==> Get(r, k) == Get(p, k)
    ensures forall k :: k in r && k != "sic_code" && k != "sic_other" && k != "ewc" ==> k in p
  {
    var q := p["sic_code" := Get(form, "sic_code")]["sic_other" := Get(form, "sic_other")];
    var q2 := if OtherChosen(form, "ewc", "ewc_other", EwcOther)
              then q["ewc" := Str(Trim(ToStr(Get(form, "ewc_other"))))] else q;
    q2 - {"ewc_other"}
  }

  /** Everything after the missing-field check (lines 391-478), with the
      signed-in user, the two pads and the insert's outcome as inputs. */
  function Proceed(form: Record, operative: Pad, customer: Pad, user: Option<string>, insertOk: bool): SubmitResult {
    var p := Prepared(form);
    if !Truthy(Get(p, "ewc")) then NoEwc
    else if user.None? then NoUser
    else
      match Signed(p["created_by" := Str(user.value)], operative, customer)
      case None => UploadFailed
      case Some(signed) =>
        var payload := Restored(Nulled(signed), form);
        if insertOk then Saved(payload) else SaveFailed(payload)
  }

  /** `handleSubmit`: refused with the list of missing labels, or carried on. */
  function Submit(form: Record, operative: Pad, customer: Pad, user: Option<string>, insertOk: bool): (r: SubmitResult)
    ensures r.Refused? <==> Missing(form, operative, customer) != []
    ensures r.Refused? ==> r.missing == Missing(form, operative, customer)
  {
    var missing := Missing(form, operative, customer);
    if missing != [] then Refused(missing) else Proceed(form, operative, customer, user, insertOk)
  }

  /** The fields the submission sets or restores itself. */
  predicate Managed(k: string) {
    k == "ewc" || k == "ewc_other" || k == "vehicle_registration" || k == "vehicle_registration_other"
    || k == "created_by" || k == "operative_signature" || k == "customer_signature"
    || k == "sic_code" || k == "sic_other"
  }

  /** What an inserted note holds in the fields the submission chooses: no
      helper fields, the creator, the chosen EWC (never blank), the chosen
      vehicle and the form's SIC fields. */
  predicate NoteChoices(p: Record, form: Record, uid: string) {
    && "ewc_other" !in p && "vehicle_registration_other" !in p
    && Get(p, "created_by") == NullIfBlank(Str(uid))
    && Get(p, "ewc") == Chosen(form, "ewc", "ewc_other", EwcOther) && Truthy(Get(p, "ewc"))
    && Get(p, "vehicle_registration") == NullIfBlank(Chosen(form, "vehicle_registration", "vehicle_registration_other", VehicleOther))
    && "sic_code" in p && p["sic_code"] == Get(form, "sic_code")
    && "sic_other" in p && p["sic_other"] == Get(form, "sic_other")
  }

  /** An inserted note carries both signatures: the URL the form had saved,
      else the uploaded one, else `null` when nothing was drawn. */
  predicate NoteSigned(p: Record, form: Record, operative: Pad, customer: Pad) {
    && (Truthy(Get(form, "operative_signature")) || !operative.Rejected?)
    && (Truthy(Get(form, "customer_signature")) || !customer.Rejected?)
    && Get(p, "operative_signature") == NullIfBlank(SignatureOf(Get(form, "operative_signature"), operative))
    && Get(p, "customer_signature") == NullIfBlank(SignatureOf(Get(form, "customer_signature"), customer))
  }

  /** The stages of a submission that reaches the insert. */
  lemma ProceedStages(form: Record, operative: Pad, customer: Pad, user: Option<string>, insertOk: bool)
    returns (p1: Record, n: Record)
    requires var r := Proceed(form, operative, customer, user, insertOk); r.Saved? || r.SaveFailed?
    ensures user.Some? && p1 == Prepared(form)["created_by" := Str(user.value)]
    ensures Signed(p1, operative, customer).Some? && n == Nulled(Signed(p1, operative, customer).value)
    ensures Truthy(Get(p1, "ewc"))
    ensures Proceed(form, operative, customer, user, insertOk).payload == Restored(n, form)
  {
    p1 := Prepared(form)["created_by" := Str(user.value)];
    n := Nulled(Signed(p1, operative, customer).value);
  }

  /** The chosen values survive the uploads and the blank-to-null loop. */
  lemma NulledChoices(form: Record, uid: string, operative: Pad, customer: Pad)
    requires Signed(Prepared(form)["created_by" := Str(uid)], operative, customer).Some?
    ensures var n := Nulled(Signed(Prepared(form)["created_by" := Str(uid)], operative, customer).value);
      && "ewc_other" !in n && "vehicle_registration_other" !in n
      && Get(n, "created_by") == NullIfBlank(Str(uid))
      && Get(n, "ewc") == NullIfBlank(Chosen(form, "ewc", "ewc_other", EwcOther))
      && Get(n, "vehicle_registration") == NullIfBlank(Chosen(form, "vehicle_registration", "vehicle_registration_other", VehicleOther))
  {
    var p := Prepared(form);
    var p1 := p["created_by" := Str(uid)];
    var signed := Signed(p1, operative, customer).value;
    assert "ewc_other" !in p1 && "vehicle_registration_other" !in p1;
    assert Get(p1, "ewc") == Get(p, "ewc");
    assert Get(p1, "vehicle_registration") == Get(p, "vehicle_registration");
    assert Get(signed, "created_by") == Str(uid);
  }

  /** The final restorations keep the chosen values and set the SIC fields. */
  lemma RestoredChoices(n: Record, form: Record, uid: string)
    requires "ewc_other" !in n && "vehicle_registration_other" !in n
    requires Get(n, "created_by") == NullIfBlank(Str(uid))
    requires Truthy(Chosen(form, "ewc", "ewc_other", EwcOther))
    requires Get(n, "ewc") == NullIfBlank(Chosen(form, "ewc", "ewc_other", EwcOther))
    requires Get(n, "vehicle_registration") == NullIfBlank(Chosen(form, "vehicle_registration", "vehicle_registration_other", VehicleOther))
    ensures NoteChoices(Restored(n, form), form, uid)
  {
  }

  /** A note that reaches the insert holds the chosen values. */
  lemma ProceedChoices(form: Record, operative: Pad, customer: Pad, user: Option<string>, insertOk: bool)
    requires var r := Proceed(form, operative, customer, user, insertOk); r.Saved? || r.SaveFailed?
    ensures user.Some?
    ensures NoteChoices(Proceed(form, operative, customer, user, insertOk).payload, form, user.value)
  {
    var p1, n := ProceedStages(form, operative, customer, user, insertOk);
    NulledChoices(form, user.value, operative, customer);
    RestoredChoices(n, form, user.value);
  }

  /** The uploads give both signatures, and the blank-to-null loop keeps them. */
  lemma NulledSigned(form: Record, uid: string, operative: Pad, customer: Pad)
    requires Signed(Prepared(form)["created_by" := Str(uid)], operative, customer).Some?
    ensures NoteSigned(Nulled(Signed(Prepared(form)["created_by" := Str(uid)], operative, customer).value), form, operative, customer)
  {
    var p1 := Prepared(form)["created_by" := Str(uid)];
    assert Get(p1, "operative_signature") == Get(form, "operative_signature");
    assert Get(p1, "customer_signature") == Get(form, "customer_signature");
  }

  /** The final restorations leave the signatures alone. */
  lemma RestoredSigned(n: Record, form: Record, operative: Pad, customer: Pad)
    requires NoteSigned(n, form, operative, customer)
    ensures NoteSigned(Restored(n, form), form, operative, customer)
  {
  }

  /** A note that reaches the insert holds both signatures. */
  lemma ProceedSigned(form: Record, operative: Pad, customer: Pad, user: Option<string>, insertOk: bool)
    requires var r := Proceed(form, operative, customer, user, insertOk); r.Saved? || r.SaveFailed?
    ensures NoteSigned(Proceed(form, operative, customer, user, insertOk).payload, form, operative, customer)
  {
    var p1, n := ProceedStages(form, operative, customer, user, insertOk);
    NulledSigned(form, user.value, operative, customer);
    RestoredSigned(n, form, operative, customer);
  }

  /** Every field the submission does not manage is saved as the form had it,
      with `''` turned into `null`. */
  lemma ProceedKeeps(form: Record, operative: Pad, customer: Pad, user: Option<string>, insertOk: bool, k: string)
    requires var r := Proceed(form, operative, customer, user, insertOk); r.Saved? || r.SaveFailed?
    requires !Managed(k)
    ensures Get(Proceed(form, operative, customer, user, insertOk).payload, k) == NullIfBlank(Get(form, k))
  {
    var p1, n := ProceedStages(form, operative, customer, user, insertOk);
    assert Get(p1, k) == Get(form, k);
  }

  /** No field of an inserted note other than the two SIC fields holds `''`. */
  lemma ProceedNoBlank(form: Record, operative: Pad, customer: Pad, user: Option<string>, insertOk: bool, k: string)
    requires var r := Proceed(form, operative, customer, user, insertOk); r.Saved? || r.SaveFailed?
    requires k != "sic_code" && k != "sic_other"
    ensures Get(Proceed(form, operative, customer, user, insertOk).payload, k) != Str("")
  {
    var p1, n := ProceedStages(form, operative, customer, user, insertOk);
    var q := Restored(n, form);
    if k == "ewc" {
      ProceedChoices(form, operative, customer, user, insertOk);
    } else {
      assert Get(q, k) == Get(n, k);
    }
  }

  /** A saved note passed the check, had a signed-in user and a successful
      insert, holds the chosen values and both signatures, keeps every field it
      does not manage (with `''` as `null`) and holds no `''` outside the SIC
      fields. */
  lemma SubmitPayload(form: Record, operative: Pad, customer: Pad, user: Option<string>, insertOk: bool, k: string)
    requires Submit(form, operative, customer, user, insertOk).Saved?
    ensures Missing(form, operative, customer) == [] && user.Some? && insertOk
    ensures NoteChoices(Submit(form, operative, customer, user, insertOk).payload, form, user.value)
    ensures NoteSigned(Submit(form, operative, customer, user, insertOk).payload, form, operative, customer)
    ensures !Managed(k) ==> Get(Submit(form, operative, customer, user, insertOk).payload, k) == NullIfBlank(Get(form, k))
    ensures k != "sic_code" && k != "sic_other" ==> Get(Submit(form, operative, customer, user, insertOk).payload, k) != Str("")
  {
    ProceedChoices(form, operative, customer, user, insertOk);
    ProceedSigned(form, operative, customer, user, insertOk);
    if !Managed(k) {
      ProceedKeeps(form, operative, customer, user, insertOk, k);
    }
    if k != "sic_code" && k != "sic_other" {
      ProceedNoBlank(form, operative, customer, user, insertOk, k);
    }
  }

  /** Lines 393-410 as the page runs them: each placeholder replaced by its
      free text, each helper field deleted. */
  method ReplacePlaceholders(form: Record) returns (payload: Record)
    ensures payload == Prepared(form)
  {
    payload := form;
    if OtherChosen(payload, "ewc", "ewc_other", EwcOther) {
      payload := payload["ewc" := Str(Trim(ToStr(Get(payload, "ewc_other"))))];
    }
    payload := payload - {"ewc_other"};
    assert payload == UseOther(form, "ewc", "ewc_other", EwcOther);
    ghost var first := payload;
    if OtherChosen(payload, "vehicle_registration", "vehicle_registration_other", VehicleOther) {
      payload := payload["vehicle_registration" := Str(Trim(ToStr(Get(payload, "vehicle_registration_other"))))];
    }
    payload := payload - {"vehicle_registration_other"};
    assert payload == UseOther(first, "vehicle_registration", "vehicle_registration_other", VehicleOther);
  }

  /** The `try` block of lines 436-450: each missing signature uploaded in
      turn; None when an upload throws. */
  method UploadSignatures(p: Record, operative: Pad, customer: Pad) returns (r: Option<Record>)
    ensures r == Signed(p, operative, customer)
  {
    var payload := p;
    if !Truthy(Get(payload, "operative_signature")) {
      if operative.Rejected? {
        return None;
      }
      payload := payload["operative_signature" := Upload(operative)];
    }
    if !Truthy(Get(payload, "customer_signature")) {
      if customer.Rejected? {
        return None;
      }
      payload := payload["customer_signature" := Upload(customer)];
    }
    r := Some(payload);
  }

  /** The save path as the page runs it: the placeholder substitutions, the
      creator, the uploads, the blank-to-null loop and the final restorations,
      in that order. */
  method SaveChecked(form: Record, operative: Pad, customer: Pad, user: Option<string>, insertOk: bool)
    returns (r: SubmitResult)
    ensures r == Proceed(form, operative, customer, user, insertOk)
  {
    var payload := ReplacePlaceholders(form);
    if !Truthy(Get(payload, "ewc")) {
      return NoEwc;
    }
    if user.None? {
      return NoUser;
    }
    payload := payload["created_by" := Str(user.value)];
    var signed := UploadSignatures(payload, operative, customer);
    if signed.None? {
      return UploadFailed;
    }
    payload := NullBlanks(signed.value);
    ghost var nulled := payload;
    payload := payload["sic_code" := Get(form, "sic_code")]["sic_other" := Get(form, "sic_other")];
    if OtherChosen(form, "ewc", "ewc_other", EwcOther) {
      payload := payload["ewc" := Str(Trim(ToStr(Get(form, "ewc_other"))))];
    }
    payload := payload - {"ewc_other"};
    assert payload == Restored(nulled, form);
    r := if insertOk then Saved(payload) else SaveFailed(payload);
  }

  /** `handleSubmit`: the missing-field loop and the two signature checks, then
      the save path. */
  method HandleSubmit(form: Record, operative: Pad, customer: Pad, user: Option<string>, insertOk: bool)
    returns (r: SubmitResult)
    ensures r == Submit(form, operative, customer, user, insertOk)
  {
    var missing := CollectMissing(form, RequiredText);
    if SignatureMissing(Get(form, "operative_signature"), !operative.Empty?) {
      missing := missing + ["Driver Signature"];
    }
    if SignatureMissing(Get(form, "customer_signature"), !customer.Empty?) {
      missing := missing + ["Customer Signature"];
    }
    if |missing| > 0 {
      return Refused(missing);
    }
    r := SaveChecked(form, operative, customer, user, insertOk);
  }

  // ---------------------------------------------------------------------------
  // SIC select

  const SicOther: string := "00000 - Other: _______"

  /** `!/\d/.test(opt)`: an option without a digit is a group heading. */
  predicate IsSicHeader(opt: string) {
    forall i :: 0 <= i < |opt| ==> !IsDigit(opt[i])
  }

  /** `value={isHeader ? '' : opt}`: only headings carry the empty value. */
  function SicOptionValue(opt: string): (v: string)
    ensures v == "" <==> IsSicHeader(opt)
    ensures !IsSicHeader(opt) ==> v == opt
  {
    if IsSicHeader(opt) then "" else opt
  }

  /** The `sic_code` select's change handler. */
  function SicChange(form: Record, value: string): (r: Record)
    ensures r.Keys == form.Keys + {"sic_code", "sic_other"}
    ensures r["sic_code"] == Str(value)
    ensures value == SicOther ==> r["sic_other"] == Str("")
    ensures value != SicOther ==> r["sic_other"] == Null
    ensures forall k :: k in form && k != "sic_code" && k != "sic_other" ==> r[k] == form[k]
  {
    form["sic_code" := Str(value)]["sic_other" := if value == SicOther then Str("") else Null]
  }
}
