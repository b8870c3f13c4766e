/** The edit form of an existing waste transfer note: the update handler, which
    checks the EWC code against a fixed list, turns `''` into `null` and splits
    the two comma-separated list fields, and
    the older PDF download, which stacks twenty fixed boxes under a shared cursor. */
module EditWtn {
  import opened Js
  import opened Payload

  /** The EWC codes the edit form accepts. Unlike the creation form it has no
      free-text "Other" entry. */
  const EwcOptions: seq<string> := [
    "13 05 – Oil/Water Separator Contents",
    "13 05 01* - Solids from Grit Chambers and Oil/Water Separators",
    "13 05 02* - Sludges from Oil/Water Separators",
    "13 05 03* - Interceptor Sludges",
    "13 05 06* - Oil from Oil/Water Separators",
    "13 05 07* - Oily Water from Oil/Water Separators",
    "13 05 08* - Mixtures of Waste from Grit Chambers and Oil/Water Separators",
    "16 03 – Off-Specification Batches and Unused Products",
    "16 03 03* - Inorganic Wastes Containing Hazardous Substances",
    "16 03 04 - Inorganic Wastes Other Than Those Mentioned in 16 03 03",
    "16 03 05* - Organic Wastes Containing Hazardous Substances",
    "16 03 06 – Organic Wastes Other Than Those Mentioned in 16 03 05",
    "16 10 – Aqueous Liquid Waste Destined for Off-Site Treatment",
    "16 10 01* - Aqueous Liquid Waste Containing Hazardous Substances",
    "16 10 02 - Aqueous Liquid Wastes Other Than Those Mentioned in 16 10 01",
    "16 10 03* - Aqueous Concentrates Containing Hazardous Substances",
    "16 10 04 - Aqueous Concentrates Other Than Those Mentioned In 16 10 03",
    "19 07 – Land Fill Leachate",
    "19 07 02* - Landfill Leachate Containing Hazardous Substances",
    "19 07 03 - Landfill Leachate Other Than Those Mentioned in 19 07 02",
    "19 08 – Waste from Waste Water Treatment Plant Not Otherwise Specified",
    "19 08 09 - Grease and Oil Mixture from Oil/Water Separation Containing Edible Oil and Fats",
    "19 08 10* - Grease and Oil Mixture from Oil/Water Separation Other Than Those Mentioned in 19 08 09",
    "19 12 – Waste from the Mechanical Treatment of Waste (E.g Sorting, Crushing, Compacting)",
    "19 12 11* - Other Wastes (Including Mixtures of Materials) from Mechanical Treatment of Waste Containing Hazardous Substances",
    "19 12 12 - Other Wastes (Including Mixtures of Materials) from Mechanical Treatment of Waste Other Than",
    "20 01 – Separately Collected Fractions (Except 15 01)",
    "20 01 25 - Edible Oil and Fat",
    "20 01 26* - Oil and Fat Other Than Those Mentioned in 20 01 25",
    "20 03 – Other Municipal Wastes",
    "20 03 03 - Street Cleaning Residues (Gully Waste)",
    "20 03 04 - Septic Tank Sludge",
    "20 03 06 - Waste from Sewage Cleaning",
    "20 03 99 - Municipal Waste Not Otherwise Specified"
  ]
  /** `payload.ewc && EWC_OPTIONS.includes(payload.ewc)` */
  predicate EwcAccepted(v: Value) {
    Truthy(v) && v.Str? && v.s in EwcOptions
  }

  /** Every listed code is non-empty, so the truthiness test adds nothing to the
      membership test. */
  lemma EwcAcceptedIff(v: Value)
    ensures EwcAccepted(v) <==> v.Str? && v.s in EwcOptions
  {
    assert forall i :: 0 <= i < |EwcOptions| ==> |EwcOptions[i]| >= 1;
  }

  // ---------------------------------------------------------------------------
  // handleUpdate

  /** The pieces of `s` between commas. */
  function PieceTexts(s: string): seq<string> {
    var parts := SplitOn(s, ',');
    seq(|parts|, i requires 0 <= i < |parts| => Trim(parts[i]))
  }

  /** `s.split(',').map(item => item.trim())` */
  function Pieces(s: string): seq<Value> {
    var texts := PieceTexts(s);
    seq(|texts|, i requires 0 <= i < |texts| => Str(texts[i]))
  }

  /** Each piece is free of commas and of surrounding white space, and there is
      one piece more than there are commas' gaps: at least one. */
  lemma PiecesClean(s: string)
    ensures |Pieces(s)| >= 1
    ensures forall i :: 0 <= i < |Pieces(s)| ==> Pieces(s)[i] == Str(PieceTexts(s)[i])
    ensures forall i :: 0 <= i < |PieceTexts(s)| ==> ',' !in PieceTexts(s)[i]
    ensures forall i :: 0 <= i < |PieceTexts(s)| ==> var t := PieceTexts(s)[i];
      t == [] || (!IsSpace(t[0]) && !IsSpace(t[|t| - 1]))
  {
    var parts := SplitOn(s, ',');
    forall i | 0 <= i < |parts|
      ensures ',' !in PieceTexts(s)[i]
      ensures var t := PieceTexts(s)[i]; t == [] || (!IsSpace(t[0]) && !IsSpace(t[|t| - 1]))
    {
      TrimSpec(parts[i]);
      TrimStartSpec(parts[i]);
      TrimEndSpec(TrimStart(parts[i]));
    }
  }

  /** A list written without white space splits into pieces that join back into it. */
  lemma PiecesRoundTrip(s: string)
    requires forall i :: 0 <= i < |s| ==> !IsSpace(s[i])
    ensures JoinWith(PieceTexts(s), ",") == s
  {
    var parts := SplitOn(s, ',');
    SplitOnChars(s, ',');
    forall i | 0 <= i < |parts| ensures Trim(parts[i]) == parts[i] {
      forall j | 0 <= j < |parts[i]| ensures !IsSpace(parts[i][j]) {
        assert parts[i][j] in s;
      }
      TrimNoSpace(parts[i]);
    }
    assert PieceTexts(s) == parts;
    JoinSplit(s, ',');
  }

  /** `if (typeof payload[k] === 'string') payload[k] = payload[k].split(',').map(item => item.trim())` */
  function SplitField(p: Record, k: string): (r: Record)
    ensures forall j :: j != k ==> Get(r, j) == Get(p, j)
    ensures forall j :: j in r <==> j in p
    ensures Get(p, k).Str? ==> Get(r, k) == Arr(Pieces(Get(p, k).s))
    ensures !Get(p, k).Str? ==> Get(r, k) == Get(p, k)
  {
    if Get(p, k).Str? then p[k := Arr(Pieces(Get(p, k).s))] else p
  }

  /** `if (!payload.created_by && formData.created_by) payload.created_by = formData.created_by` */
  function KeepCreator(p: Record, form: Record): Record {
    if !Truthy(Get(p, "created_by")) && Truthy(Get(form, "created_by")) then p["created_by" := form["created_by"]] else p
  }

  /** How an update ends. */
  datatype UpdateResult =
    | InvalidEwc                                // alert: no valid EWC code selected
    | MissingId                                 // alert: the note has no id
    | Sent(id: Value, payload: Record, ok: bool) // the update was sent for row `id`; `ok` is its outcome

  /** The payload the update sends, once the EWC check has passed. The
      signature-pad block of the handler never runs, because the pad reference
      is never attached to a pad, so the signature goes as the form holds it. */
  function Normalised(form: Record): Record {
    var p := form - {"id"};
    KeepCreator(SplitField(SplitField(Nulled(p), "a1_ewc_codes"), "b3_role"), form)
  }

  /** `handleUpdate` on the form state `form`: `updateOk` is the outcome of the
      table update. */
  function Update(form: Record, updateOk: bool): (r: UpdateResult)
    ensures r.InvalidEwc? <==> !EwcAccepted(Get(form, "ewc"))
    ensures r.MissingId? <==> EwcAccepted(Get(form, "ewc")) && !Truthy(Get(form, "id"))
    ensures r.Sent? ==> "id" in form && r.id == form["id"] && Truthy(r.id) && r.ok == updateOk
    ensures r.Sent? ==> "id" !in r.payload && r.payload == Normalised(form)
  {
    var p := form - {"id"};
    if !EwcAccepted(Get(p, "ewc")) then InvalidEwc
    else if !Truthy(Get(form, "id")) then MissingId
    else Sent(form["id"], Normalised(form), updateOk)
  }

  /** The `created_by` step never fires: a truthy `created_by` in the form is
      still in the payload, since it is neither `''` nor a list field. */
  lemma CreatorStepInert(form: Record)
    ensures var p := SplitField(SplitField(Nulled(form - {"id"}), "a1_ewc_codes"), "b3_role");
      KeepCreator(p, form) == p
  {
    var w := form - {"id"};
    assert Get(w, "created_by") == Get(form, "created_by");
  }

  /** What the sent payload holds under key `k`: the form's value with `''`
      turned into `null`, except for the two list fields, whose strings are
      split on commas. The signature among them is sent as the form holds it. */
  lemma UpdatePayload(form: Record, k: string)
    ensures var p := Normalised(form);
      && (k in p <==> k in form && k != "id")
      && (k != "id" && k != "a1_ewc_codes" && k != "b3_role" ==> Get(p, k) == NullIfBlank(Get(form, k)))
  {
    CreatorStepInert(form);
    var w := form - {"id"};
    assert k in w <==> k in form && k != "id";
    var n := Nulled(w);
    var s := SplitField(SplitField(n, "a1_ewc_codes"), "b3_role");
    assert Normalised(form) == s;
  }

  /** The list fields: a non-empty string becomes the array of its trimmed
      comma-separated pieces, `''` becomes `null`, any other value is kept. */
  lemma UpdateLists(form: Record, k: string)
    requires k == "a1_ewc_codes" || k == "b3_role"
    ensures var p := Normalised(form);
      && (Get(form, k).Str? && Get(form, k) != Str("") ==> Get(p, k) == Arr(Pieces(Get(form, k).s)))
      && (Get(form, k) == Str("") ==> Get(p, k) == Null)
      && (!Get(form, k).Str? ==> Get(p, k) == Get(form, k))
  {
    CreatorStepInert(form);
    var w := form - {"id"};
    assert Get(w, k) == Get(form, k);
    var n := Nulled(w);
    var s := SplitField(SplitField(n, "a1_ewc_codes"), "b3_role");
    assert Normalised(form) == s;
  }

  /** `handleUpdate`, step by step on the payload. */
  method HandleUpdate(form: Record, updateOk: bool) returns (r: UpdateResult)
    ensures r == Update(form, updateOk)
  {
    var payload := form - {"id"};
    if !EwcAccepted(Get(payload, "ewc")) {
      return InvalidEwc;
    }
    payload := NullBlanks(payload);
    if Get(payload, "a1_ewc_codes").Str? {
      payload := payload["a1_ewc_codes" := Arr(Pieces(Get(payload, "a1_ewc_codes").s))];
    }
    if Get(payload, "b3_role").Str? {
      payload := payload["b3_role" := Arr(Pieces(Get(payload, "b3_role").s))];
    }
    if !Truthy(Get(payload, "created_by")) && Truthy(Get(form, "created_by")) {
      payload := payload["created_by" := form["created_by"]];
    }
    if !Truthy(Get(form, "id")) {
      return MissingId;
    }
    r := Sent(form["id"], payload, updateOk);
  }

  // ---------------------------------------------------------------------------
  // handleDownloadPDF

  /** One mark of the downloaded document, in millimetres from the top-left corner. */
  datatype Mark =
    | Frame(x: int, y: int, w: int, h: int)
    | Words(s: string, x: int, y: int)
    | Picture(data: string, x: int, y: int, w: int, h: int)

  /** The lowest point a mark reaches (a picture of height 0 keeps its aspect ratio). */
  function Bottom(m: Mark): int {
    match m
    case Frame(_, y, _, h) => y + h
    case Words(_, _, y) => y
    case Picture(_, _, y, _, h) => y + h
  }

  /** The boxes in drawing order: caption and the form key they show. */
  const Boxes: seq<(string, string)> := [
    ("Job ID", "job_id"), ("Client Name", "client_name"), ("Client Telephone", "client_telephone"),
    ("Client Email", "client_email"), ("Client Address", "client_address"), ("Site Address", "site_address"),
    ("Vehicle Registration", "vehicle_registration"), ("Waste Containment", "waste_containment"),
    ("SIC Code", "sic_code"), ("EWC", "ewc"), ("Waste Description", "waste_description"),
    ("Amount Removed", "amount_removed"), ("Disposal Address", "disposal_address"),
    ("Job Description", "job_description"), ("Portaloo Drop-off Date", "portaloo_dropoff_date"),
    ("Portaloo Collection Date", "portaloo_collection_date"), ("Time In", "time_in"),
    ("Time Out", "time_out"), ("Driver Name", "driver_name"), ("Customer Name", "customer_name")
  ]

  /** `${value ?? '-'}`: only `null` and `undefined` print as a dash. */
  function BoxValue(v: Value): string {
    if v.Null? || v.Undef? then "-" else ToStr(v)
  }

  /** What one `box(caption, value)` call draws at cursor `y`. */
  function BoxAt(caption: string, value: Value, y: int): seq<Mark> {
    [Frame(10, y, 190, 6), Words(caption + ": " + BoxValue(value), 12, y + 4)]
  }

  /** The document under construction and the shared cursor `y`. */
  class Sheet {
    var y: int
    var marks: seq<Mark>

    constructor (start: seq<Mark>, top: int)
      ensures marks == start && y == top
    {
      marks := start;
      y := top;
    }

    /** `box(label, value)`: a 190 by 6 frame at the cursor, the caption and
        value inside it, and the cursor 7 further down. */
    method Box(caption: string, value: Value)
      modifies this
      ensures marks == old(marks) + BoxAt(caption, value, old(y))
      ensures y == old(y) + 7
    {
      marks := marks + [Frame(10, y, 190, 6), Words(caption + ": " + BoxValue(value), 12, y + 4)];
      y := y + 7;
    }
  }

  /** The marks of the first boxes of `boxes`, the first at `top`. */
  function BoxMarks(form: Record, boxes: seq<(string, string)>, top: int): seq<Mark>
    decreases |boxes|
  {
    if boxes == [] then []
    else
      var n := |boxes| - 1;
      BoxMarks(form, boxes[..n], top) + BoxAt(boxes[n].0, Get(form, boxes[n].1), top + 7 * n)
  }

  /** Box `i` is drawn 7 mm below box `i - 1`: its frame at `top + 7i`, its text 4 mm lower. */
  lemma {:induction false} BoxesGeometry(form: Record, boxes: seq<(string, string)>, top: int)
    ensures |BoxMarks(form, boxes, top)| == 2 * |boxes|
    ensures forall i :: 0 <= i < |boxes| ==>
      BoxMarks(form, boxes, top)[2 * i] == Frame(10, top + 7 * i, 190, 6)
      && BoxMarks(form, boxes, top)[2 * i + 1] == Words(boxes[i].0 + ": " + BoxValue(Get(form, boxes[i].1)), 12, top + 7 * i + 4)
    ensures forall m :: m in BoxMarks(form, boxes, top) ==> top <= m.y && Bottom(m) <= top + 7 * |boxes| - 1
    decreases |boxes|
  {
    if boxes != [] {
      var n := |boxes| - 1;
      BoxesGeometry(form, boxes[..n], top);
    }
  }

  /** The boxes of `boxes` in order, each one `box` call on `sheet`. */
  method DrawBoxes(sheet: Sheet, form: Record, boxes: seq<(string, string)>)
    modifies sheet
    ensures sheet.marks == old(sheet.marks) + BoxMarks(form, boxes, old(sheet.y))
    ensures sheet.y == old(sheet.y) + 7 * |boxes|
  {
    var i := 0;
    while i < |boxes|
      invariant 0 <= i <= |boxes|
      invariant sheet.y == old(sheet.y) + 7 * i
      invariant sheet.marks == old(sheet.marks) + BoxMarks(form, boxes[..i], old(sheet.y))
    {
      sheet.Box(boxes[i].0, Get(form, boxes[i].1));
      assert boxes[..i + 1][..i] == boxes[..i];
      i := i + 1;
    }
    assert boxes[..i] == boxes;
  }

  const SignatureWidth := 60
  const SignatureHeight := 30

  /** The signature block at `y`: both captions, and each saved signature image 5 mm below. */
  function SignatureMarks(form: Record, y: int): seq<Mark> {
    [Words("Driver Signature:", 10, y), Words("Customer Signature:", 110, y)]
    + (if Truthy(Get(form, "operative_signature")) then [Picture(ToStr(Get(form, "operative_signature")), 10, y + 5, SignatureWidth, SignatureHeight)] else [])
    + (if Truthy(Get(form, "customer_signature")) then [Picture(ToStr(Get(form, "customer_signature")), 110, y + 5, SignatureWidth, SignatureHeight)] else [])
  }

  /** `if (y > 250) y = 250` */
  function Clamp(y: int): (r: int)
    ensures r <= 250
    ensures y <= 250 ==> r == y
  {
    if y > 250 then 250 else y
  }

  /** The fixed header: the logo, the company name and the contact lines. */
  function HeaderMarks(logo: string): seq<Mark> {
    [ Picture(logo, 150, 10, 40, 0),
      Words("Brooks Waste – Sewage Specialist", 10, 14),
      Words("Kendale The Drive, Rayleigh Essex, SS6 8XQ", 10, 19),
      Words("01268776126 · info@brookswaste.co.uk · www.brookswaste.co.uk", 10, 23),
      Words("Waste Carriers Reg #: CBDU167551", 10, 27) ]
  }

  const FooterText: string :=
    "You are signing to say you have read the above details and that they are correct and the operative has completed the job to a satisfactory standard. "
    + "Brooks Waste ltd takes no responsibility for any damage done to your property where access is not suitable for a tanker. "
    + "Please see our full terms and conditions on brookswaste.co.uk - Registered in England 06747484 Registered Office: 4 Chester Court, Chester Hall Lane Basildon, Essex SS14 3WR"

  /** The whole document for a loaded logo. */
  function Document(form: Record, logo: string): seq<Mark> {
    HeaderMarks(logo) + BoxMarks(form, Boxes, 36) + SignatureMarks(form, Clamp(36 + 7 * |Boxes| + 15)) + [Words(FooterText, 10, 282)]
  }

  /** The signature block sits 15 mm below the twenty boxes, at 191 mm, so
      the 250 mm cap never applies. */
  lemma SignatureTop()
    ensures 36 + 7 * |Boxes| + 15 == 191 && Clamp(36 + 7 * |Boxes| + 15) == 191
  {
  }

  /** The boxes lie between the header and the signature block. */
  lemma BoxesAboveSignatures(form: Record)
    ensures forall m :: m in BoxMarks(form, Boxes, 36) ==> 36 <= m.y && Bottom(m) < 191
  {
    BoxesGeometry(form, Boxes, 36);
    assert |Boxes| == 20;
  }

  /** The signature block reaches 35 mm below its captions: from 191 mm that
      is 226 mm, above the footer at 282 mm. */
  lemma SignaturesHeight(form: Record, y: int)
    ensures forall m :: m in SignatureMarks(form, y) ==> y <= m.y && Bottom(m) <= y + 5 + SignatureHeight
  {
  }

  /** `WTN_Job_${formData.job_id}.pdf` */
  function FileName(form: Record): (r: string)
    ensures |r| >= 12 && r[..8] == "WTN_Job_" && r[|r| - 4..] == ".pdf"
    ensures r[8..|r| - 4] == ToStr(Get(form, "job_id"))
  {
    "WTN_Job_" + ToStr(Get(form, "job_id")) + ".pdf"
  }

  /** A saved document and its file name. */
  datatype Pdf = Pdf(marks: seq<Mark>, fileName: string)

  /** `handleDownloadPDF`: everything is drawn once the logo has loaded; without
      it nothing is saved. */
  method DownloadPdf(form: Record, logo: Option<string>) returns (r: Option<Pdf>)
    ensures logo.None? ==> r.None?
    ensures logo.Some? ==> r == Some(Pdf(Document(form, logo.value), FileName(form)))
  {
    if logo.None? {
      return None;
    }
    var sheet := new Sheet(HeaderMarks(logo.value), 36);
    DrawBoxes(sheet, form, Boxes);
    sheet.y := sheet.y + 15;
    sheet.y := Clamp(sheet.y);
    sheet.marks := sheet.marks + SignatureMarks(form, sheet.y);
    sheet.y := sheet.y + SignatureHeight + 15;
    sheet.marks := sheet.marks + [Words(FooterText, 10, 282)];
    r := Some(Pdf(sheet.marks, "WTN_Job_" + ToStr(Get(form, "job_id")) + ".pdf"));
  }
}
