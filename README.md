# Brooks Waste portal: a Dafny model of its core

The Brooks Waste portal is the office and driver web application of a waste
and portable-toilet hire business. Its staff book jobs, drivers work through
their jobs, and every collection is recorded on a Waste Transfer Note (WTN).
The WTN is saved as a row and can be downloaded as a one-page PDF. This project
models the parts of the portal that decide what is stored and what is drawn:

- **the WTN PDF layout engine** (`generateWTNPDF`). It lays the note out
  section by section with one moving cursor and an overflow guard before each
  field or block. It tries a normal, a compact and an ultra-compact layout in
  turn, and keeps the first attempt whose terms footer fits. The model proves
  where things end up: no section draws below its cursor, the guard fires
  exactly when a field does not fit, and a successful attempt ends with the
  footer and keeps everything else clear of it. It also proves how the file
  name is sanitised.
- **the WTN forms.** The creation form (`NewWTN`) prefills the site address,
  lists the missing required fields, swaps the "Other" placeholders for free
  text, uploads signatures, turns blanks into `null` and inserts the note.
  The edit form (`EditWTN`) checks the EWC code and the id, splits its list
  fields and draws its own simpler PDF.
- **the booking forms** (`NewBooking`, `QuickBookModal`, `EditModal`). They
  share one normaliser: the three job flags become booleans and every `''`
  becomes `null`. That normaliser is proved idempotent.
- **the job-list pages** (`Bookings`, `DriverDashboard`, `AdminDashboard`,
  `Todo`): their filters, sorts, look-ups, toggles and the state their
  handlers change.

JavaScript values are modelled by `Js.Value`: `undefined`, `null`, booleans,
integer numbers, `NaN`, strings, arrays and objects. A row is a
`map<string, Value>`. `Js` also models JavaScript truthiness, `||`, `===`,
`String(v)`, `trim`, `split`, `join` and `Number(s)`. `Sorting` models
`filter` and `sort` with a comparator. `Payload` holds the
normalisation shared by the forms.

State that React keeps with `useState` and that a handler updates becomes a
`class` whose methods change it: the booking and edit modals, the quick-book
gate, the bookings page, the admin drawer, the to-do page and the EditWTN PDF
sheet. Each such method is tied to a pure function of the old state. The
PDF layout is modelled as the sequence of drawing operations it emits. The
loops of `renderOnce` are methods with invariants, proved equal to the
functions the layout lemmas are about.

Several specification functions have no row of their own, because the lemmas
and methods in the rows state what they mean. In `WtnPdf` these are
`Render`, `FileName`, `SafeRef`, `WouldOverflow`, `FitHeight`, `LayColumn`,
`LaySection`, `Finish`, `Body` and `View`. The others are `NewWtn.Proceed`,
`NewWtn.Missing`, `NewWtn.FullAddress`, `Bookings.DriverName`,
`Bookings.FilteredJobs`, `DriverDashboard.CurrentJobs`,
`DriverDashboard.CompletedJobs`, `DriverDashboard.ToggleExpand`,
`EditWtn.Normalised`, `EditWtn.Document`, `EditWtn.BoxMarks` and
`AdminDashboard.KpiOf`.

## Model

| member | source | states |
|---|---|---|
| Payload.Nulled | src/components/NewBooking.jsx:68-72 | The blank-to-null pass keeps every key, leaves no `''` behind, and maps each value `''` to `null` while keeping any other value. |
| Payload.NullBlanks | src/components/NewBooking.jsx:68-72 | The key loop over the payload produces exactly `Nulled(p)`: same keys, `''` replaced by `null`, no `''` left. |
| Payload.WithFlags | src/components/NewBooking.jsx:63-65 | The three job flags are present and hold the booleans `!!value`; every other field is unchanged. |
| Payload.CoerceFlags | src/components/NewBooking.jsx:63-65 | The three assignments in sequence give `WithFlags(p)`. |
| Payload.BookingPayload | src/components/NewBooking.jsx:60-72 | The row a booking form sends: the keys are the form's plus the flags, the flags are booleans, other fields are the form's with `''` as `null`, and no field holds `''`. |
| Payload.Normalise | src/components/NewBooking.jsx:60-72 | The flag step followed by the null loop computes `BookingPayload`. |
| Payload.NormaliseIdempotent | src/components/NewBooking.jsx:60-72 | Normalising an already normalised row changes nothing. |
| Payload.BlankForm | src/components/NewBooking.jsx:5-34 | The initial form holds exactly the listed text fields as `''` and the three flags as `false`. |
| Payload.BlankFormPayload | src/components/NewBooking.jsx:5-34 | An untouched form sends `null` for every text field and `false` for every flag. |
| Payload.ApplyChange | src/components/NewBooking.jsx:46-52 | The change handler sets the named field to the checkbox state or the typed text and leaves every other field alone. |
| NewBooking.Submit | src/components/NewBooking.jsx:54-84 | Refused exactly when the mobile number is falsy or only white space. Otherwise the inserted row is `BookingPayload(form)`, carries the form's mobile number and reports the insert's outcome. |
| NewBooking.Modal.constructor | src/components/NewBooking.jsx:5-34 | The modal starts with the blank form of its 25 text fields and three `false` flags. |
| NewBooking.Modal.HandleChange | src/components/NewBooking.jsx:46-52 | The form becomes `ApplyChange(old form, event)`. |
| NewBooking.Modal.HandleSubmit | src/components/NewBooking.jsx:54-84 | The guard and then normalisation of a copy; the result is `Submit(form, insertOk)` and the form is not changed. |
| NewBooking.FreshFormRefused | src/components/NewBooking.jsx:5-58 | The form as first shown cannot be saved. |
| NewBooking.TypedMobileAccepted | src/components/NewBooking.jsx:46-58 | Typing any mobile number that is not only white space gets past the guard, whatever else the form holds. |
| QuickBookModal.Modal.constructor | src/components/QuickBookModal.jsx:6-32 | The modal starts locked, with an empty password and the blank form of its 20 text fields. |
| QuickBookModal.Modal.TypePassword | src/components/QuickBookModal.jsx:116-123 | While locked, typing only sets the password input. |
| QuickBookModal.Modal.PasswordSubmit | src/components/QuickBookModal.jsx:44-51 | The gate unlocks if and only if the input equals the passphrase exactly, and alerts exactly when it stays locked. |
| QuickBookModal.Modal.HandleChange | src/components/QuickBookModal.jsx:53-59 | Once unlocked, the form becomes `ApplyChange(old form, event)` and the gate stays open. |
| QuickBookModal.Modal.HandleSubmit | src/components/QuickBookModal.jsx:61-85 | With no required-field check, the insert sends `BookingPayload(form)` and reports its outcome. |
| QuickBookModal.FreshFormPayload | src/components/QuickBookModal.jsx:8-32 | Saving the untouched form inserts `null` for every text field and `false` for every flag. |
| EditModal.EditChange | src/components/EditModal.jsx:7-18 | Only the named field changes: to the checkbox state, to `Number(value)` (a number or `NaN`) for `driver_id`, or else to the text. |
| EditModal.EditChangeAsBookingForms | src/components/EditModal.jsx:7-18 | Apart from a typed `driver_id`, the handler equals the other forms' `ApplyChange`. |
| EditModal.DriverIdNumber | src/components/EditModal.jsx:14-15 | A decimal driver id typed in is stored as that number, and a blank one as 0. |
| EditModal.Submit | src/components/EditModal.jsx:20-47 | The update selects the row by the form's `id`. The payload is `BookingPayload` of the form without `id`, so it never contains `id`, and its keys are the form's (minus `id`) plus the flags. |
| EditModal.SubmitFields | src/components/EditModal.jsx:21-33 | Each non-flag field is sent as the form holds it, with `''` as `null`; each flag is sent as a boolean. |
| EditModal.DateShown | src/components/EditModal.jsx:111 | The date input shows the part before the first `T` (the whole string if there is none, `''` for a missing value), and never contains a `T`. |
| EditModal.DateShownRoundTrip | src/components/EditModal.jsx:111 | A picked date is shown as picked, and a stored `<date>T<time>` is shown as `<date>`. |
| EditModal.Modal.constructor | src/components/EditModal.jsx:4-5 | The form starts as the job. |
| EditModal.Modal.HandleChange | src/components/EditModal.jsx:7-18 | The form becomes `EditChange(old form, event)`. |
| EditModal.Modal.HandleSubmit | src/components/EditModal.jsx:20-47 | The imperative submit computes `Submit(form, updateOk)`. |
| WtnPdf.OrDash | src/utils/generateWTNPDF.js:132-158 | `value \|\| "-"` is never empty and keeps a non-empty value. |
| WtnPdf.Shown | src/utils/generateWTNPDF.js:215-239 | A field value passed to a column is `"-"` when falsy and the string itself otherwise. |
| WtnPdf.DrawField | src/utils/generateWTNPDF.js:132-158 | `drawField` draws its label lines, its value lines and a rule under them; the cursor moves by the field's advance and the rule sits 1.1 mm above the new cursor. |
| WtnPdf.FieldSpec | src/utils/generateWTNPDF.js:132-158 | A drawn field moves the cursor at least 4.7 mm and draws nothing below the new cursor. |
| WtnPdf.FitUnderestimatesAdvance | src/utils/generateWTNPDF.js:118-158 | In every layout, `fitHeight` for a one-line field is less than what `drawField` then uses (11.3 mm against 13.1 mm in the normal layout). |
| WtnPdf.ColumnGuard | src/utils/generateWTNPDF.js:215-239 | A column gives up exactly when some field's expected height does not fit below the section start; the column's own cursor plays no part in the guard. |
| WtnPdf.ColumnGeometry | src/utils/generateWTNPDF.js:215-239 | A column never moves its cursor up and draws nothing below its final cursor; a completed column ends exactly its total height lower. |
| WtnPdf.LayOutColumn | src/utils/generateWTNPDF.js:215-228 | The column loop, run on a growing document, produces `LayColumn`. |
| WtnPdf.HeaderFits | src/utils/generateWTNPDF.js:106-116 | A section header bar stays above the section's start cursor. |
| WtnPdf.Beside | src/utils/generateWTNPDF.js:202-239 | Two columns: if the left one overflows, the section stops there. Otherwise both are drawn, and the section ends at the lower of the two cursors. |
| WtnPdf.BesideGeometry | src/utils/generateWTNPDF.js:202-239 | Two settled columns under a header give a settled section. |
| WtnPdf.SectionGuard | src/utils/generateWTNPDF.js:202-296 | A section overflows exactly when some field of either column does not fit below the section start. |
| WtnPdf.SectionEnd | src/utils/generateWTNPDF.js:204-239 | Both columns start at the same cursor; a completed section ends at start plus the taller column's height. |
| WtnPdf.SectionGeometry | src/utils/generateWTNPDF.js:202-296 | Nothing of a section is drawn below its final cursor. |
| WtnPdf.LayOutSection | src/utils/generateWTNPDF.js:202-239 | The header and both column loops, run imperatively, produce `LaySection`. |
| WtnPdf.HeaderGeometry | src/utils/generateWTNPDF.js:160-200 | The brand header, with or without a logo, stays above the cursor it hands on. |
| WtnPdf.SignatureGeometry | src/utils/generateWTNPDF.js:298-347 | The signature block never moves the cursor up and draws nothing below it. |
| WtnPdf.CommentsText | src/utils/generateWTNPDF.js:352 | Blank comments show as `"-"`; other comments are shown trimmed. |
| WtnPdf.CommentLines | src/utils/generateWTNPDF.js:382-387 | The comment loop never draws more lines than it has. |
| WtnPdf.CommentLinesBelowLimit | src/utils/generateWTNPDF.js:382-387 | Because of the safety break, no comment line is drawn past the box limit, and the lines drawn are a prefix of the wrapped lines. |
| WtnPdf.CommentLinesAll | src/utils/generateWTNPDF.js:382-387 | When the last line fits, the break never fires and every line is drawn at its own slot. |
| WtnPdf.DrawCommentLines | src/utils/generateWTNPDF.js:382-387 | The loop with its `break` computes `CommentLines`. |
| WtnPdf.DrawCommentsBox | src/utils/generateWTNPDF.js:350-389 | The comments block, drawn step by step, equals `CommentsBlock`. |
| WtnPdf.CommentsGeometry | src/utils/generateWTNPDF.js:350-389 | The comments block never moves the cursor up and draws nothing below it. |
| WtnPdf.BoxHoldsLines | src/utils/generateWTNPDF.js:358-387 | The box height always leaves room for the last wrapped line above the break limit. |
| WtnPdf.CommentsAllDrawn | src/utils/generateWTNPDF.js:350-389 | A drawn comments box holds every wrapped line, so the safety break never fires. |
| WtnPdf.FinishSpec | src/utils/generateWTNPDF.js:397-408 | After a settled body, the terms step reports overflow exactly when the footer is missing. When it fits, the footer is last and the rest lies the terms height above the safe bottom. |
| WtnPdf.BodySpec | src/utils/generateWTNPDF.js:80-389 | Header, three sections, signatures and comments together stay above the final cursor and hold no footer. |
| WtnPdf.RenderSpec | src/utils/generateWTNPDF.js:80-409 | Every attempt, in every layout, places the terms footer as `FooterPlaced` states. |
| WtnPdf.RenderOnce | src/utils/generateWTNPDF.js:80-409 | `renderOnce`, moving one cursor down the page, produces `Render(v, ...)`. |
| WtnPdf.LayoutsSane | src/utils/generateWTNPDF.js:11-39 | The normal, compact and ultra-compact layouts all meet the geometric assumptions the layout lemmas need. |
| WtnPdf.ChooseLayout | src/utils/generateWTNPDF.js:412-423 | The loop keeps the first layout whose attempt does not overflow, and falls back to the last layout's document. The chosen attempt places the terms footer as `FooterPlaced` states. |
| WtnPdf.GenerateWtnPdf | src/utils/generateWTNPDF.js:74-430 | The saved document is the chosen layout's render of the note's view, with the footer placed as `FooterPlaced` states, saved under `FileName(wtn)`. |
| WtnPdf.DateOfService | src/utils/generateWTNPDF.js:63-67 | The note's date, else the job's date, else the archived date, else `"-"`; the result is always truthy. |
| WtnPdf.DisplaySic | src/utils/generateWTNPDF.js:69-72 | When the "Other" sentinel is chosen, the free-text SIC (or `''`); otherwise the code (or `''`). A note with textual SIC fields never shows the sentinel itself unless it was typed as the free text. |
| WtnPdf.TimeInOut | src/utils/generateWTNPDF.js:210-213 | `"-"` when both times are missing; otherwise the two shown times joined by an en dash, with `-` for a missing one. |
| WtnPdf.ReplaceRuns | src/utils/generateWTNPDF.js:425-428 | The regex replacement leaves only letters, digits, `_` and `-`, is no longer than its input, and is empty only for an empty input. |
| WtnPdf.ReplaceRunsKeeps | src/utils/generateWTNPDF.js:425-428 | A reference is left unchanged if and only if every character is allowed. |
| WtnPdf.ReplaceRunsIdempotent | src/utils/generateWTNPDF.js:425-428 | Sanitising twice gives the same as sanitising once. |
| WtnPdf.ReplaceRunsCollapses | src/utils/generateWTNPDF.js:425-428 | A whole run of disallowed characters becomes a single `_`. |
| WtnPdf.ReplaceRunsExample | src/utils/generateWTNPDF.js:425-428 | `"A  #1"` becomes `"A_1"`. |
| WtnPdf.FileNameOfCleanRef | src/utils/generateWTNPDF.js:425-430 | A clean customer reference gives `WTN_<ref>.pdf`. |
| WtnPdf.SafeRefFallback | src/utils/generateWTNPDF.js:425-428 | Without a reference, the name is `Job_` followed by the sanitised job id, or by `WTN` when there is no id. |
| WtnPdf.FileNameOfJobId | src/utils/generateWTNPDF.js:425-430 | Without a reference, a numeric job id gives `WTN_Job_<id>.pdf`. |
| WtnPdf.FileNameDefault | src/utils/generateWTNPDF.js:425-430 | With neither a reference nor a job id, the file is `WTN_Job_WTN.pdf`. |
| NewWtn.Kept | src/components/NewWTN.jsx:290-299 | `filter(Boolean)` keeps at most as many parts as it is given. |
| NewWtn.KeptSkipsFalsy | src/components/NewWTN.jsx:290-299 | A falsy address part is skipped wherever it stands. |
| NewWtn.KeptMembers | src/components/NewWTN.jsx:290-299 | A piece is kept exactly when it is a non-empty part. |
| NewWtn.KeptAllFilled | src/components/NewWTN.jsx:290-299 | Filled-in parts are all kept, in order. |
| NewWtn.FullAddressAllPresent | src/components/NewWTN.jsx:290-299 | Six filled-in parts give the six joined by `", "`. |
| NewWtn.FullAddressEmpty | src/components/NewWTN.jsx:290-299 | The address is empty exactly when no part is filled in. |
| NewWtn.Prefill | src/components/NewWTN.jsx:302-312 | The site address is the joined address and the client address is cleared. The date of service, customer reference, client name (`customer_name`), client telephone (`mobile_number`) and job description (`job_type`) come from the job, each falling back to `''`. The driver name is the looked-up name passed in, or `''`. |
| NewWtn.PrefillKeeps | src/components/NewWTN.jsx:302-312 | Prefilling leaves every other field as it was. |
| NewWtn.MissingText | src/components/NewWTN.jsx:366-370 | The missing-label list is never longer than the required list. |
| NewWtn.MissingTextMembers | src/components/NewWTN.jsx:350-370 | A label is listed exactly when one of its fields is absent or only white space. |
| NewWtn.MissingTextEmpty | src/components/NewWTN.jsx:350-370 | Nothing is listed exactly when every required field is filled in. |
| NewWtn.RequiredPresent | src/components/NewWTN.jsx:350-370 | A form that passes the check has an EWC and a vehicle registration. |
| NewWtn.CollectMissing | src/components/NewWTN.jsx:366-370 | The `forEach` loop computes `MissingText`. |
| NewWtn.MissingEmpty | src/components/NewWTN.jsx:366-390 | The alert is skipped exactly when every required field is filled in and each signature is either saved or drawn. |
| NewWtn.UseOther | src/components/NewWTN.jsx:395-410 | The placeholder is replaced by the trimmed free text when chosen and filled in, and the free-text key is removed; nothing else changes. |
| NewWtn.Prepared | src/components/NewWTN.jsx:392-410 | After both substitutions the two free-text keys are gone and the EWC and vehicle fields hold the chosen values. |
| NewWtn.Signed | src/components/NewWTN.jsx:432-450 | The submission stops exactly when a signature that is not yet saved (operative or customer) must be uploaded and its upload throws. Otherwise each signature is the saved URL or the upload's result, and nothing else changes. |
| NewWtn.Restored | src/components/NewWTN.jsx:457-467 | The SIC fields are reset to the form's values, the EWC free text is used again, and `ewc_other` is dropped. |
| NewWtn.Submit | src/components/NewWTN.jsx:346-479 | Refused exactly when some label is missing, and then with exactly that list. |
| NewWtn.ProceedStages | src/components/NewWTN.jsx:392-476 | A note that reaches the insert had a signed-in user and passed the EWC check; its payload is the prepared, signed, nulled and restored form. |
| NewWtn.NulledChoices | src/components/NewWTN.jsx:430-455 | The chosen values and the creator survive the uploads and the null loop. |
| NewWtn.RestoredChoices | src/components/NewWTN.jsx:457-467 | The final restorations keep the chosen values and set the SIC fields. |
| NewWtn.ProceedChoices | src/components/NewWTN.jsx:392-476 | An inserted note holds the chosen EWC, vehicle and SIC values and the user as creator. |
| NewWtn.NulledSigned | src/components/NewWTN.jsx:432-455 | Both signatures survive the null loop. |
| NewWtn.RestoredSigned | src/components/NewWTN.jsx:457-467 | The restorations leave the signatures alone. |
| NewWtn.ProceedSigned | src/components/NewWTN.jsx:373-476 | An inserted note carries both signatures. |
| NewWtn.ProceedKeeps | src/components/NewWTN.jsx:392-476 | Every field the submission does not manage is saved as the form had it, with `''` as `null`. |
| NewWtn.ProceedNoBlank | src/components/NewWTN.jsx:453-467 | No field of an inserted note except the two SIC fields holds `''`. |
| NewWtn.SubmitPayload | src/components/NewWTN.jsx:346-479 | A saved note passed the checks, had a user and a successful insert, and its payload has all of the properties above. |
| NewWtn.ReplacePlaceholders | src/components/NewWTN.jsx:392-410 | The imperative substitutions compute `Prepared`. |
| NewWtn.UploadSignatures | src/components/NewWTN.jsx:432-450 | The upload block computes `Signed`. |
| NewWtn.SaveChecked | src/components/NewWTN.jsx:392-478 | The save path after the checks computes `Proceed`. |
| NewWtn.HandleSubmit | src/components/NewWTN.jsx:346-479 | The whole handler computes `Submit`. |
| NewWtn.SicOptionValue | src/components/NewWTN.jsx:562-564 | An option carries `''` as its value exactly when it has no digit (a group heading); otherwise its own text. |
| NewWtn.SicChange | src/components/NewWTN.jsx:550-556 | The SIC select sets the code, sets `sic_other` to `''` for the "Other" option and to `null` otherwise, and changes nothing else. |
| EditWtn.EwcAcceptedIff | src/components/EditWTN.jsx:68-72 | The EWC check passes exactly for a string in the option list. |
| EditWtn.PiecesClean | src/components/EditWTN.jsx:99-104 | Each list piece is free of commas and of surrounding white space, and there is at least one piece. |
| EditWtn.PiecesRoundTrip | src/components/EditWTN.jsx:99-104 | A list without white space splits into pieces that join back into it. |
| EditWtn.SplitField | src/components/EditWTN.jsx:99-104 | A string field becomes the array of its trimmed pieces; a non-string field and all other fields are unchanged. |
| EditWtn.Update | src/components/EditWTN.jsx:64-132 | Stops on an invalid EWC, then on a missing id, each exactly when its condition holds. Otherwise the update selects the form's id and sends the normalised payload without `id`. |
| EditWtn.CreatorStepInert | src/components/EditWTN.jsx:106-108 | The `created_by` fallback never changes the payload. |
| EditWtn.UpdatePayload | src/components/EditWTN.jsx:94-108 | The payload has exactly the form's keys other than `id`. Each field other than the two list fields, the signature included, is the form's value with `''` as `null`. |
| EditWtn.UpdateLists | src/components/EditWTN.jsx:99-104 | The list fields are sent as arrays of trimmed pieces when they are non-empty strings. |
| EditWtn.HandleUpdate | src/components/EditWTN.jsx:64-132 | The handler, step by step, computes `Update`. |
| EditWtn.Sheet.constructor | src/components/EditWTN.jsx:148-159 | The sheet starts with the marks drawn so far and the cursor at the given top (36 mm after the header). |
| EditWtn.Sheet.Box | src/components/EditWTN.jsx:161-168 | `box` appends a 190 mm frame at the cursor and its text 4 mm lower, then moves the cursor 7 mm down. |
| EditWtn.BoxesGeometry | src/components/EditWTN.jsx:161-190 | Box `i` is drawn at `top + 7i`, and all boxes lie between `top` and `top + 7n - 1`. |
| EditWtn.DrawBoxes | src/components/EditWTN.jsx:171-190 | The box calls append `BoxMarks` and move the cursor `7n` mm down. |
| EditWtn.Clamp | src/components/EditWTN.jsx:195 | The cursor is capped at 250 mm and is otherwise left alone. |
| EditWtn.SignatureTop | src/components/EditWTN.jsx:159-195 | With the twenty boxes, the signature block starts at 191 mm, so the cap never fires. |
| EditWtn.BoxesAboveSignatures | src/components/EditWTN.jsx:159-201 | Every box lies above the signature block. |
| EditWtn.SignaturesHeight | src/components/EditWTN.jsx:197-211 | The signature marks lie within the signature height below their captions. |
| EditWtn.FileName | src/components/EditWTN.jsx:226 | The file name is `WTN_Job_`, then the job id as text, then `.pdf`. |
| EditWtn.DownloadPdf | src/components/EditWTN.jsx:134-227 | Nothing is saved until the logo loads. Then the whole document is saved under `FileName`. |
| Bookings.IndexWtns | src/pages/Bookings.jsx:60-69 | Every note's job is a key of the index, every key comes from a note, and a job's key holds the last note for that job. |
| Bookings.FindDriver | src/pages/Bookings.jsx:71-74 | No driver is found exactly when no id matches strictly; otherwise the first match is found. |
| Bookings.ByDriver | src/pages/Bookings.jsx:172-176 | The driver-name comparator is a total preorder. |
| Bookings.FilteredSpec | src/pages/Bookings.jsx:150-176 | The table lists the passing jobs, each as often as it occurs, sorted by driver name. |
| Bookings.FilteredMembers | src/pages/Bookings.jsx:150-176 | A job is listed exactly when it is a job and passes all five filters. |
| Bookings.DefaultFilters | src/pages/Bookings.jsx:150-171 | The default controls filter by the search term alone. |
| Bookings.PaidFilterStrict | src/pages/Bookings.jsx:156-159 | "Paid" matches only `true` and "Unpaid" only `false`, so a non-boolean `paid` matches neither. |
| Bookings.EmptySearch | src/pages/Bookings.jsx:151-155 | An empty search matches exactly the jobs that have at least one field. |
| Bookings.ArchivedCopy | src/pages/Bookings.jsx:122-128 | The archived row has no `id`, has `job_order` set to the job's value or `null`, and keeps the other fields. |
| Bookings.Remaining | src/pages/Bookings.jsx:132 | After the delete, each row without the archived id remains exactly as often as it occurred, and no other row remains. |
| Bookings.Page.constructor | src/pages/Bookings.jsx:14-27 | The page starts with the loaded tables and no modal, job or note selected. |
| Bookings.Page.HandleArchive | src/pages/Bookings.jsx:121-138 | A successful insert appends the copy to the archive. The job leaves the live table only when the unchecked delete also succeeds, so a failed delete leaves it both live and archived. A failed insert changes nothing. |
| Bookings.Page.HandleNewWtn | src/pages/Bookings.jsx:104-119 | Selects the job and opens the edit modal on the existing note, or the create modal when there is none. |
| DriverDashboard.ByRunOrder | src/pages/DriverDashboard.jsx:40 | The run-order comparator is a total preorder. |
| DriverDashboard.OrderedJobs | src/pages/DriverDashboard.jsx:40 | The jobs, a permutation of those fetched (none if the fetch failed), sorted by `job_order \|\| 999`. |
| DriverDashboard.CurrentMembers | src/pages/DriverDashboard.jsx:122-123 | The current list holds each unfinished job on the picked date as often as it occurs, and nothing else. |
| DriverDashboard.CurrentOrdered | src/pages/DriverDashboard.jsx:40-123 | Current jobs keep the run order. |
| DriverDashboard.Partition | src/pages/DriverDashboard.jsx:122-201 | With no date picked, every job is current or completed, and never both. |
| DriverDashboard.ToggleSpec | src/pages/DriverDashboard.jsx:71-73 | Toggling opens a job exactly when it was not the open one, and toggling a newly opened job again closes it. |
| DriverDashboard.BoolIcon | src/pages/DriverDashboard.jsx:75-79 | ✅ exactly for `true`, ❌ exactly for `false`, and a dash for anything else. |
| DriverDashboard.DetailValue | src/pages/DriverDashboard.jsx:141-153 | Booleans show as icons; a dash shows for `null`, `''` or a literal dash; any other value shows as `String(value)`. |
| DriverDashboard.KeyLabel | src/pages/DriverDashboard.jsx:141-153 | Each underscore becomes a space and every other character is kept in place. |
| DriverDashboard.DetailRows | src/pages/DriverDashboard.jsx:141-225 | There is one row per job key that the panel does not hide, with its label and value text. |
| DriverDashboard.ActionsFor | src/pages/DriverDashboard.jsx:156-180 | The buttons show either "New WTN" or "Mark Complete", never both; "Mark as Paid" shows only for unpaid jobs. |
| Todo.WithCommentList | src/pages/Todo.jsx:52-55 | A task's comments become an array (kept if already one, else `[]`); the other fields are unchanged. |
| Todo.LoadTasks | src/pages/Todo.jsx:45-56 | The loaded tasks map one to one, each with an array of comments; a failed fetch gives none. |
| Todo.LoadedHaveComments | src/pages/Todo.jsx:45-56 | Every loaded task carries an array of comments. |
| Todo.NewTask | src/pages/Todo.jsx:63-95 | The inserted row has the user as creator, a trimmed `for` name or `null`, a due date or `null`, a trimmed description, and is not complete; it holds exactly these seven columns. |
| Todo.CreatorNamed | src/pages/Todo.jsx:74 | The creator name is never empty: it falls back to the email, then to "User". A typed name is used without surrounding white space. |
| Todo.ToggleUpdate | src/pages/Todo.jsx:97-101 | The update sends only `is_complete`, the negation of the task's flag. |
| Todo.ToggleTwice | src/pages/Todo.jsx:97-101 | Toggling a task twice gives back its original completion state, as a boolean. |
| Todo.NewComment | src/pages/Todo.jsx:282-286 | The comment has `by`, `text` and `at`: the text and time as given, and as author the draft's trimmed `by`, or `null` when that is empty. |
| Todo.WithComments | src/pages/Todo.jsx:296-298 | Only the tasks whose id matches get the new comment list; the others are unchanged. |
| Todo.CommentAppended | src/pages/Todo.jsx:279-299 | The new comment is appended after the task's existing comments. |
| Todo.TodoPage.constructor | src/pages/Todo.jsx:10-56 | The page starts with the loaded tasks, an empty form and no drafts. |
| Todo.TodoPage.AddTask | src/pages/Todo.jsx:63-95 | Refused for a blank description, then for a missing user. Otherwise it inserts `NewTask`; on success it clears the form except the creator and hides it, and on failure nothing changes. |
| Todo.TodoPage.AddComment | src/pages/Todo.jsx:279-299 | A blank draft is ignored. Otherwise the task's comments plus the new comment are sent, and on success the task list and the draft are updated. |
| AdminDashboard.FetchBlocks | src/pages/AdminDashboard.jsx:78-110 | Today's list holds every job of the table on the date, as often as it occurs. The unpaid (`paid` is `false`) and needs-invoicing (`invoice_required` true, `invoice_sent` false) lists hold at most 20 matching jobs from the table, and every matching job while fewer than 20 match. |
| AdminDashboard.KpiCounts | src/pages/AdminDashboard.jsx:25-29 | Today's tile counts the jobs on the date. The unpaid and needs-invoicing tiles count the matching jobs but stop at 20, because they count the capped lists. |
| AdminDashboard.DriverName | src/pages/AdminDashboard.jsx:32 | The first matching driver's truthy name, else `—`; the result is never falsy. |
| AdminDashboard.DrawerCopy | src/pages/AdminDashboard.jsx:39-48 | The drawer copy holds the job plus boolean copies of its three flags. |
| AdminDashboard.SavePayload | src/pages/AdminDashboard.jsx:50-59 | The update holds exactly the three flags, taken as booleans from the drawer copies. |
| AdminDashboard.SaveUnedited | src/pages/AdminDashboard.jsx:39-59 | Saving an unedited drawer writes back the job's own flags as booleans. |
| AdminDashboard.Drawer.constructor | src/pages/AdminDashboard.jsx:15-16 | The drawer starts closed and empty. |
| AdminDashboard.Drawer.Open | src/pages/AdminDashboard.jsx:39-48 | Opens the drawer on `DrawerCopy(job)`. |
| AdminDashboard.Drawer.Choose | src/pages/AdminDashboard.jsx:272-273 | A Yes/No select sets the flag copy to `value === 'Yes'`. |
| AdminDashboard.Drawer.Save | src/pages/AdminDashboard.jsx:50-59 | Does nothing without a drawer job. Otherwise it sends `SavePayload` for the job's id, then closes and empties the drawer whatever the outcome. |
| AdminDashboard.BoolChip | src/pages/AdminDashboard.jsx:363-367 | "Yes" exactly for `true`, "No" exactly for `false`, and a dash for anything else. |
| Js.NumberOfIntToString | src/components/EditModal.jsx:15 | `Number` of an integer written in decimal gives back that integer. |
| Js.TrimSpec | src/components/NewWTN.jsx:366-370 | A trimmed string has no white space at either end, and is empty exactly when the input is all white space. |
| Sorting.SortBy | src/pages/Bookings.jsx:172-176 | `sort` with a total-preorder comparator returns a sorted permutation of its input. |
| Sorting.KeepCount | src/pages/Bookings.jsx:150-171 | `filter` keeps each passing element as often as it occurs and drops the rest. |
| Sorting.LexPreorder | src/pages/Bookings.jsx:172-176 | The string order used in place of `localeCompare` is a total preorder. |

## Left out

- Supabase queries, authentication, storage uploads, `alert`, navigation and
  React rendering are not modelled. A query's result, an upload's outcome and
  the signed-in user are parameters of the operations that use them.
- `async` ordering and concurrent handlers: each handler runs to completion
  on the state it starts from.
- Image loading (`loadDataUrl`, the logo's `onload`) is a parameter: an
  `Option` data URL. The logo's natural-size auto height is not modelled.
- jsPDF is modelled as the list of drawing operations it is asked to perform.
  Fonts, colours and line widths are left out. `splitTextToSize` is a
  parameter, because its wrapping depends on font metrics.
- The terms text of the PDF footer is carried in the view as a given string.
- The EditWTN footer text and its `maxWidth` wrapping are drawn as one mark.
- `localeCompare` is modelled as code-point order; `toLowerCase` only maps
  ASCII letters.
- Numbers are integers: decimals, floating point and `Infinity` are left out.
- `Js.NumberOf`: only optional-sign decimal integers (and blank strings) are
  read as numbers; decimals, exponents, hexadecimal and `Infinity` give `NaN`.
- `.trim()` called on a non-string value would throw in the source; the model
  trims `String(v)` instead.
- `EditModal.DateShown`: a stored non-string date would make `split` throw in
  the source; the model shows `''`.
- The file-name regex follows the code: each run of disallowed characters
  becomes one `_`.
- NewWTN's generic `handleChange` is `Payload.ApplyChange` and is not modelled
  again.
- When a later signature upload fails after an earlier one succeeded, the
  earlier uploaded file is not tracked.
- After a task is added, the to-do page reloads its tasks; the model leaves
  the list unchanged and does not model the reload.
- After archiving, the bookings page refetches both tables. The model
  computes them from the insert and the delete outcomes, with SQL `eq` treated as value
  equality.
- Bookings.DriverKey: the source calls `toLowerCase()` on the matched
  driver's `name` as it is. A matched driver whose name is `null`, missing
  or not a string makes both table sorts throw. The model sorts such a job
  under `String(name)` (`"null"`, `"undefined"`) instead.
- Sorting.SortBy: states only that the result is a sorted permutation. It
  does not state that jobs with equal keys keep their input order, as
  JavaScript's stable `sort` does.
- AdminDashboard.FetchBlocks: the `order` clauses of the three queries are
  not modelled, so the model does not state which 20 jobs a capped list
  holds. A failed query, which gives an empty list, is not modelled either.
- EditWtn.Update: the signature-pad block at EditWTN.jsx:74-92 is not
  modelled, because it never runs. `sigCanvas` (line 48) is never attached to
  a pad in the form, so `sigCanvas.current` is always undefined and the
  signature is sent as the form holds it. Were the block reached, line 90
  would read `publicUrl` from the top level of `getPublicUrl`'s result rather
  than from its `data`, and would store `undefined`.
- `Object.entries` order is not modelled: detail rows are a map keyed by field.
- DriverDashboard treats a non-numeric `job_order` as 999, since the column
  is an integer.
- The drivers lists fetched by NewBooking and QuickBookModal are not modelled.
  Neither are the `onSave`/`onClose` callbacks of the modals.
- PortalooManager, BookingsModals, Login, ProtectedRoute, main, SignaturePad,
  Layout and Header are not part of this model.
