# Rural telehealth consultations: a Dafny model

This project models the core of a rural telehealth portal. Health workers
request consultations with doctors. Doctors are notified by a backend function
that prepares a video room. The consultation dashboard moves each consultation
through its lifecycle (pending or scheduled, live, completed, or cancelled).
Doctors write digital prescriptions, and pharmacy staff mark them as dispensed.
A medicine inventory view classifies stock and expiry, and the call screen
formats the call timer.

Modules, by source file:

- `ConsultationDashboard` (`consultation_dashboard.dfy`): the status filter,
  the counters, the buttons each status offers, and the writes those buttons
  make. The dashboard is a class over an abstract store.
- `ConsultationRequest`: the request form's state and its dotted-path input
  handler, the insert payload, the emergency/routine doctor split, submit
  gating, and the submit sequence (insert, notify, reset).
- `PrescriptionForm`: the editable medication list, the validity filter, the
  two rejections, and the two non-atomic writes.
- `DigitalPrescription`: loading one prescription, the badge and button
  gating, and `markAsDispensed`.
- `NotifyDoctor`: the `notify-doctor` edge function. It looks up the doctor,
  stores the room and link, composes the message, logs the notification and
  answers.
- `MedicineInventory`: stock and expiry classification, search and category
  filtering, the category list, and the alert counters.
- `VideoCall`: `formatDuration` and the connection badge table.

Supporting modules:

- `Database`: the backend tables as sequences of rows, with insert,
  update-by-id, ordered select and `.single()`. Every write can fail through a
  boolean argument, and an insert whose id is taken fails.
- `Records`: the rows and insert payloads.
- `VideoRoom`: how the room name and the meeting link are derived.
- `Query`: filter, stable ordering, and their laws.
- `Text`: the JavaScript string built-ins the core relies on: `trim`,
  `toLowerCase`, `includes`, `parseInt`, `String(n)` and `padStart`.
- `Wrappers`: `Option`.

Clock readings, generated ids, write failures and browser conversions
(`toISOString`, `toLocaleString`, day counts until expiry) are inputs to the
operations.

Status writes are modelled as the code performs them: unconditional updates
keyed by id. There is no guard on the current status. The prescription insert
and its back-reference update are two separate writes. The second write's
error is ignored.

## Model

| member | source | states |
|---|---|---|
| VideoRoom.LinkRoundTrip | src/components/ConsultationDashboard.tsx:105-106 | the consultation id can be read back from the meeting link derived from it |
| VideoRoom.DistinctConsultationsDistinctRooms | src/components/ConsultationDashboard.tsx:105-106 | two different consultations never share a room name or a link |
| VideoRoom.RoomId | src/components/ConsultationDashboard.tsx:105 | the room name built from the consultation id alone; distinct ids give distinct names (DistinctConsultationsDistinctRooms) |
| VideoRoom.CallLink | src/components/ConsultationDashboard.tsx:106 | the meeting link built from the room name; the id is recovered from it (LinkRoundTrip) |
| Database.Patched | src/components/ConsultationDashboard.tsx:110-114 | an update writes each column it names and keeps every other column of the row |
| Database.PatchIdempotent | src/components/ConsultationDashboard.tsx:108-115 | applying the same update twice gives the row the first application gave |
| Database.UpdateWhereId | src/components/ConsultationDashboard.tsx:81-84 | `update ... eq('id', x)` patches exactly the rows with id x; the table keeps its length and the other rows |
| Database.UpdateIdempotent | src/components/ConsultationDashboard.tsx:108-115 | repeating an update by id leaves the table as the first update left it |
| Database.NewestFirst | src/components/ConsultationDashboard.tsx:55-58 | the fetched list is a permutation of the table with `created_at` non-increasing |
| Database.Dispensed | src/components/DigitalPrescription.tsx:97-103 | dispensing sets the flag, the time and the dispenser, and leaves every other column as it was |
| Database.DispenseWhereId | src/components/DigitalPrescription.tsx:97-104 | only the prescription rows whose id matches are dispensed; the rest are untouched |
| Database.Single | supabase/functions/notify-doctor/index.ts:30-34 | `.single()` yields a row exactly when one row matches |
| Database.Database.AvailableDoctors | src/components/ConsultationRequest.tsx:51-55 | each available doctor is listed as many times as stored and no other doctor is; the list is in ascending response time |
| Database.Database.InsertConsultation | src/components/ConsultationRequest.tsx:111-116 | the insert appends the new row, with null room, link and prescription, exactly when the write succeeds and the id is new; otherwise the table is unchanged; ids stay unique |
| Database.Database.UpdateConsultation | src/components/ConsultationDashboard.tsx:81-84 | on success the table becomes the update by id of the old table; on failure it is unchanged |
| Database.Database.InsertPrescription | src/components/PrescriptionForm.tsx:111-116 | a successful insert appends an undispensed row with the payload; otherwise the table is unchanged |
| Database.Database.DispensePrescription | src/components/DigitalPrescription.tsx:97-106 | on success the table becomes the dispensing update by id of the old table |
| Database.Database.InsertStatusLog | supabase/functions/notify-doctor/index.ts:121-133 | a successful insert appends the entry to the log; a failure leaves the log unchanged |
| ConsultationDashboard.FilteredConsultations | src/components/ConsultationDashboard.tsx:163-165 | 'all' shows the whole list; a status shows exactly the rows with that status, each as often as in the list, in list order |
| ConsultationDashboard.ComputeStats | src/components/ConsultationDashboard.tsx:167-173 | the five counters over the unfiltered list; they add up with the cancelled rows (StatsAddUp) and each equals its filtered view (CounterMatchesFilteredView) |
| ConsultationDashboard.StatsAddUp | src/components/ConsultationDashboard.tsx:167-173 | every row is counted under exactly one status: the four counters plus the cancelled rows equal the total |
| ConsultationDashboard.CounterMatchesFilteredView | src/components/ConsultationDashboard.tsx:163-173 | a status counter equals the length of the list shown when that status is selected |
| ConsultationDashboard.OfferedTransitions | src/components/ConsultationDashboard.tsx:355-444 | pending and scheduled can move only to live or cancelled, live only to completed, completed and cancelled nowhere |
| ConsultationDashboard.OfferedActions | src/components/ConsultationDashboard.tsx:355-444 | the buttons each status renders; the statuses they lead to are those of OfferedTransitions, and the prescription buttons those of PrescriptionButtons |
| ConsultationDashboard.PrescriptionButtons | src/components/ConsultationDashboard.tsx:412-439 | "Create Prescription" shows exactly for completed rows without a prescription id, "View Prescription" exactly for those with one; never both |
| ConsultationDashboard.StatusUpdateTouchesOnlyStatus | src/components/ConsultationDashboard.tsx:79-84 | a status update changes only the status of the matching rows |
| ConsultationDashboard.StartCallIdempotent | src/components/ConsultationDashboard.tsx:102-115 | starting a call puts the row live with the room and link derived from its id; starting it again writes the same values |
| ConsultationDashboard.ActionPatchWritesTargetStatus | src/components/ConsultationDashboard.tsx:355-444 | a button writes exactly when it has a target status and writes that status; only start and join write a link |
| ConsultationDashboard.ActionPatch | src/components/ConsultationDashboard.tsx:355-407 | the update each button sends, if any; ActionPatchWritesTargetStatus ties it to the button's target status |
| ConsultationDashboard.LinkOpened | src/components/ConsultationDashboard.tsx:102-121 | the link a button opens: the derived link after a successful start or join, the stored link (or empty) on rejoin; ActionPatchWritesTargetStatus states that only live-going buttons and rejoin open one |
| ConsultationDashboard.Dashboard.constructor | src/components/ConsultationDashboard.tsx:34-38 | the dashboard starts loading, with an empty list, filter 'all' and nothing open |
| ConsultationDashboard.Dashboard.SetFilter | src/components/ConsultationDashboard.tsx:231-233 | clicking a card selects its filter |
| ConsultationDashboard.Dashboard.FetchConsultations | src/components/ConsultationDashboard.tsx:53-72 | on success the list is the table newest first; on error it is kept; loading ends either way |
| ConsultationDashboard.Dashboard.HandleRealtimeUpdate | src/components/ConsultationDashboard.tsx:74-77 | any change notification re-fetches the whole list |
| ConsultationDashboard.Dashboard.UpdateConsultationStatus | src/components/ConsultationDashboard.tsx:79-100 | the status write is unconditional; on failure the store is unchanged |
| ConsultationDashboard.Dashboard.StartVideoCall | src/components/ConsultationDashboard.tsx:102-134 | the row goes live with the derived room and link, and the link is opened only if the write succeeded |
| ConsultationDashboard.Dashboard.PerformAction | src/components/ConsultationDashboard.tsx:355-444 | each button makes its write, opens its link, or opens the prescription form or view, and changes nothing else |
| ConsultationDashboard.Dashboard.OnPrescriptionCreated | src/components/ConsultationDashboard.tsx:184-188 | a created prescription closes the form, opens that prescription and re-fetches the list |
| NotifyDoctor.UrgencyText | supabase/functions/notify-doctor/index.ts:58-59 | the EMERGENCY headline exactly for emergency requests, SCHEDULED otherwise |
| NotifyDoctor.TimeText | supabase/functions/notify-doctor/index.ts:60 | "ASAP" exactly when no scheduled time (absent or empty) was sent |
| NotifyDoctor.Message | supabase/functions/notify-doctor/index.ts:62-72 | the SMS and WhatsApp text; it carries the patient's name, the time text and the link (MessageCarriesDetails) |
| NotifyDoctor.MessageCarriesDetails | supabase/functions/notify-doctor/index.ts:62-72 | the message contains the patient's name, the time text and the call link |
| NotifyDoctor.LookupDoctor | supabase/functions/notify-doctor/index.ts:30-38 | a found doctor is a stored doctor with the requested id |
| NotifyDoctor.ResponseFor | supabase/functions/notify-doctor/index.ts:36-151 | the handler's answer: 500 "Doctor not found" when the lookup fails (MissingDoctorAborts), otherwise 200 with the derived room and link (FoundDoctorSucceeds) |
| NotifyDoctor.ConsultationsAfter | supabase/functions/notify-doctor/index.ts:44-55 | the consultations after the handler: untouched without a doctor or on a failed update, otherwise the room and link written by id; the status is kept (FoundDoctorSucceeds) |
| NotifyDoctor.LogsAfter | supabase/functions/notify-doctor/index.ts:120-133 | the log after the handler: one "notification_sent" row by "system" is appended when a doctor was found and the insert succeeded, nothing otherwise (FoundDoctorSucceeds, MissingDoctorAborts) |
| NotifyDoctor.LogEntry | supabase/functions/notify-doctor/index.ts:121-129 | the audit row: this consultation, no old status, status "notification_sent", written by "system" (FoundDoctorSucceeds) |
| NotifyDoctor.MissingDoctorAborts | supabase/functions/notify-doctor/index.ts:30-38 | a failed or empty lookup answers 500 "Doctor not found" and writes nothing |
| NotifyDoctor.FoundDoctorSucceeds | supabase/functions/notify-doctor/index.ts:41-140 | a found doctor yields a 200 success whatever the writes do; the answer's room and link are the ones written; at most one "notification_sent" log row by "system" is added |
| NotifyDoctor.WritersAgreeOnRoom | supabase/functions/notify-doctor/index.ts:41-51 | the dashboard and this function store the same room and link, in either order |
| NotifyDoctor.Handle | supabase/functions/notify-doctor/index.ts:24-152 | the handler's answer, consultations and log are those of the lookup-update-log sequence, and a failed update or log insert does not abort it |
| ConsultationRequest.WithInput | src/components/ConsultationRequest.tsx:69-87 | a plain name sets that field only; a dotted path outside `patient_vitals` changes nothing |
| ConsultationRequest.VitalInput | src/components/ConsultationRequest.tsx:70-78 | "patient_vitals.k" sets vital k and changes nothing else |
| ConsultationRequest.FindDoctor | src/components/ConsultationRequest.tsx:94 | the first listed doctor with the chosen id, or none when no listed doctor has it |
| ConsultationRequest.InitialStatus | src/components/ConsultationRequest.tsx:108 | pending exactly for emergency requests, scheduled otherwise |
| ConsultationRequest.AgeValueOfNumber | src/components/ConsultationRequest.tsx:98 | an age typed as a number is stored as that number; an empty age is stored as null |
| ConsultationRequest.AgeValue | src/components/ConsultationRequest.tsx:98 | the age column: null for an empty input or a NaN parse, the parsed number otherwise (BuildRequest, AgeValueOfNumber) |
| ConsultationRequest.BuildRequest | src/components/ConsultationRequest.tsx:96-109 | the age is null exactly when empty or not a number; the time is null exactly when empty; the status follows the type; the vitals are sent as entered |
| ConsultationRequest.RequestNamesSelectedDoctor | src/components/ConsultationRequest.tsx:94-106 | the doctor's name and specialization are those of the listed doctor with the chosen id, and null when none has it |
| ConsultationRequest.NotificationTimeAgreesWithRow | src/components/ConsultationRequest.tsx:103-131 | the notification says "ASAP" exactly when the stored row has no scheduled time |
| ConsultationRequest.NotificationFor | src/components/ConsultationRequest.tsx:118-128 | the body sent to the notify-doctor function; its time reads "ASAP" exactly when the row stores no time (NotificationTimeAgreesWithRow) |
| ConsultationRequest.DoctorSplitPartitions | src/components/ConsultationRequest.tsx:169-170 | the emergency and routine lists are disjoint, cover every doctor, and keep list order |
| ConsultationRequest.EmergencyDoctors | src/components/ConsultationRequest.tsx:169 | the emergency doctors in list order; with RoutineDoctors they partition the list (DoctorSplitPartitions) |
| ConsultationRequest.RoutineDoctors | src/components/ConsultationRequest.tsx:170 | the other doctors in list order; with EmergencyDoctors they partition the list (DoctorSplitPartitions) |
| ConsultationRequest.SubmitEnabledIffPayloadComplete | src/components/ConsultationRequest.tsx:376 | with no submit in flight, the button is enabled exactly when the payload names a patient, symptoms and a doctor; it is disabled while a submit is in flight |
| ConsultationRequest.SubmitEnabled | src/components/ConsultationRequest.tsx:376 | the negation of the button's `disabled`; SubmitEnabledIffPayloadComplete relates it to the payload |
| ConsultationRequest.RequestForm.constructor | src/components/ConsultationRequest.tsx:26-43 | the form starts empty, with type "routine" and staff "Health Worker" |
| ConsultationRequest.RequestForm.FetchDoctors | src/components/ConsultationRequest.tsx:49-67 | on success the list is the available doctors, fastest first; on error it is kept |
| ConsultationRequest.RequestForm.HandleInputChange | src/components/ConsultationRequest.tsx:69-87 | the form state becomes the input-change result |
| ConsultationRequest.RequestForm.HandleSubmit | src/components/ConsultationRequest.tsx:89-166 | the row is inserted exactly when the time converts, the write succeeds and the id is new; the notification runs after it and its failure is ignored; the form resets exactly on success |
| PrescriptionForm.WithField | src/components/PrescriptionForm.tsx:64-66 | one key of the entry is set; the other four are kept |
| PrescriptionForm.EmptyMedication | src/components/PrescriptionForm.tsx:54 | a new entry has all five fields empty |
| PrescriptionForm.Appended | src/components/PrescriptionForm.tsx:53-55 | adding grows the list by one blank entry and keeps the earlier entries |
| PrescriptionForm.RemovedAt | src/components/PrescriptionForm.tsx:57-61 | with more than one entry, entry i is removed and the rest keep their order; otherwise nothing changes, so the list is never emptied |
| PrescriptionForm.UpdatedAt | src/components/PrescriptionForm.tsx:63-68 | only field f of entry i changes; the length is kept |
| PrescriptionForm.CompleteIffNotBlank | src/components/PrescriptionForm.tsx:76-78 | an entry counts exactly when none of name, dosage and frequency is blank |
| PrescriptionForm.IsComplete | src/components/PrescriptionForm.tsx:77 | the filter condition: name, dosage and frequency all non-empty after trimming, i.e. none blank (CompleteIffNotBlank) |
| PrescriptionForm.ValidMedications | src/components/PrescriptionForm.tsx:76-78 | the submitted medications: exactly the complete entries with their multiplicities, in order (ValidMedicationsExact) |
| PrescriptionForm.ValidMedicationsExact | src/components/PrescriptionForm.tsx:76-78 | the valid medications are exactly the complete entries, each as many times as it was entered, in their order |
| PrescriptionForm.AllCompleteSubmittedWhole | src/components/PrescriptionForm.tsx:76-78 | a list of complete entries is submitted as it is |
| PrescriptionForm.AppendedBlankIsIgnored | src/components/PrescriptionForm.tsx:53-78 | an added blank entry never changes what is submitted |
| PrescriptionForm.Validate | src/components/PrescriptionForm.tsx:80-96 | no valid medication rejects first; then a blank diagnosis rejects; otherwise the submit proceeds |
| PrescriptionForm.BuildPrescription | src/components/PrescriptionForm.tsx:98-109 | the insert carries only the valid medications, and a null follow-up date when none was entered |
| PrescriptionForm.BackReferenceSwitchesButton | src/components/PrescriptionForm.tsx:118-122 | once the back-reference is stored the row offers only "View Prescription"; without it, "Create Prescription" is still offered |
| PrescriptionForm.WritePrescription | src/components/PrescriptionForm.tsx:111-122 | the back-reference is written only after a successful insert, and its failure does not undo the insert |
| PrescriptionForm.PrescriptionEditor.constructor | src/components/PrescriptionForm.tsx:41-51 | the form starts with one blank entry and the fixed license number |
| PrescriptionForm.PrescriptionEditor.AddMedication | src/components/PrescriptionForm.tsx:53-55 | the list becomes the appended list; it stays non-empty |
| PrescriptionForm.PrescriptionEditor.RemoveMedication | src/components/PrescriptionForm.tsx:57-61 | the list becomes the removal result; it stays non-empty |
| PrescriptionForm.PrescriptionEditor.UpdateMedication | src/components/PrescriptionForm.tsx:63-68 | the list becomes the field-update result |
| PrescriptionForm.PrescriptionEditor.SetDiagnosis | src/components/PrescriptionForm.tsx:181 | only the diagnosis changes |
| PrescriptionForm.PrescriptionEditor.SetInstructions | src/components/PrescriptionForm.tsx:294 | only the instructions change |
| PrescriptionForm.PrescriptionEditor.SetFollowUpDate | src/components/PrescriptionForm.tsx:305 | only the follow-up date changes |
| PrescriptionForm.PrescriptionEditor.HandleSubmit | src/components/PrescriptionForm.tsx:71-141 | a rejection writes nothing; otherwise the id is reported exactly when the insert succeeded, with the back-reference written unless that write failed |
| DigitalPrescription.BadgeAndButton | src/components/DigitalPrescription.tsx:161-181 | the badge reads Dispensed exactly when the flag is set; the button shows exactly while it reads Pending |
| DigitalPrescription.BadgeFor | src/components/DigitalPrescription.tsx:161-165 | Dispensed or Pending, by the flag (BadgeAndButton) |
| DigitalPrescription.MarkButtonShown | src/components/DigitalPrescription.tsx:177-181 | the "Mark as Dispensed" button shows exactly while the badge reads Pending (BadgeAndButton) |
| DigitalPrescription.SelectAfterDispense | src/components/DigitalPrescription.tsx:97-104 | selecting by id after dispensing finds the same rows as before, dispensed |
| DigitalPrescription.ReloadAfterDispense | src/components/DigitalPrescription.tsx:97-104 | reloading after dispensing shows the prescription dispensed by "Pharmacy Staff", without the button; other rows are untouched |
| DigitalPrescription.PrescriptionViewer.constructor | src/components/DigitalPrescription.tsx:32-35 | the viewer starts loading, with no prescription |
| DigitalPrescription.PrescriptionViewer.FetchPrescription | src/components/DigitalPrescription.tsx:40-60 | the copy becomes the single row with the id; no row, several rows or an error keep it |
| DigitalPrescription.PrescriptionViewer.MarkAsDispensed | src/components/DigitalPrescription.tsx:95-121 | the store row gets flag, time and "Pharmacy Staff"; on success the local copy changes only its flag; on error nothing changes |
| MedicineInventory.StockStatusOf | src/components/MedicineInventory.tsx:76-80 | out exactly at zero stock (checked first), low at or below the minimum, good above it |
| MedicineInventory.ExpiryStatusOf | src/components/MedicineInventory.tsx:87-89 | expired below zero days, expiring from 0 to 30 days, good after that |
| MedicineInventory.LabelsAndColorsDistinct | src/components/MedicineInventory.tsx:76-89 | each classification has distinct labels and colours, with the same colour at the same severity |
| MedicineInventory.StockLabel | src/components/MedicineInventory.tsx:76-80 | the stock badge text; distinct per status (LabelsAndColorsDistinct) |
| MedicineInventory.StatusColor | src/components/MedicineInventory.tsx:76-80 | the stock badge variant; distinct per status (LabelsAndColorsDistinct) |
| MedicineInventory.ExpiryLabel | src/components/MedicineInventory.tsx:87-89 | the expiry badge text; distinct per status (LabelsAndColorsDistinct) |
| MedicineInventory.ExpiryColor | src/components/MedicineInventory.tsx:87-89 | the expiry badge variant; distinct per status, shared with the stock badge at the same severity (LabelsAndColorsDistinct) |
| MedicineInventory.FilteredMedicinesExact | src/components/MedicineInventory.tsx:92-96 | an item is shown exactly when its lower-cased name contains the lower-cased search and its category is selected or "all" is; an empty search with "all" shows everything |
| MedicineInventory.FilteredMedicines | src/components/MedicineInventory.tsx:92-96 | the shown medicines; FilteredMedicinesExact characterises them |
| MedicineInventory.Distinct | src/components/MedicineInventory.tsx:98 | the deduplicated list has no repeats, has the same members as the input, and is a subsequence of it |
| MedicineInventory.DistinctFirstOccurrenceOrder | src/components/MedicineInventory.tsx:98 | the values are listed in the order of their first occurrences, as a `Set` iterates them |
| MedicineInventory.CategoriesExact | src/components/MedicineInventory.tsx:98 | the category list names every category that occurs, once, and nothing else |
| MedicineInventory.Categories | src/components/MedicineInventory.tsx:98 | the category options: each occurring category once (CategoriesExact), in first-occurrence order (DistinctFirstOccurrenceOrder) |
| MedicineInventory.LowStockCountMatchesBadges | src/components/MedicineInventory.tsx:99 | when no minimum is negative, the low-stock counter counts exactly the items whose badge is not good |
| MedicineInventory.LowStockCount | src/components/MedicineInventory.tsx:99 | the low-stock alert count; with non-negative minimums it counts the non-good stock badges (LowStockCountMatchesBadges) |
| MedicineInventory.ExpiringCountMatchesBadges | src/components/MedicineInventory.tsx:100-103 | the expiry counter counts exactly the items whose badge reads expiring |
| MedicineInventory.ExpiringCount | src/components/MedicineInventory.tsx:100-103 | the expiry alert count; it counts the "expiring" badges (ExpiringCountMatchesBadges) |
| VideoCall.JsRem | src/components/VideoCall.tsx:132 | JavaScript's remainder: the usual one for non-negative counts, and in (-60, 0] for negative ones |
| VideoCall.TwoDigitSeconds | src/components/VideoCall.tsx:133 | a seconds value below 60, padded, is exactly two digits denoting it |
| VideoCall.FormatDurationRoundTrip | src/components/VideoCall.tsx:130-134 | for a non-negative count: minutes, a colon and two digits below 60; reading it back gives the count |
| VideoCall.FormatDuration | src/components/VideoCall.tsx:130-134 | the timer text with floor division and JavaScript's remainder; for non-negative counts it reads back to the count (FormatDurationRoundTrip) |
| VideoCall.BadgeIdentifiesQuality | src/components/VideoCall.tsx:136-145 | good, fair and poor have pairwise distinct labels and variants |
| VideoCall.BadgeVariant | src/components/VideoCall.tsx:136-145 | the badge variant per quality; injective (BadgeIdentifiesQuality) |
| VideoCall.BadgeLabel | src/components/VideoCall.tsx:136-145 | the badge label per quality; injective (BadgeIdentifiesQuality) |
| Text.TrimEmptyIffBlank | src/components/PrescriptionForm.tsx:77 | a trimmed string is empty exactly when the string is all white space |
| Text.Trim | src/components/PrescriptionForm.tsx:77 | `trim`: empty exactly for all-white-space input (TrimEmptyIffBlank) |
| Text.ContainsIff | src/components/MedicineInventory.tsx:93 | `includes` holds exactly when the needle occurs at some position |
| Text.Contains | src/components/MedicineInventory.tsx:93 | `includes`; it holds exactly when the needle occurs at some position (ContainsIff) |
| Text.ToLower | src/components/MedicineInventory.tsx:93 | `toLowerCase`: the same length, each ASCII letter lowered, other characters kept |
| Text.ParseIntRoundTrip | src/components/ConsultationRequest.tsx:98 | `parseInt` reads back the decimal text of every integer |
| Text.ParseInt | src/components/ConsultationRequest.tsx:98 | `parseInt` in base ten: leading white space, a sign and the longest digit run; NaN (none) without a digit; it reads back every integer's decimal text (ParseIntRoundTrip) |
| Text.PadStart | src/components/VideoCall.tsx:133 | a short string is padded on the left with the fill character up to the width and ends with the original; a long one is kept |
| Query.OrderBy | src/components/ConsultationDashboard.tsx:58 | ordering yields a permutation sorted by the key |
| Query.Filter | src/components/ConsultationDashboard.tsx:163-165 | `filter`: only elements satisfying the predicate, never more than the input holds |
| Query.FilterCount | src/components/PrescriptionForm.tsx:76-78 | `filter` keeps each satisfying value exactly as often as it occurs and drops every other value |

## Left out

- Rendering, styling, icons and toasts are UI only. Loading skeletons are left out too, apart from the `isLoading` flags.
- The realtime channel's subscribe and unsubscribe plumbing is left out. A change notification is modelled only as the re-fetch it triggers.
- `window.open` is not modelled as a browser action. It is the returned link.
- The call screen's timers, media devices, mute and camera toggles and simulated quality changes depend on the browser and on timing. Only `formatDuration` and the badge table are modelled.
- Dates come in as inputs: the day counts until expiry, the `toISOString` conversion of the scheduled time (`None` when it throws), and the `toLocaleString` text.
- The float `price` of a medicine is not modelled.
- In the notify-doctor function, the email HTML template and the SMS, WhatsApp and email sends are only console output. The model builds and checks the SMS text but emits nothing.
- The function's CORS preflight and `req.json()` decoding are HTTP plumbing. An exception other than "Doctor not found" (a malformed body, say) is not modelled.
- `parseInt` is modelled for decimal text only. Hexadecimal prefixes and `Infinity` are left out.
- Text.ParseInt: the result is an exact unbounded integer. JavaScript's `parseInt` returns a double, which loses precision above 2^53, and the `patient_age` column is a bounded integer. Neither limit is modelled, so an oversized age is carried exactly here.
- White space and lower-casing cover ASCII plus a few common white-space characters. Full Unicode case mapping is not modelled.
- ConsultationRequest.WithInput: a plain write to the field name `patient_vitals`, which the form never makes, replaces the vitals object with a string in the code. The model stores it as an ordinary text field and keeps the vitals map.
- Query.OrderBy: rows with equal `created_at` or response time keep table order. The backend leaves their order unspecified.
- Backend-set columns that the core never reads, such as `updated_at` and `prescription_date`, are not modelled. Generated ids and timestamps are inputs.
- The Back and Cancel buttons that close the prescription form and the prescription view are not modelled; they only clear a selection.
- The inventory's add-medicine dialog holds no logic and is not modelled. Neither is its open flag.
- Async handlers are modelled one at a time. Two submits or clicks interleaving is not modelled.
- VideoCall.JsRem: for a negative count the contract states only the range of the remainder, not that the count minus the remainder is a multiple of 60. The call timer never goes negative.
- VideoCall.FormatDurationRoundTrip: the round trip is stated for non-negative counts only. The function itself is modelled for every integer with JavaScript's floor division and remainder.
- MedicineInventory.LowStockCountMatchesBadges: the agreement is stated for non-negative minimums only. With a negative minimum, an out-of-stock item shows the "out" badge, but the counter skips it.
