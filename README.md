# DentalED patient pages in Dafny

This project models the state logic of the DentalED dental-practice demo:

- **The patient list page.** It holds the list of patient records. Its add, edit and delete
  operations work on that list, and its add/edit form is checked before a save.
  The rule that turns a name's words into initials is part of it.
- **The patient record and the seven seed records** every list starts from.
- **The add-patient wizard.** It has a step counter (1 to 4) and an image list capped at five.
  It also builds two mock treatment-plan texts from the entered fields, with default phrases
  for empty ones.
- **The two sidebars.** For each, the model covers its active-link rule and its flags with
  their buttons: open and collapsed for the modern sidebar, the mobile menu for the classic one.
  The modern sidebar also has a window-width rule, and caps a collapsed badge at "9+". That
  rule relies on JavaScript's `parseInt`, which is modelled too.

The modules are:

- `PatientsData` holds the record type, its three-valued status and the seed list.
- `PatientList` holds the initials rule, the list operations as functions, and the page class
  `PatientsPage`, whose methods change the list and the form.
- `IdAllocation` holds the page's id rule as written, on JavaScript numbers (see Findings).
- `AddPatientWizard` holds the wizard class `Wizard`. `TreatmentPlan` holds the two plan
  templates.
- `ModernSideBar` holds the modern sidebar and its class `Sidebar`. `JsParseInt` holds
  `parseInt`. `SidebarComponent` holds the classic sidebar.
- `Strings` holds `split(' ')` as JavaScript defines it, and `toUpperCase` on the letters a-z
  only (see Left out). It also holds `join(' ')`, which no component calls; it is the reference
  inverse that the split lemmas use. `Wrappers` holds `Option`.

Browser inputs are parameters of the methods:

- the answer to `confirm` is the `confirmed` argument of `HandleDeletePatient`;
- the `alert` message is returned as `alert: Option<string>`;
- the window width is the `width` argument of `HandleResize` and `HandleItemClick`;
- the pathname is an `Option<string>`, and `None` is a missing pathname;
- a file list is an `Option<seq<string>>`, and each file is the string its reader returns.

## Model

| member | source | states |
|---|---|---|
| Strings.SplitOnSpaceShape | app/patients/page.tsx:20 | `split(' ')` gives one more piece than there are spaces, and no piece contains a space |
| Strings.JoinSplit | app/patients/page.tsx:20 | joining the pieces of `split(' ')` with single spaces gives back the original string |
| Strings.SplitJoin | app/patients/page.tsx:20 | splitting a space-joined, non-empty list of space-free words gives back exactly those words |
| PatientsData.StatusLabel | lib/patients-data.ts:7 | the text stored for each status: 'interested', 'not interested' or 'pending'; it reads back as that status |
| PatientsData.StatusLabelRoundTrip | lib/patients-data.ts:7 | every status is stored as one of 'interested', 'not interested' or 'pending', and reads back as itself |
| PatientsData.ParseStatusExact | lib/patients-data.ts:7 | a string stands for a status if and only if it is that status's text |
| PatientsData.InitialIds | lib/patients-data.ts:12-83 | the seed list has seven records with ids 1..7 in ascending order, so the ids are pairwise distinct and the list is non-empty |
| PatientList.GetInitials | app/patients/page.tsx:19-21 | `getInitials`: split the name on single spaces, take the first character of each non-empty piece, join them and upper-case the result (its properties are the rows below) |
| PatientList.InitialsPerWord | app/patients/page.tsx:19-21 | the initials have exactly one character per non-empty space-separated word: that word's first character, upper-cased |
| PatientList.InitialsByScan | app/patients/page.tsx:19-21 | the split-based initials equal an independent character scan: upper-cased non-space characters at the start or after a space |
| PatientList.RepeatedSpaceAddsNothing | app/patients/page.tsx:19-21 | doubling a space anywhere in a name leaves its initials unchanged |
| PatientList.TwoWordInitials | app/patients/page.tsx:20 | a name of two space-free words joined by one space gives the upper-cased first letters of both words |
| PatientList.InitialPatientsInitials | lib/patients-data.ts:12-83 | every seed record's stored initials equal the initials derived from its name ('Sarah Johnson' gives 'SJ', and so on) |
| PatientList.MaxId | app/patients/page.tsx:30 | on a non-empty list the result is at least every id and equal to one of them |
| PatientList.NextId | app/patients/page.tsx:30 | the new id is larger than every existing id; on an empty list it is 1 (the corrected rule, see Findings) |
| PatientList.InitialNextId | lib/patients-data.ts:12-83 | the first id allocated from the seed list is 8 |
| PatientList.AddKeepsInvariants | app/patients/page.tsx:29-40 | appending the new record keeps ids pairwise distinct and initials consistent, and leaves the old records unchanged in front |
| PatientList.EditedList | app/patients/page.tsx:51-55 | the list after the edit `map`: each record whose id matches is replaced by the record with the form saved over it; the length is kept |
| PatientList.EditedListAt | app/patients/page.tsx:51-55 | the edit keeps the list length; a record is replaced by its edited form exactly when its id matches, and every other record stays as it was |
| PatientList.EditRecordFields | app/patients/page.tsx:53 | an edited record keeps its id, lastContact and color, takes name, email, phone and status from the form, and takes its initials from the new name |
| PatientList.EditRecordOwnForm | app/patients/page.tsx:66-74 | saving a record's own form gives back the record if and only if its initials agree with its name |
| PatientList.EditTouchesOnlyTarget | app/patients/page.tsx:51-55 | with distinct ids, editing the id of record k replaces record k and nothing else |
| PatientList.EditAbsentId | app/patients/page.tsx:51-55 | editing an id that no record has leaves the list unchanged |
| PatientList.SaveUnchangedForm | app/patients/page.tsx:51-55 | opening a record for editing and saving without changes leaves the list unchanged |
| PatientList.EditKeepsInvariants | app/patients/page.tsx:51-55 | an edit keeps ids distinct and initials consistent |
| PatientList.WithoutId | app/patients/page.tsx:62 | the list after the delete `filter`: the records whose id differs, in order; never longer than before |
| PatientList.WithoutIdMembers | app/patients/page.tsx:62 | after a delete, a record remains if and only if it was in the list and had a different id; the list never grows |
| PatientList.WithoutAbsentId | app/patients/page.tsx:62 | deleting an id that no record has leaves the list unchanged |
| PatientList.DeleteExactlyOne | app/patients/page.tsx:62 | with distinct ids, deleting the id of record k removes just that record and keeps the others in their original order |
| PatientList.DeleteKeepsInvariants | app/patients/page.tsx:62 | a delete keeps ids distinct and initials consistent |
| PatientList.PatientsPage.constructor | app/patients/page.tsx:9-17 | the page starts with the seed list, no dialog, no record being edited and the empty form; the invariant holds |
| PatientList.PatientsPage.HandleAddPatient | app/patients/page.tsx:23-43 | with a required field empty: the alert and no change at all; otherwise exactly one new record at the end, with its id from the corrected rule `NextId` (see Left out), the dialog closed and the form reset |
| PatientList.PatientsPage.HandleEditPatient | app/patients/page.tsx:45-58 | with no record being edited or a required field empty: the alert and no change; otherwise only the matching record is edited, editing ends and the form is reset |
| PatientList.PatientsPage.HandleDeletePatient | app/patients/page.tsx:60-64 | when confirmed, every record with the id is removed; otherwise nothing changes; the form and dialog state stay as they were |
| PatientList.PatientsPage.OpenEditModal | app/patients/page.tsx:66-74 | the chosen record becomes the one being edited, and the form gets exactly its name, email, phone and status |
| PatientList.PatientsPage.Cancel | app/patients/page.tsx:255-259 | the dialog closes, editing ends, the form is reset and the list is unchanged |
| PatientList.PatientsPage.SetName | app/patients/page.tsx:211 | the name input replaces only the form's name |
| PatientList.PatientsPage.SetEmail | app/patients/page.tsx:222 | the email input replaces only the form's email |
| PatientList.PatientsPage.SetPhone | app/patients/page.tsx:233 | the phone input replaces only the form's phone |
| PatientList.PatientsPage.SetStatus | app/patients/page.tsx:243 | the status select replaces only the form's status |
| IdAllocation.JsMaxOfIds | app/patients/page.tsx:30 | on a non-empty list, `Math.max` over the ids is the finite largest id |
| IdAllocation.AsWrittenAgreesOnNonEmpty | app/patients/page.tsx:30 | on a non-empty list, the id rule as written gives the same id as the corrected rule |
| IdAllocation.AsWrittenDuplicateIds | app/patients/page.tsx:30 | on an empty list the rule as written gives -Infinity, and after adding that record it gives -Infinity again; the corrected rule gives 1 |
| AddPatientWizard.NextStep | app/patients/add/page.tsx:29-33 | the step after Next: one more below step 4, unchanged at 4; from 1..4 it stays in 1..4 and never goes back |
| AddPatientWizard.PreviousStep | app/patients/add/page.tsx:35-39 | the step after Previous: one less above step 1, unchanged at 1; from 1..4 it stays in 1..4 and never goes forward |
| AddPatientWizard.StepsStayInRange | app/patients/add/page.tsx:27-39 | Next and Previous keep the step within 1..4; Next does nothing exactly at step 4, and Previous exactly at step 1 |
| AddPatientWizard.NextPreviousRoundTrip | app/patients/add/page.tsx:29-39 | below step 4, Previous undoes Next; above step 1, Next undoes Previous |
| AddPatientWizard.ButtonsMatchMoves | app/patients/add/page.tsx:704-713 | Previous is disabled exactly at step 1, where it would not move; Next is offered exactly below step 4, where it moves |
| AddPatientWizard.StepButtonsInRange | app/patients/add/page.tsx:184-187 | there is one step button per step, and button k jumps to step k+1, within 1..4 |
| AddPatientWizard.FilesToAdd | app/patients/add/page.tsx:45-46 | the files an upload takes, `slice(0, 5 - current)` of the selection: always a prefix of the selected files |
| AddPatientWizard.UploadCount | app/patients/add/page.tsx:45-46 | from at most five images, an upload adds the first min(#files, 5 - current) files, so the list stays within five |
| AddPatientWizard.UploadCountOverfull | app/patients/add/page.tsx:45-46 | with more than five images, the negative slice end drops files from the back of the selection |
| AddPatientWizard.FullListAddsNothing | app/patients/add/page.tsx:322 | with five images an upload adds nothing, and the file inputs are disabled |
| AddPatientWizard.RemoveIndex | app/patients/add/page.tsx:60 | the filter removes exactly the image at a valid index; an out-of-range index leaves the list as it was |
| AddPatientWizard.RemoveIndexEffect | app/patients/add/page.tsx:59-61 | removing a valid index shortens the list by one, keeps the images before it and shifts the later ones down by one |
| AddPatientWizard.Wizard.constructor | app/patients/add/page.tsx:8-25 | the wizard starts at step 1 with no images, no plan, closed options, empty fields, tone 'professional' and length 'standard' |
| AddPatientWizard.Wizard.HandleNext | app/patients/add/page.tsx:29-33 | the step becomes the next step, and stays within 1..4 |
| AddPatientWizard.Wizard.HandlePrevious | app/patients/add/page.tsx:35-39 | the step becomes the previous step, and stays within 1..4 |
| AddPatientWizard.Wizard.JumpToStep | app/patients/add/page.tsx:184-187 | a step button sets the step to its own number |
| AddPatientWizard.Wizard.HandleImageUpload | app/patients/add/page.tsx:41-57 | when there is a file list, the files that fit are appended one at a time and in order; without one, nothing changes; never more than five images |
| AddPatientWizard.Wizard.HandleRemoveImage | app/patients/add/page.tsx:59-61 | the image list loses the image at the index, and stays within five |
| AddPatientWizard.Wizard.HandleGeneratePlan | app/patients/add/page.tsx:63-135 | the plan becomes the template filled from the current first name, motivators, concerns and questions |
| AddPatientWizard.Wizard.ToggleRegenOptions | app/patients/add/page.tsx:511 | the Regenerate button flips whether the options are shown |
| AddPatientWizard.Wizard.SetFirstName | app/patients/add/page.tsx:244 | the first-name input replaces the first name |
| AddPatientWizard.Wizard.SetMotivators | app/patients/add/page.tsx:391 | the motivators input replaces the motivators |
| AddPatientWizard.Wizard.SetConcerns | app/patients/add/page.tsx:402 | the concerns input replaces the concerns |
| AddPatientWizard.Wizard.SetQuestions | app/patients/add/page.tsx:413 | the questions input replaces the patient's questions |
| AddPatientWizard.Wizard.SetExtraInfo | app/patients/add/page.tsx:548 | the extra-information input replaces the extra information |
| AddPatientWizard.Wizard.SetRegenTone | app/patients/add/page.tsx:562 | the tone select replaces the tone |
| AddPatientWizard.Wizard.SetRegenLength | app/patients/add/page.tsx:578 | the length select replaces the length |
| AddPatientWizard.Wizard.HandleRegeneratePlan | app/patients/add/page.tsx:137-155 | the plan becomes the regenerated template for the chosen tone, length and extra information, and the options close |
| TreatmentPlan.GeneratePlan | app/patients/add/page.tsx:65-132 | the mock plan: the step headings and every sentence that holds an input, in template order, with the `||` defaults and the questions ternary (its properties are the rows below) |
| TreatmentPlan.MotivatorsFallback | app/patients/add/page.tsx:68-112 | with empty motivators the plan has the default phrases in the rapport, treatment and closing steps; otherwise it has the given motivators in all three |
| TreatmentPlan.ConcernsFallback | app/patients/add/page.tsx:70 | with empty concerns the plan names 'the treatment process'; otherwise it names the given concerns |
| TreatmentPlan.QuestionsFallback | app/patients/add/page.tsx:88 | without questions the objections step gives the stock line; with them, it lists the questions |
| TreatmentPlan.PlanNamesPatient | app/patients/add/page.tsx:68-70 | the first name appears in the rapport sentence and again at the start of the empathy quote |
| TreatmentPlan.ToneDescriptions | app/patients/add/page.tsx:138-143 | each of the four tones of the selector maps to its own description, and no other tone has one (see Left out for inherited keys) |
| TreatmentPlan.RegeneratePlan | app/patients/add/page.tsx:145-151 | the regenerated plan, verbatim: the heading with the tone's description and the length, the special-considerations line when there is extra information, and the closing sentences (its properties are the next row) |
| TreatmentPlan.RegenerateContents | app/patients/add/page.tsx:145-151 | the regenerated plan starts with a heading naming the tone's description and the length; it names the tone and the length; it shows non-empty extra information under special considerations, and otherwise the default phrase |
| JsParseInt.ParseInt | components/ui/modern-side-bar.tsx:212 | `parseInt` without a radix: skip white space, read a sign, read hexadecimal after 0x or 0X and decimal otherwise, stop at the first non-digit; `None` for NaN (its properties are the rows below) |
| JsParseInt.TrimStart | components/ui/modern-side-bar.tsx:212 | `parseInt` drops a prefix made only of white space, and the rest is the input's suffix that begins with something other than white space |
| JsParseInt.DecimalStringValue | components/ui/modern-side-bar.tsx:212 | a decimal numeral's digits denote its number |
| JsParseInt.ParseDecimal | components/ui/modern-side-bar.tsx:212 | a decimal numeral reads back as its number under `parseInt`, also when followed by text that cannot continue it |
| JsParseInt.ParseNegative | components/ui/modern-side-bar.tsx:212 | a minus sign before a numeral negates the number read |
| JsParseInt.ParseSkipsWhitespace | components/ui/modern-side-bar.tsx:212 | leading white space does not change the number read |
| JsParseInt.ParseNoDigit | components/ui/modern-side-bar.tsx:212 | a string that starts with no digit, sign or white space reads as NaN |
| ModernSideBar.IsActive | components/ui/modern-side-bar.tsx:72-75 | `isActive(href)`: the root link exactly on '/', any other link on every pathname it prefixes; an active link always prefixes a present pathname |
| ModernSideBar.CollapsedBadge | components/ui/modern-side-bar.tsx:209-212 | the badge of a collapsed item: shown exactly when the item has a non-empty badge, and then either '9+' or the badge itself |
| ModernSideBar.RootActive | components/ui/modern-side-bar.tsx:73 | the root link is active if and only if the pathname is exactly '/' |
| ModernSideBar.OtherActive | components/ui/modern-side-bar.tsx:74 | any other link is active if and only if the pathname starts with its href; never without a pathname |
| ModernSideBar.PatientsActiveExamples | components/ui/modern-side-bar.tsx:37-40 | '/patients/add', '/patients/3' and also '/patientsX' activate Patients; Dashboard is then inactive |
| ModernSideBar.AtMostOneActive | components/ui/modern-side-bar.tsx:37-40 | no pathname activates both navigation links |
| ModernSideBar.CollapsedBadgeRule | components/ui/modern-side-bar.tsx:209-212 | a non-empty badge shows as '9+' exactly when `parseInt` reads a number above 9 (or it is '9+' itself); otherwise it shows as written |
| ModernSideBar.CollapsedCountBadge | components/ui/modern-side-bar.tsx:212 | a decimal count shows as itself up to 9 and as '9+' above 9 |
| ModernSideBar.NoBadgeShown | components/ui/modern-side-bar.tsx:37-40 | neither navigation item has a badge, so no collapsed badge is shown |
| ModernSideBar.Sidebar.constructor | components/ui/modern-side-bar.tsx:44-45 | both flags start false |
| ModernSideBar.Sidebar.ToggleSidebar | components/ui/modern-side-bar.tsx:63 | flips the open flag and leaves the collapsed flag alone |
| ModernSideBar.Sidebar.ToggleCollapse | components/ui/modern-side-bar.tsx:64 | flips the collapsed flag and leaves the open flag alone |
| ModernSideBar.Sidebar.HandleResize | components/ui/modern-side-bar.tsx:50-56 | the sidebar is open exactly when the width is at least 768 |
| ModernSideBar.Sidebar.HandleItemClick | components/ui/modern-side-bar.tsx:66-70 | below width 768 a click closes the sidebar; otherwise it stays as it was |
| ModernSideBar.Sidebar.OverlayClick | components/ui/modern-side-bar.tsx:92-96 | the overlay, shown only while open, toggles the sidebar shut |
| ModernSideBar.ToggleTwiceRestores | components/ui/modern-side-bar.tsx:63-64 | toggling either flag twice restores both flags |
| SidebarComponent.IsActive | components/Sidebar.tsx:11 | `isActive(path)`: holds exactly when the pathname is present and equal to `path` |
| SidebarComponent.DashboardHighlighted | components/Sidebar.tsx:95 | Dashboard is highlighted only on the pathname '/' |
| SidebarComponent.PatientsHighlighted | components/Sidebar.tsx:114 | Patients is highlighted on '/patients' or a path starting with '/patients/'; a highlighted pathname always starts with '/patients' |
| SidebarComponent.Highlighting | components/Sidebar.tsx:95-114 | Dashboard is highlighted exactly on '/'; Patients exactly on '/patients' and paths starting with '/patients/'; never both |
| SidebarComponent.DiffersFromModernSidebar | components/Sidebar.tsx:114 | '/patientsX' activates Patients in the modern sidebar but does not highlight it here |
| SidebarComponent.HighlightImpliesModernActive | components/Sidebar.tsx:114 | where this sidebar highlights Patients, the modern rule makes it active too; the two Dashboard rules agree |
| SidebarComponent.Sidebar.constructor | components/Sidebar.tsx:9 | the mobile menu starts closed |
| SidebarComponent.Sidebar.ToggleMobileMenu | components/Sidebar.tsx:17 | the menu button flips the mobile-menu flag |
| SidebarComponent.Sidebar.OverlayClick | components/Sidebar.tsx:40-42 | clicking the overlay closes the menu, whatever its state, and the overlay disappears |

## Left out

- JSX markup, CSS classes, icons and `Link` rendering: presentation only.
- `FileReader` and base64 conversion: each file is the string its reader produces. `Wizard.HandleImageUpload` appends the files synchronously and in selection order. The asynchronous `onloadend` callbacks can finish in any order, and overlapping uploads can race; that concurrency is not modelled.
- `alert` and `confirm`: the message is returned as a value, and the confirmation is a parameter.
- `window.innerWidth`, the resize listener and `usePathname`: width and pathname are parameters.
- The mount effect: the modern sidebar calls `handleResize` once on mount; in the model that is `Sidebar.HandleResize` after the constructor.
- Dark mode (components/DarkModeWrapper.tsx, app/layout.tsx): DOM and localStorage side effects.
- app/page.tsx: static dashboard data, with no logic.
- app/patients/[id]/page.tsx is not part of this model.
- The static paragraphs of the generated plan: `TreatmentPlan.GeneratePlan` keeps the step headings and every sentence that holds an input, in template order, and leaves out the fixed text between them.
- TreatmentPlan.ToneDescription: covers the four keys of the table. In JavaScript, `toneDescriptions[regenTone]` also finds inherited keys such as "toString" or "constructor", which would print a function instead of `undefined`. The tone select offers only the four tones, so such a key cannot be chosen.
- The Send Email, Schedule Call and Complete buttons: they have no handlers.
- The wizard's other form fields (last name, age, email, phone, notes, email message, mobile number): plain inputs that no modelled operation reads.
- `patient.patientId` (app/patients/page.tsx:114): it is not a field of the record and renders nothing.
- PatientList.GetInitials: upper-cases only the ASCII letters a-z; the full Unicode mapping of `toUpperCase` (for example 'ß' to 'SS') is not modelled.
- PatientList.GetInitials: works on characters, not UTF-16 code units, so `n[0]` of a word starting with a non-BMP character is the whole character, not half a surrogate pair.
- PatientList.NextId: ids are unbounded integers, without the double-precision rounding of JavaScript numbers above 2^53.
- JsParseInt.ParseInt: handles no radix argument, which the badge rule never passes. It reads the mathematical value of the digits, without the rounding of long numerals to a double.
- PatientList.PatientsPage.HandleAddPatient: the model uses the corrected id rule of the Findings row. On an empty list it allocates 1, where the page would allocate -Infinity (see IdAllocation.AsWrittenDuplicateIds). On a non-empty list the two rules agree (IdAllocation.AsWrittenAgreesOnNonEmpty).
- The add dialog: nothing on the page sets `showAddModal` to true (the "Add Patient" control is a link to the wizard), so `PatientsPage.HandleAddPatient` is unreachable from the page as shown.

## Findings

| source | as written | input that shows it | evidently intended | confidence | as-written member | corrected member |
|---|---|---|---|---|---|---|
| app/patients/page.tsx:30 | `Math.max(...patients.map(p => p.id)) + 1` is -Infinity on an empty list | delete every patient, then add two: both new records get the id -Infinity, so the ids are no longer distinct and a later delete removes both. The defect is latent: nothing on the page opens the add dialog, so `handleAddPatient` is not reachable as the page stands | a fresh id, such as 1 on an empty list, so that ids stay distinct | not executed | IdAllocation.AsWrittenDuplicateIds | PatientList.NextId |
