# Solar lead funnel — a Dafny model

This project models the client-side core of a solar-energy lead funnel.

- **The wizard.** A visitor walks through a fixed table of twelve sections: four information screens, then the address, name, contact, utility-bill upload, quiz, savings-report delivery and appointment steps, and a thank-you screen. The wizard owns one shared form record. Each data-collecting step validates its own fields, merges them into the record and advances one step.
- **Remote calls.** The upload step creates the customer remotely. Later steps update that customer when its id is known.
- **Two further forms.** A review step stores a local lead record. A one-page qualification form collects everything at once.
- **The admin side.** A broadcast helper keeps the locally stored `solarLeads` list and announces its changes. Besides it, there are an admin dashboard (customer list, counts, status colours, delete), a login page and an embeddable login gate. All three read or write the `adminAuthenticated` flag in local storage.

Each source file is one module. A component whose state the source updates in place is a `class` with that state as fields; its handlers are methods.

- **Wizard handlers.** A handler takes the wizard (`Index.Wizard`, standing for the `setFormData` and `onNext` props it receives).
- **Remote calls.** A handler that calls the backend also takes the call's outcome as an input (`Remote.Response`: ok with the new id, non-ok with an optional message, or thrown). It returns the request it sent, or `None` when it sent none.
- **`setFormData` updaters.** Each updater is a pure function. Its contract states the new field and that every other field of the record is unchanged.
- **The listener registry.** `SocketManager.On`/`Off` are specified by the registry functions `AfterOn`/`AfterOff`, whose lemmas give the list properties.
- **Local storage.** Modelled as a class over a map from key to a typed value. JSON text is not modelled.

Shared modules:

- `Wrappers` (Option);
- `Text`: JavaScript's `trim`, the `\s` class, the `/\D/g` digit strip and `startsWith`;
- `Email`: the `\S+@\S+\.\S+` test, proved equal to the pattern's meaning;
- `Forms`: the form record;
- `Remote`: outcomes, requests and request paths;
- `Storage` and `Credentials`.

## Model

| member | source | states |
|---|---|---|
| Index.Advance | src/pages/Index.tsx:43-47 | one step forward, except on the last section; the result stays a valid step |
| Index.Retreat | src/pages/Index.tsx:49-53 | one step back, except on the first section; the result stays a valid step |
| Index.RetreatThenAdvance | src/pages/Index.tsx:43-53 | back-then-forward and forward-then-back return to the same step away from the ends |
| Index.PropsFor | src/pages/Index.tsx:72-83 | the mounted section gets the record and setter exactly on steps 4..10, and `onPrev` exactly when the step is past the first |
| Index.Progress | src/pages/Index.tsx:65 | the progress fraction is (step+1)/12, between 1/12 and 1, and full exactly on the last step |
| Index.Wizard.constructor | src/pages/Index.tsx:17-26 | the wizard starts on step 0 with the initial record |
| Index.Wizard.NextStep | src/pages/Index.tsx:43-47 | `nextStep` moves as `Advance` does and leaves the record alone |
| Index.Wizard.PrevStep | src/pages/Index.tsx:49-53 | `prevStep` moves as `Retreat` does and leaves the record alone |
| Index.Wizard.SetFormData | src/pages/Index.tsx:18 | the setter replaces the record and keeps the step |
| Text.TrimStart | src/components/PersonalInfoForm.tsx:22 | leading whitespace removed: the rest is a suffix not starting with whitespace |
| Text.TrimEnd | src/components/PersonalInfoForm.tsx:22 | trailing whitespace removed: the rest is a prefix not ending with whitespace |
| Text.BlankIffTrimEmpty | src/components/PersonalInfoForm.tsx:22-23 | `!s.trim()` holds exactly when every character is whitespace |
| Text.TrimEnds | src/components/PersonalInfoForm.tsx:36-37 | a trimmed value neither starts nor ends with whitespace |
| Text.Digits | src/components/ContactInfoForm.tsx:20 | `replace(/\D/g, '')` keeps exactly the digits, in order |
| Text.DigitsAppend | src/components/ContactInfoForm.tsx:20 | stripping non-digits distributes over concatenation |
| Text.DigitsNotBlank | src/components/QualificationForm.tsx:31-35 | a value that contains a digit is not blank |
| Email.LooksLikeEmailIffPattern | src/components/ContactInfoForm.tsx:38 | the check accepts exactly the strings in which some substring matches `\S+@\S+\.\S+` |
| Email.SurroundedStillMatches | src/components/ContactInfoForm.tsx:38 | the test is unanchored: text around a match keeps it a match |
| Email.Examples | src/components/ContactInfoForm.tsx:38 | example values: "a@b.co" passes; "abc", "a@b" and "" fail |
| ZipCode.InitialAddress | src/components/ZipCodeForm.tsx:14-16 | the field starts as the committed address, or '' while `location` is still `{}` |
| ZipCode.WithLocation | src/components/ZipCodeForm.tsx:22-25 | a commit sets `location` to the address as typed and changes nothing else |
| ZipCode.CommittedAddressReloads | src/components/ZipCodeForm.tsx:14-25 | re-opening the step after a commit shows the committed address |
| ZipCode.ZipCodeForm.constructor | src/components/ZipCodeForm.tsx:14-16 | the local address starts from the record |
| ZipCode.ZipCodeForm.SetFullAddress | src/components/ZipCodeForm.tsx:70 | the input sets the local address |
| ZipCode.ZipCodeForm.HandleSubmit | src/components/ZipCodeForm.tsx:19-29 | an empty address does nothing; otherwise the address is committed and the wizard advances once |
| Personal.WithNames | src/components/PersonalInfoForm.tsx:32-39 | the trimmed names are merged into `personalInfo`; its other fields and the rest of the record are kept |
| Personal.CommittedNamesNotBlank | src/components/PersonalInfoForm.tsx:22-39 | after a valid submit both stored names are non-empty and start with a non-space |
| Personal.WithNamesKeepsPhone | src/components/PersonalInfoForm.tsx:32-39 | the name commit keeps a digits-only phone digits-only |
| Personal.PersonalInfoForm.constructor | src/components/PersonalInfoForm.tsx:15-17 | the fields start from the record ('' when absent); no errors |
| Personal.PersonalInfoForm.ValidateForm | src/components/PersonalInfoForm.tsx:19-27 | one error per blank name with its message, no other key; valid exactly when neither name is blank |
| Personal.PersonalInfoForm.HandleSubmit | src/components/PersonalInfoForm.tsx:19-42 | the shown error map has one entry per blank name, with its message, and no other key; an invalid form changes nothing in the wizard; a valid one commits the trimmed names and advances once |
| Personal.PersonalInfoForm.HandleInputChange | src/components/PersonalInfoForm.tsx:44-52 | 'firstName' edits the first name and any other field name the last name; only the edited field's shown error is cleared |
| Contact.FirstTen | src/components/ContactInfoForm.tsx:23 | `slice(6, 10)` keeps at most the first ten digits |
| Contact.FormatPhone | src/components/ContactInfoForm.tsx:19-24 | the formatted phone is at most 14 characters |
| Contact.FormatPhoneDigits | src/components/ContactInfoForm.tsx:19-24 | the digits of the formatted value are the first ten digits of the input |
| Contact.FormatPhoneIdempotent | src/components/ContactInfoForm.tsx:61-63 | formatting a formatted value changes nothing |
| Contact.FormatPhoneShape | src/components/ContactInfoForm.tsx:19-24 | up to 3 digits bare, 4..6 as `(ddd) d..`, 7 or more as `(ddd) ddd-d..` |
| Contact.FormatsAsExample | src/components/ContactInfoForm.tsx:19-24 | any input with the digits 3125551212 formats as "(312) 555-1212" |
| Contact.FormattedExample | src/components/ContactInfoForm.tsx:19-24 | example value: "(312) 555-1212" is a fixed point whose digits are 3125551212 |
| Contact.PhoneError | src/components/ContactInfoForm.tsx:29-34 | an error exactly when the digit count is not 10; "required" exactly when there are no digits |
| Contact.EmailError | src/components/ContactInfoForm.tsx:36-40 | an error exactly when blank or not email-shaped; "required" exactly when blank |
| Contact.WithContact | src/components/ContactInfoForm.tsx:49-56 | the phone is stored digits-only and the email trimmed; nothing else changes |
| Contact.ContactInfoForm.constructor | src/components/ContactInfoForm.tsx:15-17 | the fields start from the record; no errors |
| Contact.ContactInfoForm.ValidateForm | src/components/ContactInfoForm.tsx:26-44 | phone and email keys are present exactly when their checks fail, with those messages; valid iff exactly ten digits and a non-blank, email-shaped address |
| Contact.ContactInfoForm.HandleSubmit | src/components/ContactInfoForm.tsx:26-59 | the shown error map holds the phone and email messages exactly for the checks that fail; an invalid form changes nothing in the wizard; a valid one commits a ten-digit phone and the trimmed email and advances once |
| Contact.ContactInfoForm.HandlePhoneChange | src/components/ContactInfoForm.tsx:61-65 | the field shows the formatted value (at most ten digits); a shown phone error is cleared |
| Contact.ContactInfoForm.HandleEmailChange | src/components/ContactInfoForm.tsx:67-70 | the field takes the value; a shown email error is cleared |
| UtilityBill.UploadFailure | src/components/UtilityBillForm.tsx:75-77 | the non-ok message is the prefix followed by the server's non-empty message, else by "Please try again." |
| UtilityBill.FailureMessagesDistinct | src/components/UtilityBillForm.tsx:26-85 | the missing-file, non-ok and network messages are pairwise different and non-empty |
| UtilityBill.UploadRequest | src/components/UtilityBillForm.tsx:48-52 | the create request carries the contact block, location, zip code and the chosen file |
| UtilityBill.WithBill | src/components/UtilityBillForm.tsx:67-71 | an ok response stores the file and the returned id; nothing else changes |
| UtilityBill.WithBillKeepsRecord | src/components/UtilityBillForm.tsx:67-71 | the commit keeps the phone canonical, and a non-empty id makes the customer known |
| UtilityBill.UtilityBillForm.constructor | src/components/UtilityBillForm.tsx:15-17 | the file starts from the record; no error, not submitting; Continue (`SubmitDisabled`, UtilityBillForm.tsx:147) starts disabled exactly when no file is stored |
| UtilityBill.UtilityBillForm.HandleFileChange | src/components/UtilityBillForm.tsx:19-24 | the file is set; choosing one clears the error, clearing it keeps the error |
| UtilityBill.UtilityBillForm.HandleSubmit | src/components/UtilityBillForm.tsx:26-85 | no file: the required error and no call; otherwise the create call, and only an ok response commits and advances, a non-ok one or a thrown call sets its own message; the button of line 147: from an idle form, the Continue button (`SubmitDisabled`) was disabled exactly when the click sends no call, and afterwards it is disabled exactly when no file is chosen |
| Quiz.TileAnswer | src/components/QuizSection.tsx:67 | a tile kind is stored as "Tile - " followed by the kind, which can be read back |
| Quiz.TileAnswerInjective | src/components/QuizSection.tsx:66-72 | different kinds give different stored answers |
| Quiz.RadioValue | src/components/QuizSection.tsx:182 | a compound tile answer shows as "Tile"; any other answer shows as itself |
| Quiz.RadioShowsTileIffTileSelected | src/components/QuizSection.tsx:124 | the radio shows "Tile" exactly when a tile answer is selected |
| Quiz.AtMostOneKindChecked | src/components/QuizSection.tsx:227 | at most one tile-kind radio is checked |
| Quiz.CurrentAnswer | src/components/QuizSection.tsx:123 | the answer of the current question, '' when none |
| Quiz.NextDisabledIffNoAnswer | src/components/QuizSection.tsx:258 | Next is disabled exactly when the current answer is empty or a submit is running |
| Quiz.WithQuizAnswers | src/components/QuizSection.tsx:108-111 | the final commit replaces `quizAnswers` only |
| Quiz.SaveRequest | src/components/QuizSection.tsx:94-101 | the save call is made exactly when a customer exists, with the answers |
| Quiz.QuizSection.constructor | src/components/QuizSection.tsx:17-20 | the quiz starts on the first question with the stored answers |
| Quiz.QuizSection.HandleAnswerChange | src/components/QuizSection.tsx:52-64 | only the current question's answer changes; on the roof question "Tile" sets `showTileOptions` (the chevron's up state), a non-tile answer clears it, a compound answer keeps it |
| Quiz.QuizSection.HandleTileSubOptionChange | src/components/QuizSection.tsx:66-72 | the current answer becomes the compound answer of the kind, which counts as a tile selection, so on the roof question the kinds stay listed |
| Quiz.KindsListedIffTileSelected | src/components/QuizSection.tsx:196-215 | the kinds are listed (`KindsListed`) exactly on the roof question while a tile answer is selected, whatever `showTileOptions` says; the chevron points up (`ChevronUp`) exactly when the kinds are listed and the flag is set |
| Quiz.QuizSection.HandlePrev | src/components/QuizSection.tsx:83-88 | back one question and clear `showTileOptions`; nothing on the first question; the button of line 248: the question stays put exactly when Previous (`PrevDisabled`) is disabled |
| Quiz.OneBackAction | src/components/QuizSection.tsx:128-140 | mounted at step 8, the wizard's Back button (`BackOffered`) shows exactly on the first question, which is exactly where the card's Previous button (`PrevDisabled`) is disabled |
| Quiz.QuizSection.HandleSubmitQuiz | src/components/QuizSection.tsx:90-119 | the save call is made when a customer exists; the answers are committed and the wizard advances unless the call throws |
| Quiz.QuizSection.HandleNext | src/components/QuizSection.tsx:74-81 | forward one question without touching the wizard, or on the last question the commit |
| SavingsReport.WithDelivery | src/components/SavingsReportSection.tsx:40-43 | the commit replaces `savingsReportDelivery` only |
| SavingsReport.SaveRequest | src/components/SavingsReportSection.tsx:26-33 | the save call is made exactly when a customer exists, with the choice |
| SavingsReport.SavingsReportSection.constructor | src/components/SavingsReportSection.tsx:17-18 | the choice starts as the committed one; Continue (`SubmitDisabled`, SavingsReportSection.tsx:114) starts disabled exactly when no choice is stored |
| SavingsReport.SavingsReportSection.SetDeliveryMethod | src/components/SavingsReportSection.tsx:85 | the radio group sets the choice |
| SavingsReport.SavingsReportSection.HandleSubmit | src/components/SavingsReportSection.tsx:20-51 | no choice does nothing; otherwise the save call when a customer exists, and the commit and advance unless it throws; the button of line 114: from an idle form, a click the disabled Continue button (`SubmitDisabled`) would block changes nothing, an enabled one advances unless a sent call throws, and the form ends idle |
| Scheduling.AvailableDates | src/components/SchedulingSection.tsx:25-26 | today and the four following days, in order |
| Scheduling.ClickableIffWithinFiveDays | src/components/SchedulingSection.tsx:40-42 | a day is clickable exactly when it lies between today and today+4 |
| Scheduling.TimeSlotsDistinct | src/components/SchedulingSection.tsx:27-31 | thirteen distinct slots from 9:00 AM to 9:00 PM |
| Scheduling.MonthBefore | src/components/SchedulingSection.tsx:55-57 | the month before, across a year boundary too |
| Scheduling.MonthAfter | src/components/SchedulingSection.tsx:59-61 | the month after, across a year boundary too |
| Scheduling.MonthNavigationRoundTrip | src/components/SchedulingSection.tsx:55-61 | previous and next month undo each other |
| Scheduling.WithSchedule | src/components/SchedulingSection.tsx:86-90 | an ok response stores the day and slot only |
| Scheduling.ScheduleRequest | src/components/SchedulingSection.tsx:69-82 | the update call is made exactly when a customer exists, with the day, the slot and status 'Scheduled' |
| Scheduling.SchedulePathAsWritten | src/components/SchedulingSection.tsx:76 | the path requested as written is the customer id right below the host |
| Scheduling.SchedulePathMissesTheCustomer | src/components/SchedulingSection.tsx:76 | as written, that path differs from the customer's update path for every id |
| Scheduling.ScheduleAddressesTheCustomer | src/components/SchedulingSection.tsx:76 | corrected, the appointment goes to the same customer path as the other updates |
| Scheduling.SchedulingSection.constructor | src/components/SchedulingSection.tsx:18-22 | nothing selected, so Schedule (`SubmitDisabled`, SchedulingSection.tsx:287) starts disabled; the calendar shows the current month |
| Scheduling.SchedulingSection.HandleDateClick | src/components/SchedulingSection.tsx:49-53 | the day is selected only when it is within the five available days |
| Scheduling.SchedulingSection.SelectTime | src/components/SchedulingSection.tsx:244 | a slot button selects that slot |
| Scheduling.SchedulingSection.GoToPreviousMonth | src/components/SchedulingSection.tsx:55-57 | the calendar moves to the month before |
| Scheduling.SchedulingSection.GoToNextMonth | src/components/SchedulingSection.tsx:59-61 | the calendar moves to the month after |
| Scheduling.SchedulingSection.HandleScheduleSubmit | src/components/SchedulingSection.tsx:63-99 | without day and slot nothing happens; otherwise the call when a customer exists, and only its ok response commits and advances; the button of line 287: from an idle form, a click the disabled Schedule button (`SubmitDisabled`) would block sends nothing and changes nothing in the wizard, and the form ends idle |
| Review.Field | src/components/ReviewSection.tsx:20-24 | a contact field is the entered value when non-empty, else 'Not provided'; never empty |
| Review.SubmissionRecord | src/components/ReviewSection.tsx:17-33 | the record carries the id, the submission time, status 'New Lead', the filled-in contact block, the bill's name with its own upload time when present, and the answers |
| Review.RecordIsComplete | src/components/ReviewSection.tsx:19-25 | every contact field of the record is non-empty, and an entered email is kept |
| Review.HandleSubmit | src/components/ReviewSection.tsx:15-50 | the stored list gains the record at its end, no other key changes, and the wizard advances |
| Storage.LeadsIn | src/components/ReviewSection.tsx:38 | an absent `solarLeads` reads as the empty list |
| Storage.WithLeadAppended | src/components/ReviewSection.tsx:38-40 | the stored list becomes the old one plus the record, and every other key is unchanged |
| Storage.AppendKeepsEarlierLeads | src/components/ReviewSection.tsx:38-40 | earlier records keep their positions and the new one is last |
| Storage.LocalStorage.GetItem | src/pages/Admin.tsx:17 | `getItem` finds a value exactly when the key is present |
| Storage.LocalStorage.SetItem | src/pages/AdminLogin.tsx:17 | `setItem` overwrites one key |
| Storage.LocalStorage.RemoveItem | src/pages/Admin.tsx:51 | `removeItem` drops one key |
| Qualification.InitialDetails | src/components/QualificationForm.tsx:15-21 | the five fields start from the record, '' when absent |
| Qualification.PhoneError | src/components/QualificationForm.tsx:31-35 | "required" exactly when blank; "invalid" exactly when not blank and fewer than ten digits |
| Qualification.WhitespacePhoneIsMissing | src/components/QualificationForm.tsx:31-32 | a phone that trims to nothing is reported as missing |
| Qualification.ContactPhoneAccepted | src/components/QualificationForm.tsx:33 | every ten-digit phone passes here, and an eleven-digit phone passes here but not in the contact step |
| Qualification.AsPersonalInfo | src/components/QualificationForm.tsx:74 | the submitted contact block holds the five fields as typed |
| Qualification.WithQualification | src/components/QualificationForm.tsx:89-94 | an ok response stores the contact block, the file and the new id; nothing else changes |
| Qualification.CommitKeepsTypedPhone | src/components/QualificationForm.tsx:89-94 | a formatted phone is stored with its punctuation, unlike the contact step |
| Qualification.SubmitRequest | src/components/QualificationForm.tsx:73-83 | the create request carries the fields and the file, with no location or zip code |
| Qualification.BuildErrors | src/components/QualificationForm.tsx:26-43 | each key is present exactly when its check fails, with that check's message, and no other key |
| Qualification.QualificationForm.constructor | src/components/QualificationForm.tsx:15-24 | fields and file from the record; no errors |
| Qualification.QualificationForm.ValidateForm | src/components/QualificationForm.tsx:26-46 | the error map as above; valid exactly when every check passes |
| Qualification.QualificationForm.HandlePersonalInfoChange | src/components/QualificationForm.tsx:48-54 | the named field takes the value; a shown error under that name is cleared |
| Qualification.QualificationForm.HandleFileChange | src/components/QualificationForm.tsx:56-61 | the file is set; choosing one clears a shown bill error |
| Qualification.QualificationForm.HandleSubmit | src/components/QualificationForm.tsx:26-105 | the shown error map holds each of the six messages exactly when its check fails; an invalid form makes no call; a valid one sends fields and file, and only an ok response commits and advances |
| Remote.PathOf | src/components/QuizSection.tsx:95 | a request goes to the customers collection, and an update or delete to the customer's id below it |
| Remote.PathNamesTheCustomer | src/components/QuizSection.tsx:95 | equal update paths mean the same customer |
| Socket.ListenersOf | src/utils/socketUtils.ts:15 | an event without a list has the empty list |
| Socket.RemoveFirst | src/utils/socketUtils.ts:29-35 | one element fewer when present, unchanged when absent |
| Socket.RemoveFirstAt | src/utils/socketUtils.ts:30-34 | splicing at the first index of the callback is removing its first occurrence |
| Socket.RemoveFirstMultiset | src/utils/socketUtils.ts:29-35 | exactly one copy of the callback goes and every other entry stays |
| Socket.RemoveFirstOfAppended | src/utils/socketUtils.ts:21-35 | removing a freshly appended, previously absent callback gives back the list |
| Socket.AfterOn | src/utils/socketUtils.ts:21-26 | the callback is appended to the event's list (duplicates allowed); other lists are untouched |
| Socket.AfterOff | src/utils/socketUtils.ts:29-35 | the event's list loses the first occurrence only; other lists are untouched; absent means no change |
| Socket.OnThenOff | src/utils/socketUtils.ts:21-35 | `on` then `off` of an unregistered callback restores every event's list |
| Socket.IndexOf | src/utils/socketUtils.ts:31 | the first index holding the callback, or -1 exactly when absent |
| Socket.SocketManager.constructor | src/utils/socketUtils.ts:7-10 | no listeners, nothing posted, channel open |
| Socket.SocketManager.On | src/utils/socketUtils.ts:21-26 | the registry becomes `AfterOn` of the old one |
| Socket.SocketManager.Off | src/utils/socketUtils.ts:29-35 | the registry becomes `AfterOff` of the old one |
| Socket.SocketManager.Receive | src/utils/socketUtils.ts:13-17 | the type's callbacks are called with the data, in registration order; an unknown type calls none |
| Socket.SocketManager.Emit | src/utils/socketUtils.ts:38-41 | exactly one message `{type, data}` is posted |
| Socket.SocketManager.StoreAndBroadcast | src/utils/socketUtils.ts:44-47 | the key is written, then exactly one 'data_updated' message carries key and data |
| Socket.SocketManager.NotifyNewCustomer | src/utils/socketUtils.ts:50-52 | one 'new_customer' message with the record |
| Socket.SocketManager.NotifyCustomerUpdate | src/utils/socketUtils.ts:55-57 | one 'customer_updated' message with the id and the update |
| Socket.SocketManager.Close | src/utils/socketUtils.ts:60-62 | the channel is closed |
| Socket.GetSolarLeads | src/utils/socketUtils.ts:76-78 | the stored list, or [] when absent |
| Socket.UpdateSolarLeads | src/utils/socketUtils.ts:69-74 | the stored list gains the lead at its end, then 'data_updated' and 'new_customer' are posted in that order |
| Socket.ClearSolarLeads | src/utils/socketUtils.ts:80-82 | the stored list becomes [] and that is announced |
| Socket.NotifyNewCustomerSubmission | src/utils/socketUtils.ts:85-87 | one 'new_customer' message |
| Socket.NotifyQuizCompletion | src/utils/socketUtils.ts:89-91 | one 'customer_updated' message whose update is the answers |
| Admin.WithoutId | src/pages/Admin.tsx:82 | the filter keeps exactly the records with another id |
| Admin.WithoutIdAppend | src/pages/Admin.tsx:82 | the filter works piece by piece, so the rest keep their order |
| Admin.WithoutAbsentId | src/pages/Admin.tsx:82 | with no record of that id, the list is unchanged |
| Admin.WithoutIdIdempotent | src/pages/Admin.tsx:74-89 | deleting the same id twice is deleting it once |
| Admin.ScheduledCount | src/pages/Admin.tsx:156 | the Scheduled count is at most the total, and zero exactly when nobody is scheduled |
| Admin.BillCount | src/pages/Admin.tsx:170 | the With-Utility-Bills count is at most the total, and zero exactly when no record has a named bill |
| Admin.DeleteNeverRaisesCounts | src/pages/Admin.tsx:143-170 | a delete never raises either count |
| Admin.StatsOf | src/pages/Admin.tsx:143-170 | the total is the list length and bounds both other cards |
| Admin.StatusColor | src/pages/Admin.tsx:91-97 | green exactly for 'Scheduled', blue exactly for 'New Lead', gray for anything else |
| Admin.StatusesOfTheFunnel | src/pages/Admin.tsx:91-97 | a reviewed lead shows blue; a customer the appointment step updated shows green |
| Admin.DeliveryLabel | src/pages/Admin.tsx:246-250 | no label for a missing or empty value; 'In Person' for 'inperson', 'Virtual' for anything else |
| Admin.DeliveryChoicesLabelled | src/pages/Admin.tsx:250 | the delivery step's two choices show as 'In Person' and 'Virtual' |
| Admin.AdminPage.constructor | src/pages/Admin.tsx:10-12 | empty list, loading, not authenticated |
| Admin.AdminPage.CheckAuthentication | src/pages/Admin.tsx:15-23 | authenticated exactly when the flag reads 'true'; otherwise it redirects to '/admin-login' and the spinner (`ShowsSpinner`) stays |
| Admin.AdminPage.FetchCustomers | src/pages/Admin.tsx:25-37 | an ok list replaces the customers, anything else keeps them; loading ends either way, so the spinner (`ShowsSpinner`, Admin.tsx:99) then shows exactly while unauthenticated |
| Admin.AdminPage.Mount | src/pages/Admin.tsx:15-48 | the check runs, then the first fetch only once authenticated; the spinner (`ShowsSpinner`, Admin.tsx:99) stays exactly when the flag is not set and the page was not already authenticated |
| Admin.AdminPage.HandleLogout | src/pages/Admin.tsx:50-53 | the flag is removed, and it goes to '/admin-login' |
| Admin.AdminPage.DeleteCustomer | src/pages/Admin.tsx:74-89 | declined: no call; confirmed: the delete call, and only an ok response drops the records with that id |
| Credentials.AfterLogin | src/pages/AdminLogin.tsx:14-22 | exact credentials write the flag, anything else leaves the store unchanged |
| Credentials.LogoutThenLogin | src/pages/Admin.tsx:50-53 | after logout the flag is not set, and a new login sets it exactly on the right credentials |
| Credentials.MatchIsExact | src/pages/AdminLogin.tsx:16 | example values of the exact comparison: other case or padding fails |
| Login.AdminLogin.constructor | src/pages/AdminLogin.tsx:10-11 | empty credentials and no error |
| Login.AdminLogin.SetUsername | src/pages/AdminLogin.tsx:63 | editing the username keeps the password |
| Login.AdminLogin.SetPassword | src/pages/AdminLogin.tsx:74 | editing the password keeps the username |
| Login.AdminLogin.HandleLogin | src/pages/AdminLogin.tsx:14-22 | success writes the flag and opens '/admin'; failure shows 'Invalid credentials' with no store change and no navigation |
| Login.AdminLogin.HandlePasswordKeyDown | src/pages/AdminLogin.tsx:76 | Enter makes the same login attempt; any other key does nothing |
| Auth.AdminAuth.constructor | src/components/AdminAuth.tsx:13-14 | empty credentials and no error |
| Auth.AdminAuth.Mount | src/components/AdminAuth.tsx:16-22 | the callback fires exactly when the flag reads 'true' |
| Auth.AdminAuth.SetUsername | src/components/AdminAuth.tsx:58 | editing the username keeps the password |
| Auth.AdminAuth.SetPassword | src/components/AdminAuth.tsx:69 | editing the password keeps the username |
| Auth.AdminAuth.HandleLogin | src/components/AdminAuth.tsx:24-31 | success exactly on the exact credentials: the flag is written and the callback fires; failure shows the error, with no write and no callback |
| Auth.AdminAuth.HandlePasswordKeyDown | src/components/AdminAuth.tsx:71 | Enter makes the same login attempt; any other key does nothing |

## Left out

- **Remote calls.**
  - The HTTP transport, hosts, JSON and multipart encoding, and response bodies are not modelled. A call is the request value a handler returns, and its outcome is an input. An ok response whose body fails to parse is the `Threw` (`ListThrew`) outcome, as the source's `catch` makes it.
  - The utility-bill step sends `location` as a string form field; an address never entered would go as "[object Object]". The model carries the typed location.
- **`isSubmitting` and concurrency.** Async interleaving, stale responses and double submits are not modelled. Each submit is atomic, so `isSubmitting` is seen only before and after a call, where it is false.
- **Scheduling.SchedulingSection.constructor:** the shown month `thisMonth` and the `today` of `HandleDateClick` are separate inputs. The source reads both from the same clock, so the model can show a month that does not hold `today`.
- **Dates and times.** `Date.now()`, ISO timestamps and `new Date()` are parameters: the review step's `id`, `uploadedAt` and `submittedAt` (the two ISO strings of the record, which can differ), and the scheduling step's `today` and `thisMonth`.
  - Days are integer day numbers.
  - The date-fns month grid and day highlighting are not modelled; only the selection rule is.
  - The submitted date is the selected day number, not its ISO string.
- **Floating point.** The progress bars' percentage widths and the admin page's `Math.round` of the file size in KB are not modelled. The wizard's progress is modelled as a numerator and denominator.
- **Browser services.** Routing is reduced to the route a handler returns. `window.confirm` is the `confirmed` input. Also left out: file downloads and blob URLs, the 30-second polling interval, console logging, CSS and animation.
- **Presentational parts.** The screens that only call `onNext`/`onPrev` (hero, education, PPA, comparison, thank-you) appear only as entries of the sections table. The file-input widget is reduced to the `Option<File>` it yields. The disabled states of the name step's and contact step's Continue buttons (PersonalInfoForm.tsx:114, ContactInfoForm.tsx:148) are not modelled; their handlers validate on their own.
- **The cross-tab channel.** The BroadcastChannel transport and delivery to other tabs are not modelled. Posting appends to `outbox`, and delivering a message to this tab is `Receive`.
  - A post on a closed channel is modelled as posting nothing and returning `false`, and `UpdateSolarLeads` stops there, as the exception would.
  - Callbacks that change the registry while a message is being delivered are not modelled.
- **Callback bodies.** Callbacks are identity tokens; what a callback does when called is not modelled.
- **Storage.LeadsIn:** a non-list value stored under `solarLeads` reads as the empty list. The source would spread it; nothing in the core stores such a value.
- **Qualification.QualificationForm.HandlePersonalInfoChange:** an input name other than the five fields would add a new key to the local state in the source. The model leaves the five fields unchanged.
- **Security of the admin credentials.** Making the credentials secure is out of scope. Only the flag transitions are modelled.
- **Where the code differs from the design description, the model follows the code:**
  - The upload step overwrites `customerId` on every ok submit; it is not set only once.
  - The appointment step commits and advances only when a customer id exists and the call is ok.
  - The section table is a fixed twelve-entry list, so there is no empty-table error path.

## Findings

| source | as written | input that shows it | evidently intended | confidence | as-written member | corrected member |
|---|---|---|---|---|---|---|
| src/components/SchedulingSection.tsx:76 | the appointment update is sent to `<host>/<customerId>`, without the `/api/customers/` part that the quiz and delivery updates of the same customer use | any customer id, e.g. "665f1c": the request path is "/665f1c" instead of "/api/customers/665f1c" | the update goes to `/api/customers/<customerId>` like the other updates, so that an ok response can commit the appointment | not executed; high that the path is wrong, and it is likely that the backend then never answers ok, so the visitor cannot get past this step | Scheduling.SchedulePathAsWritten (with Scheduling.SchedulePathMissesTheCustomer) | Scheduling.ScheduleRequest (with Scheduling.ScheduleAddressesTheCustomer) |
