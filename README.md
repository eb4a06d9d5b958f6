# Envoy Media quote wizard, portfolio and quote form in Dafny

This project models the interactive parts of the Envoy Media brochure site:

- **the quote wizard** (`QuoteModal`): a six-step form with these stages:
  - package;
  - property type and address;
  - services;
  - property size;
  - timeline;
  - contact details and submission.

  It keeps a form record, a per-field error record, an in-flight flag and a
  submission status (idle, success or error). Its handlers become the methods
  of class `QuoteModal.Wizard`. Its validators, button gates and e-mail
  parameter record become functions and predicates.
- **the portfolio** (`Portfolio`): a fixed list of six samples, a filter
  tab bar, and a lightbox with circular previous and next buttons.
  Class `Portfolio.Gallery` holds the filter, the open flag and the
  current index.
- **the single-page quote form** (`QuoteForm`): a form record with a
  service checklist. Its submit handler only logs.

Supporting modules:

- `Text` models the JavaScript string built-ins the forms use:
  - `trim` and the `\s` class, using the exact ECMAScript white-space set;
  - `replace(/\D/g, "")`;
  - `join`.
- `Validation` writes the ZIP, e-mail and phone checks out character by
  character. The e-mail test is proved equal to its regular expression.
- `ServiceList` is the shared include/remove toggle.
- `Seqs` defines "is a subsequence of", used for "keeps the original order".

Modelling choices:

- Timers (`setTimeout`) become returned flags: `advanceScheduled` and
  `closeScheduled`.
- The two `emailjs.send` calls become boolean inputs, one per send, saying
  whether it succeeded. `HandleSubmit` returns the dispatches it attempted,
  in order.
- The keys of the validation-error record are the enum `QuoteModal.Field`.
  Its constructors name the form fields the source uses as keys.

Two behaviours of the source are kept as written:

- The package table is keyed `"Essential"`, `"Professional"` and
  `"Premium"`. The five package buttons pass `"… Package"` names, so
  choosing a package always empties the service list.
  See `PackageButtonsPrefillNothing` and `PackageButtonClearsServices`.
- The ZIP code's emptiness test trims, but its pattern test sees the raw
  value. A correct ZIP code typed with a leading blank passes the first
  check and fails the second.
  See `ZipPaddedRejected`.

Closing the modal does not reset the wizard: the component only renders
nothing (src/components/QuoteModal.tsx:470). `resetForm` runs only from the
timer that follows a successful submission
(src/components/QuoteModal.tsx:331-334).

## Model

| member | source | states |
|---|---|---|
| Text.IsSpace | src/components/QuoteModal.tsx:174 | the characters `trim()` strips and `\s` matches: exactly the ECMAScript white space and line terminators |
| Text.Trim | src/components/QuoteModal.tsx:174 | `trim()`: the result is empty exactly when the input is all white space, it neither starts nor ends with white space, and it is no longer than the input |
| Text.TrimIsSlice | src/components/QuoteModal.tsx:174 | the trimmed string is a contiguous slice of the input, and everything before and after that slice is white space |
| Text.TrimIdempotent | src/components/QuoteModal.tsx:174 | trimming a trimmed string changes nothing |
| Text.IsBlank | src/components/QuoteModal.tsx:174 | the `!x.trim()` test: the string consists of white space only |
| Text.BlankIsTrimmedEmpty | src/components/QuoteModal.tsx:174-186 | the `!x.trim()` test holds exactly when the string is all white space |
| Text.Digits | src/components/QuoteModal.tsx:259 | `replace(/\D/g, "")` yields only digits and is no longer than its input |
| Text.DigitsKeepsDigits | src/components/QuoteModal.tsx:259 | every digit of the input is kept, exactly as often as it occurs |
| Text.DigitsKeepsOrder | src/components/QuoteModal.tsx:259 | the kept digits are a subsequence of the input, so they keep the input's order |
| Text.DigitsAppend | src/components/QuoteModal.tsx:259 | stripping non-digits distributes over concatenation |
| Text.DigitsFromSource | src/components/QuoteModal.tsx:259 | every digit kept comes from the input |
| Text.Join | src/components/QuoteModal.tsx:309 | `join` of no labels is empty, and of one label is that label |
| Text.IndexOf | src/components/QuoteModal.tsx:275 | the first position of a character, or the length when it is absent |
| Text.SplitJoinRoundTrip | src/components/QuoteModal.tsx:309 | a non-empty list of comma-free labels can be read back exactly from its `", "` join |
| Validation.ZipShape | src/components/QuoteModal.tsx:188 | the pattern `^\d{5}(-\d{4})?$`: five digits, or five digits, a hyphen and four digits |
| Validation.ZipShapeNotBlank | src/components/QuoteModal.tsx:186-189 | a ZIP code matching `^\d{5}(-\d{4})?$` is never blank, so "required" and "invalid" never both apply |
| Validation.ZipExamples | src/components/QuoteModal.tsx:188 | five digits and ZIP+4 pass; four digits, a short +4 part and a letter fail |
| Validation.ZipPaddedRejected | src/components/QuoteModal.tsx:186-189 | " 33601" is not blank and trims to a valid code, yet the raw pattern test rejects it |
| Validation.EmailShape | src/components/QuoteModal.tsx:275 | the e-mail test as a character check: no white space, a first `@` with something before it and no `@` after it, and after it a dot that is neither first nor last |
| Validation.EmailShapeIff | src/components/QuoteModal.tsx:275 | the character-level e-mail test holds exactly when `^[^\s@]+@[^\s@]+\.[^\s@]+$` matches, in both directions |
| Validation.EmailShapeNotBlank | src/components/QuoteModal.tsx:273-276 | an address that matches has at least five characters and is never blank |
| Validation.EmailAccepted | src/components/QuoteModal.tsx:275 | "jo@ex.com" matches |
| Validation.EmailRejectedNoAt | src/components/QuoteModal.tsx:275 | every address without `@` fails, "not-an-email" among them |
| Validation.EmailRejectedNoDot | src/components/QuoteModal.tsx:275 | every address with no dot after its first `@` fails, "jo@ex" among them |
| Validation.EmailRejectedBlank | src/components/QuoteModal.tsx:275 | every address with white space anywhere in it fails, "j o@ex.com" among them |
| Validation.ValidatePhone | src/components/QuoteModal.tsx:257-261 | `validatePhone`: at least ten digits remain once every non-digit is removed |
| Validation.ValidatePhoneNotBlank | src/components/QuoteModal.tsx:279-282 | a phone number with ten digits is never blank |
| Validation.ValidatePhoneIgnoresFormatting | src/components/QuoteModal.tsx:257-261 | inserting a non-digit anywhere never changes `validatePhone`'s verdict |
| Validation.PhoneAccepted | src/components/QuoteModal.tsx:257-261 | "(813) 555-0100" passes |
| Validation.PhoneRejected | src/components/QuoteModal.tsx:257-261 | "555-0100" (seven digits) fails |
| ServiceList.RemoveAll | src/components/QuoteModal.tsx:205 | `filter((s) => s !== service)`: the label is gone and every other label stays a member |
| ServiceList.Toggle | src/components/QuoteModal.tsx:204-206 | the clicked label's membership flips and no other label's membership changes |
| ServiceList.RemoveAllKeepsOrder | src/components/QuoteModal.tsx:205 | removal keeps the other labels in their relative order |
| ServiceList.RemoveAllCounts | src/components/QuoteModal.tsx:205 | removal drops every occurrence of the label and no other element |
| ServiceList.RemoveAllAbsent | src/components/QuoteModal.tsx:205 | removing an absent label changes nothing |
| ServiceList.ToggleTwiceAbsent | src/components/QuoteModal.tsx:204-206 | an unselected label is appended at the end, and clicking it again restores the list |
| ServiceList.ToggleTwicePresent | src/components/QuoteModal.tsx:204-206 | clicking a selected label twice removes all its copies and puts one at the end |
| ServiceList.ToggleKeepsNoDuplicates | src/components/QuoteModal.tsx:201-208 | a list without repeated labels stays without repeated labels |
| QuoteModal.EmptyForm | src/components/QuoteModal.tsx:106-124 | the reset record has every string empty and no services |
| QuoteModal.NextStep | src/components/QuoteModal.tsx:154 | `min(step + 1, 6)` stays in [1, 6] and is one more than the step unless it is clamped at 6 |
| QuoteModal.PreviousStep | src/components/QuoteModal.tsx:159 | `max(step - 1, 1)` stays in [1, 6] and is one less than the step unless it is clamped at 1 |
| QuoteModal.StepMovesInverse | src/components/QuoteModal.tsx:152-160 | Back undoes Next below step 6 and Next undoes Back above step 1; both saturate at the ends |
| QuoteModal.NextStepsClamped | src/components/QuoteModal.tsx:152-155 | k presses of Next from any step land on `min(step + k, 6)` |
| QuoteModal.PackageServices | src/components/QuoteModal.tsx:133-147 | a known package name yields its non-empty table entry, and any other name yields the empty list; no entry repeats a label |
| QuoteModal.PackageButtonsPrefillNothing | src/components/QuoteModal.tsx:528-737 | none of the five names the buttons pass is a table key, so each yields the empty list |
| QuoteModal.WithPackage | src/components/QuoteModal.tsx:144-148 | choosing a package sets the package and the service list and leaves every other field unchanged |
| QuoteModal.PackageButtonClearsServices | src/components/QuoteModal.tsx:144-147 | after any package button the service list is empty and step 3's Next button is disabled |
| QuoteModal.CanProceedFromStep1 | src/components/QuoteModal.tsx:345-350 | the address step's Next button: a type and a state chosen, and street, city and ZIP code not blank |
| QuoteModal.CanProceedFromStep2 | src/components/QuoteModal.tsx:351 | the services step's Next button: at least one service selected |
| QuoteModal.CanProceedFromStep4 | src/components/QuoteModal.tsx:352-355 | the timeline step's Next button: a timeline chosen and, under "Specific Date", a date and a time |
| QuoteModal.CommercialNextEnabled | src/components/QuoteModal.tsx:1097-1100 | the commercial Next button: the size is "Commercial" and the square footage is neither empty nor blank |
| QuoteModal.SubmitEnabled | src/components/QuoteModal.tsx:1385-1387 | the submit button: not while sending and not after a success |
| QuoteModal.CommercialNextNeedsFootage | src/components/QuoteModal.tsx:1094-1104 | the commercial Next button is enabled exactly when the size is "Commercial" and the square footage has a non-white-space character |
| QuoteModal.AddressErrors | src/components/QuoteModal.tsx:168-190 | the address step's error record, built field by field in the source's order with its messages |
| QuoteModal.AddressErrorsReport | src/components/QuoteModal.tsx:168-190 | the address step reports exactly these fields: an empty type or state, a blank street or city, and a ZIP code not matching the pattern; a blank ZIP says "required" and any other bad ZIP says "invalid" |
| QuoteModal.AddressFieldsReport | src/components/QuoteModal.tsx:170-184 | type, street, city and state are reported exactly when missing, and no field outside the step is reported |
| QuoteModal.AddressZipReport | src/components/QuoteModal.tsx:186-190 | the ZIP code is reported exactly when it does not match, with the message chosen by blankness |
| QuoteModal.AddressAcceptedEnablesNext | src/components/QuoteModal.tsx:345-350 | an address the validator accepts also enables the Next button |
| QuoteModal.FourDigitZipEnabledButRejected | src/components/QuoteModal.tsx:186-190 | with ZIP "3360" the Next button is enabled but the only error reported is the invalid-ZIP message |
| QuoteModal.FiveDigitZipAccepted | src/components/QuoteModal.tsx:166-199 | a complete address with a five-digit ZIP code produces no errors |
| QuoteModal.CollectAddressErrors | src/components/QuoteModal.tsx:168-190 | filling the error record field by field yields exactly the record `AddressErrors` describes |
| QuoteModal.TimelineErrors | src/components/QuoteModal.tsx:233-246 | the timeline step's error record, built field by field in the source's order with its messages |
| QuoteModal.TimelineErrorsReport | src/components/QuoteModal.tsx:233-246 | the timeline step reports a missing timeline, and under "Specific Date" a missing date and a missing time, each with its own message, and no other field |
| QuoteModal.TimelineErrorsMatchGate | src/components/QuoteModal.tsx:233-255 | the timeline step's validator finds no error exactly when `canProceedFromStep4` holds |
| QuoteModal.ContactErrors | src/components/QuoteModal.tsx:267-283 | the contact step's error record, built field by field in the source's order with its messages |
| QuoteModal.ContactErrorsReport | src/components/QuoteModal.tsx:267-283 | the contact step reports a blank name, an e-mail that does not match, and a phone without ten digits, with "required" for blank values and "invalid" otherwise, and no other field |
| QuoteModal.ContactNameReport | src/components/QuoteModal.tsx:269-271 | the name is reported exactly when blank |
| QuoteModal.ContactEmailReport | src/components/QuoteModal.tsx:273-277 | the e-mail is reported exactly when it does not match, with the message chosen by blankness |
| QuoteModal.ContactPhoneReport | src/components/QuoteModal.tsx:279-283 | the phone is reported exactly when `validatePhone` fails, with the message chosen by blankness |
| QuoteModal.ContactErrorsEmptyIff | src/components/QuoteModal.tsx:267-288 | the contact step passes exactly when the name is non-blank, the e-mail matches and the phone has ten digits |
| QuoteModal.EmailWithoutAtReported | src/components/QuoteModal.tsx:273-277 | a non-blank address without `@` is reported as invalid, not as missing |
| QuoteModal.CollectContactErrors | src/components/QuoteModal.tsx:267-283 | filling the error record field by field yields exactly the record `ContactErrors` describes |
| QuoteModal.WithTimeline | src/components/QuoteModal.tsx:219-225 | a timeline choice sets the timeline, clears date, time and deadline, and leaves every other field unchanged |
| QuoteModal.TimelineAutoAdvances | src/components/QuoteModal.tsx:226 | the timeline choices that advance by themselves: all but "Specific Date" and "Flexible / Not urgent" |
| QuoteModal.SizeAutoAdvances | src/components/QuoteModal.tsx:213 | the size choices that advance by themselves: all but "Commercial" |
| QuoteModal.TimelineChoiceGate | src/components/QuoteModal.tsx:218-229 | right after a timeline choice, Next is enabled exactly when the choice is not "Specific Date" |
| QuoteModal.SizeChoiceGate | src/components/QuoteModal.tsx:210-216 | an auto-advancing size has no Next button, and after "Commercial" Next is enabled exactly when a square footage is entered |
| QuoteModal.BuildTemplateParams | src/components/QuoteModal.tsx:299-317 | the parameter record never has an empty package, because an empty package becomes "Custom"; the services are the list joined with ", " |
| QuoteModal.ServicesReadBack | src/components/QuoteModal.tsx:309 | for any non-empty selection of the offered labels, the joined services field can be split back into the selection |
| QuoteModal.LabelsHaveNoComma | src/components/QuoteModal.tsx:365-369 | no offered service label contains a comma |
| QuoteModal.CustomPackageIndistinguishable | src/components/QuoteModal.tsx:303 | with no package chosen, the record equals the one for a package literally named "Custom" |
| QuoteModal.Dispatches | src/components/QuoteModal.tsx:319-324 | the business notice is always attempted first, and the customer reply is attempted second, only if the notice went |
| QuoteModal.Wizard.constructor | src/components/QuoteModal.tsx:51-79 | the wizard starts on step 1, forward, with the empty record, no errors, idle and not submitting |
| QuoteModal.Wizard.ResetForm | src/components/QuoteModal.tsx:104-129 | `resetForm` restores step 1, the empty record, no errors, idle, not submitting and no message, and leaves the direction unchanged |
| QuoteModal.Wizard.HandleNext | src/components/QuoteModal.tsx:152-155 | the step becomes `min(step + 1, 6)`, the direction becomes forward, and the step stays in [1, 6] |
| QuoteModal.Wizard.HandleBack | src/components/QuoteModal.tsx:157-160 | the step becomes `max(step - 1, 1)`, the direction becomes backward, and the step stays in [1, 6] |
| QuoteModal.Wizard.HandlePackageSelect | src/components/QuoteModal.tsx:132-150 | records the package, replaces the services by the table's entry, and schedules one advance |
| QuoteModal.Wizard.HandlePropertyType | src/components/QuoteModal.tsx:162-164 | only the property type changes |
| QuoteModal.Wizard.HandleStep1Next | src/components/QuoteModal.tsx:166-199 | with any address error, shows exactly the errors and leaves the step, the direction and the form alone; with none, clears the errors and advances one step |
| QuoteModal.Wizard.HandleServiceToggle | src/components/QuoteModal.tsx:201-208 | only the service list changes, by the toggle, and it keeps no repeated label |
| QuoteModal.Wizard.HandlePropertySize | src/components/QuoteModal.tsx:210-216 | only the size changes, and an advance is scheduled exactly when the size is not "Commercial" |
| QuoteModal.Wizard.HandleCommercialNext | src/components/QuoteModal.tsx:1094-1104 | the commercial Next button advances exactly when it is enabled |
| QuoteModal.Wizard.HandleTimeline | src/components/QuoteModal.tsx:218-229 | sets the timeline and clears its sub-fields; an advance is scheduled exactly when the choice is neither "Specific Date" nor "Flexible / Not urgent" |
| QuoteModal.Wizard.HandleStep4Next | src/components/QuoteModal.tsx:231-255 | advances and clears the errors exactly when `canProceedFromStep4` holds; otherwise it shows the timeline errors and stays |
| QuoteModal.Wizard.HandleSubmit | src/components/QuoteModal.tsx:263-343 | with a contact error, shows the errors, sends nothing, and leaves the in-flight flag, status and message alone. Otherwise it sends the notice, then the reply only if the notice went. The status is success only if both went, otherwise error with the fallback message. It is never left in flight. The close is scheduled and the submit button disabled exactly on success |
| Portfolio.OfType | src/components/Portfolio.tsx:84 | `filter((item) => item.type === t)` keeps exactly the items of that kind |
| Portfolio.OfTypeKeepsOrder | src/components/Portfolio.tsx:84 | the filtered items appear in their original order |
| Portfolio.OfTypeCounts | src/components/Portfolio.tsx:84 | each item of the kind occurs as often as in the list, and no other item occurs |
| Portfolio.OfTypeCons | src/components/Portfolio.tsx:84 | the filter decides one item at a time, front to back |
| Portfolio.OfTypeDropsOther | src/components/Portfolio.tsx:84 | a list holding an item of another kind gets strictly shorter |
| Portfolio.FilteredItems | src/components/Portfolio.tsx:81-84 | "all" keeps every item, and any other filter keeps exactly the items of its kind |
| Portfolio.FilteredKeepsOrder | src/components/Portfolio.tsx:81-84 | under every filter the grid is an order-keeping selection that keeps each selected item's multiplicity |
| Portfolio.PhotosTab | src/components/Portfolio.tsx:15-84 | the "Photos" tab shows "Luxury Estate Photography" then "Downtown Condo" |
| Portfolio.TabsNarrow | src/components/Portfolio.tsx:15-84 | every tab but "All" shows fewer than six samples, and "Videos" shows only videos |
| Portfolio.NextIndex | src/components/Portfolio.tsx:101-105 | `goToNext` keeps a valid index valid |
| Portfolio.PreviousIndex | src/components/Portfolio.tsx:95-99 | `goToPrevious` keeps a valid index valid |
| Portfolio.NavigationInverse | src/components/Portfolio.tsx:95-105 | previous undoes next and next undoes previous on every valid index |
| Portfolio.NextIndexIteratedWraps | src/components/Portfolio.tsx:101-105 | k ≤ len presses of next move k places, wrapping past the end at most once |
| Portfolio.NextIndexFullCircle | src/components/Portfolio.tsx:101-105 | len presses of next return to the starting item |
| Portfolio.SingleItemFixed | src/components/Portfolio.tsx:95-105 | with one item both buttons stay on index 0 |
| Portfolio.ItemAt | src/components/Portfolio.tsx:107 | `filteredItems[currentImageIndex]` exists exactly for an index in range, and is then an item of the list |
| Portfolio.OverlayVisible | src/components/Portfolio.tsx:180 | `lightboxOpen && currentItem`: the overlay shows exactly when the lightbox is open on an index inside the filtered list |
| Portfolio.NavigationVisible | src/components/Portfolio.tsx:194-207 | on a non-empty list the arrows show exactly when no item is its own successor, that is, when there are at least two items |
| Portfolio.Counter | src/components/Portfolio.tsx:247 | the counter reads one more than the index, over the list length, so for a valid index it lies between 1 and the total |
| Portfolio.CounterFollowsNavigation | src/components/Portfolio.tsx:247 | next raises the counter by one and wraps from the total to 1; previous lowers it by one and wraps from 1 to the total |
| Portfolio.NavigationKeepsOverlay | src/components/Portfolio.tsx:180-217 | while the overlay and the arrows show, either arrow keeps the overlay up and moves to a different item |
| Portfolio.PreviousOnEmptyLeavesList | src/components/Portfolio.tsx:95-107 | on an empty list `goToPrevious` yields -1, where no item exists |
| Portfolio.Gallery.Items | src/components/Portfolio.tsx:81-84 | the grid under the current filter: exactly the list's items of the chosen kind, or all of them under "all" |
| Portfolio.Gallery.constructor | src/components/Portfolio.tsx:77-79 | starts on "all", closed, at index 0, showing the whole list |
| Portfolio.Gallery.SetActiveFilter | src/components/Portfolio.tsx:127 | a tab click sets the filter and nothing else |
| Portfolio.Gallery.OpenLightbox | src/components/Portfolio.tsx:86-89 | sets the index and opens the lightbox; for a tile's index the overlay is visible |
| Portfolio.Gallery.CloseLightbox | src/components/Portfolio.tsx:91-93 | only the open flag changes, and the overlay is hidden |
| Portfolio.Gallery.GoToPrevious | src/components/Portfolio.tsx:95-99 | the index steps back circularly and stays in range |
| Portfolio.Gallery.GoToNext | src/components/Portfolio.tsx:101-105 | the index steps forward circularly and stays in range |
| QuoteForm.InitialForm | src/components/QuoteForm.tsx:6-14 | every string field is empty and the service list is empty |
| QuoteForm.FormToggleEffect | src/components/QuoteForm.tsx:22-28 | an absent service is appended at the end; a present one loses every occurrence while the others keep their counts |
| QuoteForm.Form.constructor | src/components/QuoteForm.tsx:6-14 | the form starts from the initial record |
| QuoteForm.Form.HandleServiceToggle | src/components/QuoteForm.tsx:22-28 | only the service list changes, by the toggle, and it keeps no repeated label |
| QuoteForm.Form.HandleSubmit | src/components/QuoteForm.tsx:16-20 | changes no state and hands over the current record to the console log |

## Left out

- The e-mail service is a foreign asynchronous network call. `emailjs.init` is not modelled, and each `emailjs.send` is a success/failure input.
- Timers are not modelled. The auto-advance after a choice and the three-second close after a successful send are returned flags; time itself is not modelled.
- The close callback after success (`resetForm` and `onClose`) is left to the caller. It would call `Wizard.ResetForm` when `closeScheduled` holds.
- Asynchronous interleaving is not modelled. Between the two sends the user could edit the form or press the button again, but the model treats `HandleSubmit` as one atomic step.
- The console logs are not modelled, except that `QuoteForm.Form.HandleSubmit` returns the logged record.
- DOM effects are not modelled: the Escape-key listener, body scrolling, and the backdrop click that closes the modal.
- Date fields are not modelled. Today's date and the three-month limit come from the wall clock, and only HTML `min`/`max` attributes enforce them, not code.
- Inline `onChange` setters of the text inputs, date pickers and selects are not modelled. They assign one field of the record each.
- Stale closures are not modelled. Handlers that spread `formData` read it when the click happens; the model always uses the current state.
- Rendering, markup, styling, icons and the static sections of the site (navigation bar, hero, services, packages, testimonials, footer) are not modelled.
- QuoteModal.PackageServices does not model JavaScript's inherited object keys. A name such as "constructor" would find a prototype member in the table instead of nothing; no button passes such a name.
- Portfolio.Gallery.OpenLightbox accepts any index. The source passes only the index of a rendered tile, and the overlay is guaranteed only for such an index.
- Text.IsSpace works on Unicode scalar values. A lone UTF-16 surrogate, which a JavaScript string may hold, has no counterpart.
