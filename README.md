# IWR Lojas point of sale, modelled in Dafny

IWR Lojas is a small store front end. It keeps customers and promissory
notes ("notas promissórias", sales on credit) in the browser's storage and
offers these screens:

- a point-of-sale screen that turns a cart into a new PENDING note;
- a portfolio of notes with a search, a status filter and a due-date
  calendar;
- a dashboard;
- a customer list with a details panel;
- a note modal that charges the customer over WhatsApp and confirms
  payment.

The model covers:

- the storage service (`Storage`): a `Store` class whose fields are the
  two stored collections, and whose methods read the collection, search it
  linearly, change it and write it back. Each method is specified by a
  function on the abstract `Snapshot` of the two keys, and the lemmas are
  stated about those functions;
- the computations and handlers of every page and modal that builds on it
  (`Dashboard`, `NotesPage`, `PointOfSale`, `CustomersPage`,
  `CustomerDetails`, `NoteModal`);
- the shared sums over notes (`Ledger`);
- the sequence operations the pages use (`Collections`: `filter`, the
  `reduce` sum, `findIndex`, a stable `sort`);
- a little string handling (`Text`).

Modelling choices:

- Amounts are whole cents (`int`). The mean ticket is an exact `real`.
- Instants are milliseconds (`int`). A calendar day is `instant / MsPerDay`.
- Identifiers, "now", the parsed price, the `confirm` answer and the
  encoded WhatsApp text are parameters.
- A stored record that lacks `isVip` or `whatsappSent` is modelled with the
  field `false`. Under JavaScript truthiness this behaves the same.

The Dashboard's "latest movements" list shows the first four notes in
storage order. Storage appends new notes at the end, so once four notes
exist a new sale never shows there (`Dashboard.RecentIgnoresNewSales`).
This is modelled as the code does it.

## Model

| member | source | states |
|---|---|---|
| Collections.Filter | services/storageService.ts:45 | the result is no longer than the input and holds exactly the input elements that pass |
| Collections.FilterMultiset | pages/POS.tsx:177 | filtering keeps each passing element as often as it occurs and drops every other |
| Collections.FindIndex | services/storageService.ts:31 | the loop returns the index of the first match, or -1 when nothing matches (`FirstIndex`) |
| Collections.FirstIndex | services/storageService.ts:58 | -1 exactly when no element matches; otherwise the index matches and no earlier element does |
| Collections.FirstIndexUpdate | services/storageService.ts:58-60 | overwriting an element with one the search judges alike leaves the first match where it was |
| Collections.SortBy | services/storageService.ts:45-47 | the result is a permutation of the input, ordered by the key |
| Collections.SortStable | pages/Notes.tsx:72 | elements with equal keys keep their relative order through the sort |
| Collections.SumFilterSplit | pages/Dashboard.tsx:11-13 | the sums over a filter and over its complement add up to the whole sum |
| Collections.SumFilterUnion | pages/Notes.tsx:281-285 | the sums over two disjoint filters add up to the sum over their union |
| Collections.SumFilterBounded | components/CustomerDetailsModal.tsx:19-22 | with non-negative terms a filtered sum lies between 0 and the whole sum |
| Collections.SumUpdate | components/PromissoryNoteModal.tsx:31 | replacing one element changes the sum by the difference of the old and new terms |
| Collections.FilterLengthUpdate | pages/Dashboard.tsx:12 | replacing one element with one the filter judges alike keeps the filtered length |
| Text.Digits | components/PromissoryNoteModal.tsx:17 | `replace(/\D/g, '')` leaves only decimal digits, each digit of the input as often as it occurs, and no more characters than the input |
| Text.DigitsConcat | components/PromissoryNoteModal.tsx:17 | the digits of a concatenation are the digits of the first part followed by those of the second, and one character survives exactly when it is a digit; so the digits keep their input order |
| Text.DigitsOfDigits | components/PromissoryNoteModal.tsx:17 | stripping non-digits from an all-digit string changes nothing |
| Text.ToLower | pages/Notes.tsx:63 | in the ASCII model of `toLowerCase`: no capital letter is left, each capital becomes its small letter at the same position, and every other character is unchanged |
| Text.ToLowerIdempotent | pages/Customers.tsx:37 | lower-casing an already lower-cased string changes nothing |
| Text.StartsWith | components/PromissoryNoteModal.tsx:18 | definition of `startsWith`; its use is stated by NoteModal.NormalizedPhone |
| Text.Contains | pages/Customers.tsx:37 | definition of `includes`; its laws are in Text.ContainsEmpty and CustomersPage.SavedCustomerFoundByName |
| Text.ContainsEmpty | pages/Customers.tsx:36-38 | every string includes the empty string, so an empty search matches |
| Domain.DayAddDays | pages/POS.tsx:27 | moving an instant by n days moves its calendar day by n |
| Ledger.TotalAmount | pages/Dashboard.tsx:13 | definition of the `reduce` total; its laws are in Ledger.TotalAppend and Ledger.UnpaidPlusPaid |
| Ledger.UnpaidTotal | pages/Dashboard.tsx:11 | definition of the non-PAID sum; its laws are in Ledger.UnpaidPlusPaid, Ledger.PendingPlusOverdue and Ledger.UnpaidBounded |
| Ledger.StatusTotal | pages/Notes.tsx:281-285 | definition of the sum over one status; its laws are in Ledger.PendingPlusOverdue |
| Ledger.StatusCount | pages/Dashboard.tsx:12 | the count of notes with a status is at most the number of notes, and 0 exactly when none has it; its value, the number of notes with the status, is fixed by Ledger.StatusCountAppend |
| Ledger.StatusCountAppend | pages/Dashboard.tsx:12 | no notes count 0, and appending a note adds one exactly when it has the status, so the count is the number of notes with that status |
| Ledger.UnpaidPlusPaid | pages/Dashboard.tsx:11-13 | the non-PAID sum plus the PAID sum is the total |
| Ledger.PendingPlusOverdue | pages/Notes.tsx:281-285 | the PENDING sum plus the OVERDUE sum is the non-PAID sum |
| Ledger.UnpaidBounded | components/CustomerDetailsModal.tsx:20-22 | with non-negative amounts the non-PAID sum lies between 0 and the total |
| Ledger.TotalAppend | services/storageService.ts:50-54 | appending a note adds its amount to the total |
| Ledger.UnpaidUpdate | services/storageService.ts:56-63 | replacing one note changes the non-PAID sum by the non-PAID parts of the old and new note |
| Seed.MockCustomers | constants.ts:5-24 | definition of the sample customers; their shape is stated by Seed.SeedShape |
| Seed.MockNotes | constants.ts:33-60 | definition of the sample notes; their shape is stated by Seed.SeedShape |
| Seed.SeedShape | constants.ts:5-60 | two non-VIP customers and two notes: PENDING due tomorrow and OVERDUE due yesterday, each owned by its customer |
| Storage.CustomersOf | services/storageService.ts:18-21 | definition of the stored customer list, none for an absent key; used by Storage.Store.GetCustomers |
| Storage.NotesOf | services/storageService.ts:38-41 | definition of the stored note list, none for an absent key; used by Storage.Store.GetNotes |
| Storage.InitSpec | services/storageService.ts:9-16 | definition of `init` on the two keys; its laws are in Storage.InitSeedsOnlyAbsentKeys, Storage.InitIdempotent and Storage.InitFromEmpty |
| Storage.AddCustomerSpec | services/storageService.ts:23-27 | definition of `addCustomer`; its law is Storage.AddCustomerAppends |
| Storage.ToggleVipSpec | services/storageService.ts:29-36 | definition of `toggleCustomerVip`; its laws are in Storage.ToggleVipChangesOnlyFirstMatch, Storage.ToggleVipUnknownId and Storage.ToggleVipTwice |
| Storage.AddNoteSpec | services/storageService.ts:50-54 | definition of `addNote`; its law is Storage.AddNoteAppends |
| Storage.UpdateStatusSpec | services/storageService.ts:56-63 | definition of `updateNoteStatus`; its laws are in Storage.UpdateStatusChangesOnlyFirstMatch, Storage.UpdateStatusUnknownId and Storage.PaidToPendingAllowed |
| Storage.MarkSentSpec | services/storageService.ts:65-72 | definition of `markWhatsappSent`; its laws are in Storage.MarkSentChangesOnlyFirstMatch, Storage.MarkSentUnknownId and Storage.MarkSentIdempotent |
| Storage.NotesByCustomer | services/storageService.ts:43-48 | exactly the customer's notes, as a multiset, newest issue date first |
| Storage.NotesByCustomerStable | services/storageService.ts:45-47 | a customer's notes issued at the same instant keep their stored order |
| Storage.InitSeedsOnlyAbsentKeys | services/storageService.ts:9-16 | `init` seeds each absent key with the sample data and leaves a present key untouched |
| Storage.InitIdempotent | services/storageService.ts:9-16 | a second `init`, at any later instant, changes nothing |
| Storage.InitFromEmpty | services/storageService.ts:9-16 | on an empty store `init` yields the sample customers and notes |
| Storage.AddCustomerAppends | services/storageService.ts:23-27 | the customer list grows by one, keeps its old prefix, ends with the new customer, and the notes are untouched |
| Storage.AddNoteAppends | services/storageService.ts:50-54 | the note list grows by one, keeps its old prefix, ends with the new note, and the customers are untouched |
| Storage.ToggleVipChangesOnlyFirstMatch | services/storageService.ts:29-36 | only the first customer with the id has `isVip` flipped; all other customers and fields are unchanged |
| Storage.ToggleVipUnknownId | services/storageService.ts:32 | toggling an id no customer has changes nothing |
| Storage.ToggleVipTwice | services/storageService.ts:29-36 | toggling twice restores the store |
| Storage.UpdateStatusChangesOnlyFirstMatch | services/storageService.ts:56-63 | only the first note with the id gets the new status; everything else is unchanged |
| Storage.UpdateStatusUnknownId | services/storageService.ts:59 | an unknown id changes nothing |
| Storage.PaidToPendingAllowed | services/storageService.ts:56-63 | there is no transition check: a PAID note can be set back to PENDING |
| Storage.MarkSentChangesOnlyFirstMatch | services/storageService.ts:65-72 | only the first note with the id is flagged as reminded; everything else is unchanged |
| Storage.MarkSentUnknownId | services/storageService.ts:68 | an unknown id changes nothing |
| Storage.MarkSentIdempotent | services/storageService.ts:65-72 | flagging twice is flagging once |
| Storage.MutatorsKeepIds | services/storageService.ts:29-72 | the in-place mutators never change the ids or the length of a collection |
| Storage.Store.constructor | services/storageService.ts:4-5 | the store starts from whatever the two keys hold |
| Storage.Store.Init | services/storageService.ts:9-16 | the new state is `InitSpec` of the old one |
| Storage.Store.GetCustomers | services/storageService.ts:18-21 | returns the stored customers, or none when the key is absent |
| Storage.Store.AddCustomer | services/storageService.ts:23-27 | the new state is `AddCustomerSpec` of the old one |
| Storage.Store.ToggleCustomerVip | services/storageService.ts:29-36 | the new state is `ToggleVipSpec` of the old one |
| Storage.Store.GetNotes | services/storageService.ts:38-41 | returns the stored notes, or none when the key is absent |
| Storage.Store.GetNotesByCustomerId | services/storageService.ts:43-48 | returns `NotesByCustomer` of the stored notes |
| Storage.Store.AddNote | services/storageService.ts:50-54 | the new state is `AddNoteSpec` of the old one |
| Storage.Store.UpdateNoteStatus | services/storageService.ts:56-63 | the new state is `UpdateStatusSpec` of the old one |
| Storage.Store.MarkWhatsappSent | services/storageService.ts:65-72 | the new state is `MarkSentSpec` of the old one |
| NoteModal.NormalizedPhone | components/PromissoryNoteModal.tsx:17-18 | the number dialled is all digits and starts with 55; it equals the stripped phone exactly when that already starts with 55, and is 55 + the stripped phone otherwise |
| NoteModal.NormalizePhone | components/PromissoryNoteModal.tsx:17-18 | the step-by-step reassignment computes `NormalizedPhone` |
| NoteModal.NormalizeIdempotent | components/PromissoryNoteModal.tsx:17-18 | normalising a normalised number changes nothing |
| NoteModal.QueryStartsAfterPhone | components/PromissoryNoteModal.tsx:22 | for an all-digit phone, the first `?` of `phone?text=…` is the one right after the phone |
| NoteModal.WhatsAppUrl | components/PromissoryNoteModal.tsx:22 | definition of the `wa.me` link; its law is NoteModal.WhatsAppUrlInjective |
| NoteModal.WhatsAppUrlInjective | components/PromissoryNoteModal.tsx:22 | the link determines both the number and the encoded text |
| NoteModal.ChargeOnWhatsApp | components/PromissoryNoteModal.tsx:16-27 | returns the link to the normalised number and flags the note as reminded (`MarkSentSpec`) |
| NoteModal.MarkAsPaid | components/PromissoryNoteModal.tsx:29-35 | on confirmation the note becomes PAID and the modal closes; on cancel nothing changes |
| NoteModal.ConfirmReceiptOffered | components/PromissoryNoteModal.tsx:104 | definition of when the confirm button shows; its law is NoteModal.MarkAsPaidSettlesNote |
| NoteModal.MarkAsPaidSettlesNote | components/PromissoryNoteModal.tsx:104 | after payment the note no longer offers the confirm button, and its amount leaves the unpaid sum |
| CustomerDetails.History | components/CustomerDetailsModal.tsx:15 | no customer gives no notes; otherwise the customer's notes, each as often as it is stored, newest first; it is `Storage.NotesByCustomer`, so notes issued at the same instant keep their stored order (Storage.NotesByCustomerStable) |
| CustomerDetails.Stats | components/CustomerDetailsModal.tsx:18-26 | total spent is the sum of the history; open debt plus the PAID sum is the total; with non-negative amounts 0 <= open debt <= total; the mean is `Mean` of total and count |
| CustomerDetails.Mean | components/CustomerDetailsModal.tsx:23 | 0 for no notes; otherwise the mean times the count is the total |
| CustomerDetails.AddNoteRaisesTotalSpent | components/CustomerDetailsModal.tsx:19 | a new note raises its owner's total spent by its amount and no one else's |
| Domain.ToggleTwice | components/CustomerDetailsModal.tsx:30-32 | expanding then collapsing the same note, or the same day, leaves nothing chosen; from that choice two toggles return to it |
| CustomerDetails.WhatsAppTargetAsWritten | components/CustomerDetailsModal.tsx:53 | the number dialled as written: 55 in front of the stripped phone, always |
| CustomerDetails.WhatsAppTargetDoublesPrefix | components/CustomerDetailsModal.tsx:53 | for a number already starting with 55, the code as written dials 55 twice, while the normalisation keeps the number |
| CustomerDetails.SeedPhoneHasCountryCode | constants.ts:10 | the first sample customer's phone is all digits and already starts with 55 |
| CustomerDetails.SeedContactDoublesPrefix | components/CustomerDetailsModal.tsx:52-55 | for the first sample customer the details panel dials 55 + 5511999999999 |
| CustomerDetails.ContactLink | components/CustomerDetailsModal.tsx:52-55 | the corrected link: the normalised number of the note modal, which adds 55 only when it is missing |
| CustomerDetails.StatusLabel | components/CustomerDetailsModal.tsx:239 | definition of the badge text; its law is CustomerDetails.StatusLabelInjective |
| CustomerDetails.StatusLabelInjective | components/CustomerDetailsModal.tsx:239 | the badge texts PAGO / VENCIDO / PENDENTE tell the statuses apart |
| Dashboard.ComputeStats | pages/Dashboard.tsx:10-15 | pending is the non-PAID sum and adds to the PAID sum to give the sales total; the overdue count is `StatusCount` of OVERDUE, the number of OVERDUE notes by Ledger.StatusCountAppend, and 0 exactly when there are none; the customer count is the list length |
| Dashboard.StatsIgnoreDates | pages/Dashboard.tsx:11-14 | moving any note's issue and due dates changes no figure: the sales total has no month filter, and overdue is the stored status only |
| Dashboard.NewSaleRaisesFigures | pages/Dashboard.tsx:11-13 | a new PENDING note raises pending and the sales total by its amount and leaves the overdue count |
| Dashboard.Recent | pages/Dashboard.tsx:88 | the first min(4, n) notes, in storage order |
| Dashboard.RecentIgnoresNewSales | pages/Dashboard.tsx:88 | with four notes stored, a newly appended note does not change the list |
| Dashboard.StatusLabel | pages/Dashboard.tsx:102 | definition of the label; its law is Dashboard.StatusLabelInjective |
| Dashboard.StatusLabelInjective | pages/Dashboard.tsx:102 | the labels Pago / Vencido / Pendente tell the statuses apart |
| NotesPage.DueDates | pages/Notes.tsx:35-44 | the loop collects exactly the days on which some non-PAID note falls due |
| Domain.Toggle | pages/Notes.tsx:46-53 | `handleDateClick`, and `toggleNote` of components/CustomerDetailsModal.tsx:30-32: choosing the current choice clears it, choosing anything else selects that |
| NotesPage.FilteredNotes | pages/Notes.tsx:62-72 | exactly the notes whose name (ignoring case) or id contains the term, whose status passes the tab and whose due day is the selected one; a permutation of the filter, earliest due first |
| NotesPage.FilteredNotesStable | pages/Notes.tsx:72 | notes due at the same instant keep their stored order |
| NotesPage.FilteredNotesIgnoresHidden | pages/Notes.tsx:62-71 | storing a note the filters reject leaves the list unchanged |
| NotesPage.NoFilterListsAll | pages/Notes.tsx:62-71 | an empty search with ALL and no day lists every note |
| NotesPage.SelectedDayListsWholeDay | pages/Notes.tsx:63-70 | with a day selected, every note due on that day that the search and the tab let through is listed whatever its time of day, so two such notes due at different hours both appear |
| NotesPage.DayDisabled | pages/Notes.tsx:234-242 | definition of the day button's `disabled` test on the set of due days; DueDates's `ensures d in days <==> HasOpenNoteDueOn(ns, d)` makes that set the source's `dueDatesMap`, and NotesPage.EnabledDayShowsItsNote states its use |
| NotesPage.EnabledDayShowsItsNote | pages/Notes.tsx:234-242 | given the due-day set that DueDates builds, a day that is enabled and not yet selected gets selected on click, and then, with an empty search and the ALL tab, the list shows an open note due that day |
| NotesPage.MonthSummary | pages/Notes.tsx:281-285 | "to receive" is over PENDING notes and "in arrears" over OVERDUE notes; together they are the non-PAID sum; both are non-negative with non-negative amounts |
| NotesPage.SettlingLeavesSummary | pages/Notes.tsx:281-285 | paying a note removes its amount from the summary |
| PointOfSale.SelectCustomer | pages/POS.tsx:80 | a customer of the list with the chosen id, and no earlier customer has that id, so it is the first even when ids repeat; none exactly when no customer has it |
| PointOfSale.AddToCart | pages/POS.tsx:16-21 | with an empty description or price nothing changes; otherwise one item of quantity 1 is appended and both fields are cleared |
| PointOfSale.CartTotal | pages/POS.tsx:23 | definition of the cart total; its laws are in PointOfSale.CartTotalAppend and PointOfSale.CartTotalIgnoresQuantity |
| PointOfSale.CartTotalAppend | pages/POS.tsx:23 | the empty cart totals 0, and each added item adds its price |
| PointOfSale.CartTotalIgnoresQuantity | pages/POS.tsx:23 | the quantity does not enter the total |
| PointOfSale.AddToCartRaisesTotal | pages/POS.tsx:16-23 | adding an item raises the total by its price |
| PointOfSale.RemoveItem | pages/POS.tsx:177 | every item with the id is dropped, every other item kept as often as it occurred; the order is stated by PointOfSale.RemoveItemConcat |
| PointOfSale.RemoveItemConcat | pages/POS.tsx:177 | removing from two pieces and joining is removing from the whole, and one item stays exactly when its id differs; so the kept items stay in cart order |
| PointOfSale.RemoveUndoesAdd | pages/POS.tsx:177 | removing a just-added item with a fresh id gives the old cart back |
| PointOfSale.RemoveUnknownId | pages/POS.tsx:177 | removing an id not in the cart changes nothing |
| PointOfSale.CheckoutNote | pages/POS.tsx:27-32 | PENDING, not reminded, the customer's id, name, cpf and phone, the cart as items, the cart total as amount, due 30 days after issue |
| PointOfSale.Checkout | pages/POS.tsx:25-37 | without a customer nothing changes; otherwise exactly one note is stored, it is shown, the view becomes SUCCESS and the cart is emptied |
| PointOfSale.CheckoutAddsOneNote | pages/POS.tsx:33 | the stored notes gain exactly the new note, the unpaid sum grows by the cart total, and the customers stay |
| PointOfSale.CheckoutEnabled | pages/POS.tsx:195 | definition of when the finish button is enabled; its law is PointOfSale.EnabledCheckoutWritesItems |
| PointOfSale.EnabledCheckoutWritesItems | pages/POS.tsx:195 | when the button is enabled the note carries at least one item and belongs to the chosen customer |
| PointOfSale.NewSale | pages/POS.tsx:55 | back to input, with no note shown and no customer chosen |
| PointOfSale.CheckoutThenNewSale | pages/POS.tsx:55 | a sale followed by "new sale" is the start screen again |
| CustomersPage.OrEmpty | pages/Customers.tsx:24-26 | the default operator: the field when filled, `""` otherwise |
| CustomersPage.Truthy | pages/Customers.tsx:27 | the double negation is true exactly when the flag is present and true |
| CustomersPage.NewCustomer | pages/Customers.tsx:19-29 | refused exactly when the name or cpf is missing or empty; otherwise the new id and instant, the name and cpf as typed, phone, email and address defaulted to `""`, `isVip` coerced |
| CustomersPage.BlankFormRefused | pages/Customers.tsx:13-19 | the blank form is always refused |
| CustomersPage.Save | pages/Customers.tsx:17-34 | an incomplete form changes nothing; otherwise the customer is stored, the list is the old store plus the customer at the end, and the form is closed and blank |
| CustomersPage.Search | pages/Customers.tsx:36-38 | exactly the customers whose lower-cased name contains the lower-cased term, and no more than the list holds; the order is stated by CustomersPage.SearchConcat |
| CustomersPage.SearchConcat | pages/Customers.tsx:36-38 | searching two pieces and joining is searching the whole, and one customer stays exactly when its name matches; so the result is in list order, each match as often as it is listed |
| CustomersPage.EmptySearchKeepsAll | pages/Customers.tsx:36-38 | an empty term keeps the whole list, in order |
| CustomersPage.SavedCustomerFoundByName | pages/Customers.tsx:30-38 | a customer just saved is found by searching for its name |
| CustomersPage.AvatarIndex | pages/Customers.tsx:49 | the index lies in [0, 5) and agrees with the name's length modulo 5 |
| CustomersPage.AvatarGradient | pages/Customers.tsx:41-51 | the gradient is always one of the five |
| CustomersPage.AvatarIndexNext | pages/Customers.tsx:49 | one more character moves to the next gradient, wrapping around |

## Left out

- JSON serialisation and `localStorage` are taken to be the identity. A stored value that is not valid JSON (where `JSON.parse` throws) is not modelled.
- Time zones, daylight saving and local calendar arithmetic are not modelled. A day is a fixed 86 400 000 ms, so `setDate(getDate() + n)` is `n` fixed days.
- The Notes calendar's month grid (`daysInMonth`, `firstDayOfMonth`, `changeMonth`) is left out, because it is layout over the local calendar.
- `Date.now()`, `Math.random()`, `new Date()`, `parseFloat` and `confirm` have results that become parameters. `parseFloat` returning `NaN` for a non-numeric price is not modelled.
- `window.open`, `window.print` and `encodeURIComponent` are left out. The encoded text is a parameter, and so is the message template built from `Intl` currency and date formatting.
- Floating-point money is not modelled: amounts are exact cents and the mean ticket is an exact real.
- Text.ToLower: `toLowerCase` is modelled for the ASCII letters A-Z only. Accented capitals such as `É` stay as they are, and the model always keeps the length, while JavaScript's full Unicode mapping can change it (`"İ".toLowerCase()` has two code units).
- NotesPage.FilteredNotes: because case folding is ASCII-only, the search at pages/Notes.tsx:63 with the term `érica` does not find a note for the customer `ÉRICA` in the model, although the browser finds it.
- CustomersPage.Search: the same ASCII-only case folding applies to the customer search at pages/Customers.tsx:37.
- CustomersPage.AvatarIndex: `name.length` is counted in characters, not UTF-16 code units.
- Seed.MockCustomers: one instant `today` stands for the separate `new Date()` reads of constants.ts (the two `createdAt` fields and the `today` the note dates are built from). So both customers have the same creation instant, and the note dates are offsets of that same instant.
- Seed.MockNotes: the same single instant is used for the note dates, as the Seed.MockCustomers line says.
- PointOfSale.CheckoutNote: one instant `now` stands for the two separate clock reads at pages/POS.tsx:27 and :31. So the due day is exactly 30 days after the issue day, even when midnight falls between the two reads in the browser.
- The status colours, icons and the Notes page's `getStatusConfig` labels are left out, because they are presentation only.
- App.tsx, Layout.tsx, Login.tsx and PromissoryNoteTemplate.tsx are not part of this model. They are navigation and layout.
- React re-rendering is left out: page state is passed in and returned as a value. So are the `onUpdate` and `onClose` callbacks.

## Findings

| source | as written | input that shows it | evidently intended | confidence | as-written member | corrected member |
|---|---|---|---|---|---|---|
| components/CustomerDetailsModal.tsx:53 | `'55' + phone.replace(/\D/g, '')` always puts the country code in front | the first sample customer's phone `5511999999999` is dialled as `555511999999999` | add 55 only when missing, as PromissoryNoteModal.tsx:17-18 does | high (not executed) | CustomerDetails.WhatsAppTargetAsWritten, CustomerDetails.SeedContactDoublesPrefix | CustomerDetails.ContactLink |
