# Truck weighment log: a Dafny model of its core logic

The application is a small browser app, "Rice Mill Data Entry", for recording the
weighments, at a rice mill, of trucks arriving from the surrounding villages. An operator logs
in against a fixed allow-list of two users. They then fill in a form per truck: the
village it comes from, vehicle number, loaded weight, empty weight and bag weight. The saved entries go into an in-memory list. A viewer page groups the entries by
village and shows, for each group, every row's net weight and bag count together with a
rounded bag total.

This project models the four pieces of logic under that user interface:

- `auth.dfy` (module `Auth`): the credential check, as a predicate over the constant
  list of users.
- `viewer.dfy` (module `Viewer`): the viewer's grouping of entries by village. The
  accumulator callback is the method `AddEntry` and the fold is the loop of `Aggregate`.
  Both are proved against three specification functions: `Filter` (the entries of one
  village, in order), `SumBags` (their sum of rounded bag counts) and `FirstSeen` (the
  villages in the order they first occur). The file also holds the per-row arithmetic,
  the rounded header total and the empty-state test.
- `app.dfy` (module `App`): the session state machine.
  - The class `App` holds the four state cells: logged in, login error, current page
    and entries. It also owns the entry form, which is discarded whenever the page
    changes, as the entry page's component is unmounted then.
  - Each of its handlers is proved to move the state as the pure function `Step` says.
  - Lemmas over whole sequences of actions (`Run`) state what every session keeps:
    - the user never goes back to logged out;
    - the entry list only grows at its end;
    - a logged-in user never sees a login error.
- `form.dfy` (module `Form`): the entry form's state machine. The class `EntryForm` holds
  the record being edited, whether the free-text village box is open, and its text. Its
  handlers are submit, reset, village selection with the `"other"` option, confirm and
  cancel of the free-text box, the vehicle-number and weight inputs, and the live
  net-weight preview.

They rest on three shared modules:

- `weighment.dfy` (module `Weighment`): the entry record.
- `rounding.dfy` (module `Rounding`): JavaScript's `Math.round` (halves rounded toward
  +infinity) and the two-decimal rounding built from it.
- `jsstring.dfy` (module `JsString`): the string operations `trim` and `toUpperCase`.

Weights are exact reals. `Math.round(x)` is `Floor(x + 0.5)`, and the two-decimal rounding
is `Round(x * 100) / 100`.

The model keeps two asymmetries of the application exactly as they are:

- The form's preview subtracts the bag weight from the net weight, but the viewer does
  not. `Form.PreviewDiffersFromViewer` states the difference.
- A group's total adds up bag counts that are each rounded to hundredths. Each row
  computes its bag count unrounded (src/components/DataViewerPage.tsx:81) and only
  formats it with `toFixed(2)` for display (line 100), which is not modelled.
  `Viewer.EntryBagsNearRow` and `Viewer.RoundedTotalNearRowSum` bound the gap between
  these computed numbers, not between displayed ones.

## Model

| member | source | states |
|---|---|---|
| Auth.SomeMatches | src/utils/auth.ts:18-20 | true exactly when some record of the list has both the given username and the given password |
| Auth.ValidateCredentials | src/utils/auth.ts:17-21 | a pair is accepted exactly when that same (username, password) record is in the allow-list |
| Auth.AcceptedExactly | src/utils/auth.ts:6-21 | accepted exactly when the pair is one of the two listed pairs |
| Auth.ListedUsersAccepted | src/utils/auth.ts:6-15 | both pairs of the constant `Auth.ValidUsers` are accepted |
| Auth.CrossedPairsRejected | src/utils/auth.ts:18-20 | one user's username with the other user's password is rejected, both ways round |
| Auth.CaseSensitive | src/utils/auth.ts:19 | a username that differs only in letter case is rejected |
| Auth.WrongPasswordRejected | src/utils/auth.ts:18-20 | a listed username with any password other than its own is rejected |
| Auth.UnknownUserRejected | src/utils/auth.ts:18-20 | any username outside the list is rejected, whatever the password |
| Rounding.Round | src/components/DataViewerPage.tsx:21 | `Math.round`: the unique integer n with x - 0.5 < n <= x + 0.5 |
| Rounding.Round2Bounds | src/components/DataViewerPage.tsx:21 | two-decimal rounding moves a value by at most half a hundredth and lands on the 0.01 grid |
| Rounding.Round2OfGrid | src/components/DataViewerPage.tsx:51 | a value already on the 0.01 grid is left unchanged by two-decimal rounding |
| Rounding.Round2Idempotent | src/components/DataViewerPage.tsx:51 | rounding an already rounded value again changes nothing |
| Rounding.OnGridAdd | src/components/DataViewerPage.tsx:24 | the sum of two values on the 0.01 grid is on the grid |
| Viewer.NetWeight | src/components/DataViewerPage.tsx:80 | the viewer's net weight added to the empty weight gives back the loaded weight: the bag weight is not deducted (the same expression is at line 20) |
| Viewer.RowBags | src/components/DataViewerPage.tsx:81 | the bag count a row computes, before any display formatting, is the number of bags that weigh exactly the net weight |
| Viewer.EntryBags | src/components/DataViewerPage.tsx:20-21 | computes what an entry adds to its group total; its properties are those of `Viewer.EntryBagsNearRow` |
| Viewer.IsEmptyState | src/components/DataViewerPage.tsx:40 | the table has no group keys; `Viewer.EmptyStateIffNoEntries` ties this to an empty entry list |
| Rounding.Round2 | src/components/DataViewerPage.tsx:21 | computes the two-decimal rounding used at lines 21 and 51; its properties are those of `Rounding.Round2Bounds`, `Rounding.Round2OfGrid` and `Rounding.Round2Idempotent` |
| Viewer.EntryBagsNearRow | src/components/DataViewerPage.tsx:20-21 | what an entry adds to its group total is on the grid and within half a hundredth of the unrounded count its row computes |
| Viewer.FirstSeen | src/components/DataViewerPage.tsx:16-18 | the group keys in creation order contain no duplicates |
| Viewer.FirstSeenMembers | src/components/DataViewerPage.tsx:16-17 | a village is a group key exactly when some entry carries that village |
| Viewer.SumBagsAppend | src/components/DataViewerPage.tsx:24 | one more entry adds exactly its rounded bag count to the running total |
| Viewer.AddEntry | src/components/DataViewerPage.tsx:16-24 | the callback creates a group only for a village not yet seen, adding `[entry]` with that entry's rounded count; otherwise it appends the entry to its group and adds its count; every other group is untouched |
| Viewer.AccumulateStep | src/components/DataViewerPage.tsx:15-27 | one callback step keeps the fold's invariant: groups equal the filter by village of the entries processed so far, and totals equal their sums |
| Viewer.Aggregate | src/components/DataViewerPage.tsx:15-27 | the keys are the villages in first-seen order. Each group's entries are the input filtered by exactly that village, in input order. Each group's total is the sum of their rounded bag counts |
| Viewer.FilterAppend | src/components/DataViewerPage.tsx:16-23 | a new entry extends only its own village's group, and adds its village to the keys only on first sight |
| Viewer.FilterConcat | src/components/DataViewerPage.tsx:23 | grouping distributes over concatenation of the entry list |
| Viewer.FilterCounts | src/components/DataViewerPage.tsx:15-27 | a group holds every entry of its village as many times as the input does, and nothing else |
| Viewer.EveryEntryInOneGroup | src/components/DataViewerPage.tsx:15-27 | every entry's village is a key, the entry is in that group and in no other group |
| Viewer.UnseenFilterEmpty | src/components/DataViewerPage.tsx:16-18 | a village never seen has no entries |
| Viewer.GroupSizesSum | src/components/DataViewerPage.tsx:15-27 | the group sizes add up to the number of entries |
| Viewer.NewGroupTotal | src/components/DataViewerPage.tsx:16-24 | a village seen for the first time opens a group whose total is exactly that entry's rounded bag count |
| Viewer.GroupTotalsSum | src/components/DataViewerPage.tsx:20-24 | the group totals add up to the sum of all rounded bag counts |
| Viewer.SumBagsOnGrid | src/components/DataViewerPage.tsx:21-24 | a group total is a whole number of hundredths |
| Viewer.DisplayedTotal | src/components/DataViewerPage.tsx:51 | the header total is on the grid and within half a hundredth of the running total |
| Viewer.DisplayedTotalOfGroup | src/components/DataViewerPage.tsx:51 | over exact reals, the header total of a group equals its running total |
| Viewer.RoundedTotalNearRowSum | src/components/DataViewerPage.tsx:20-24 | a group's rounded total differs from the sum of the unrounded counts its rows compute by at most 0.005 per entry |
| Viewer.EmptyStateIffNoEntries | src/components/DataViewerPage.tsx:40-43 | the empty state shows exactly when there are no entries |
| Viewer.SingleEntryExample | src/components/DataViewerPage.tsx:20-24 | 1000 kg loaded, 800 kg empty and 40 kg bags give net 200 kg, 5 bags and a total of 5 |
| Viewer.TwoEntryExample | src/components/DataViewerPage.tsx:20-24 | two entries of one village with 3 and 2.5 bags form one group with total 5.5 |
| Viewer.ExactVillageKeys | src/components/DataViewerPage.tsx:16-17 | "Alpha", "alpha" and "Alpha " form three groups |
| JsString.Trim | src/components/DataEntryPage.tsx:51 | the trimmed text is empty exactly when the input is all white space, and otherwise neither starts nor ends with white space |
| JsString.TrimDropsOnlyWhiteSpace | src/components/DataEntryPage.tsx:51 | the trimmed text is a slice of the input, and what it drops on either side is white space |
| JsString.TrimIdempotent | src/components/DataEntryPage.tsx:51 | trimming twice is trimming once |
| JsString.ToUpper | src/components/DataEntryPage.tsx:129 | same length, each character mapped to upper case |
| JsString.ToUpperFixpoint | src/components/DataEntryPage.tsx:129 | an upper-cased string has no lower-case letter left and is a fixpoint of upper-casing |
| Form.PreviewNetWeight | src/components/DataEntryPage.tsx:57 | computes the preview's net weight; `Form.PreviewDiffersFromViewer` relates it to the viewer's |
| Form.EntryForm.NetWeight | src/components/DataEntryPage.tsx:57 | the preview shown for the record currently in the form |
| Form.PreviewDiffersFromViewer | src/components/DataEntryPage.tsx:57 | the preview's net weight is the viewer's net weight minus the bag weight, so the two agree exactly when the bag weight is zero |
| Form.EntryForm.constructor | src/components/DataEntryPage.tsx:11-19 | the form starts blank (the record `Form.BlankEntry`: empty strings, zero weights), with the free-text box closed and empty |
| Form.EntryForm.Reset | src/components/DataEntryPage.tsx:27-37 | from any state the form becomes blank, so resetting twice is resetting once |
| Form.EntryForm.Submit | src/components/DataEntryPage.tsx:21-25 | hands over the record exactly as it stands, unvalidated, then leaves the form blank |
| Form.EntryForm.SelectVillage | src/components/DataEntryPage.tsx:39-48 | "other" opens the free-text box and clears the village. Any other value closes the box and becomes the village verbatim. No other field changes |
| Form.EntryForm.EditCustomVillage | src/components/DataEntryPage.tsx:81 | stores the typed text and changes nothing else |
| Form.EntryForm.ConfirmCustomVillage | src/components/DataEntryPage.tsx:50-55 | blank or white-space-only text changes nothing. Otherwise the village becomes the trimmed text, which is non-empty, the box closes and the other fields stay |
| Form.EntryForm.CancelCustomVillage | src/components/DataEntryPage.tsx:95-98 | closes and empties the free-text box, record untouched |
| Form.EntryForm.EditVehicleNumber | src/components/DataEntryPage.tsx:129 | stores the upper-cased input, which is a fixpoint of upper-casing; nothing else changes |
| Form.EntryForm.EditLoadedWeight | src/components/DataEntryPage.tsx:143 | sets the loaded weight and nothing else |
| Form.EntryForm.EditEmptyWeight | src/components/DataEntryPage.tsx:159 | sets the empty weight and nothing else |
| Form.EntryForm.EditBagWeight | src/components/DataEntryPage.tsx:176 | sets the bag weight and nothing else |
| Form.BlankCustomVillageExample | src/components/DataEntryPage.tsx:50-55 | choosing "other", typing only spaces and confirming leaves the village empty and the box open |
| Form.UnconfirmedCustomVillageExample | src/components/DataEntryPage.tsx:21-25 | submitting with the free-text box open and unconfirmed saves an empty village, and the vehicle number as its upper-cased input |
| App.Step | src/App.tsx:14-25 | no handler logs the user out, and the entry list before a handler is a prefix of the list after it |
| App.Render | src/App.tsx:27-64 | logged out, the login page shows with the current login error; logged in, the selected page shows: the entry form on the entry page, and on the viewer page the viewer with the full entry list |
| App.RunNeverLogsOut | src/App.tsx:14-25 | once logged in, no sequence of actions leads back to logged out |
| App.RunAppendsSaved | src/App.tsx:23-25 | after any sequence of actions the entry list is the old list followed by the saved entries, in order |
| App.EnabledRunInvariant | src/App.tsx:14-29 | along the actions the screens offer, entries exist only once logged in, and a logged-in user has no login error |
| App.LoginFromStart | src/App.tsx:9-20 | from `App.Initial`, the start shows the login page with no error; a valid login opens the entry page with no entries |
| App.App.constructor | src/App.tsx:9-12 | the state `App.Initial`: not logged in, no error, the entry page, no entries; a fresh blank form, so the form is blank while no entry page exists |
| App.App.HandleLogin | src/App.tsx:14-21 | valid credentials log in and clear the error; invalid ones set "Invalid username or password" and leave the login flag; page and entries untouched; a form blank while logged out stays blank |
| App.App.HandleSaveEntry | src/App.tsx:23-25 | appends exactly the given entry at the end; nothing else changes, so the form stays blank wherever no entry page exists |
| App.App.SetCurrentPage | src/App.tsx:37-47 | a tab sets the current page and leaves login and entries alone. The tab of the page already shown keeps the form as it is; switching pages leaves the form blank, since the entry page's component is discarded; the form stays blank while logged out or on the viewer (src/App.tsx:60-64, src/components/DataEntryPage.tsx:11-19) |
| App.PageSwitchDiscardsFormExample | src/App.tsx:60-64 | half-filling the form, opening the viewer and coming back finds the village and vehicle number empty again |
| App.App.SubmitEntryForm | src/App.tsx:61 | the app's own form hands its record to the save handler, which appends it as it stood; the form becomes blank |

## Left out

- Rendering: JSX, styling, icons, table markup and `toFixed(2)` string formatting are not
  modelled. Only the numbers that are formatted are.
- The login page component is not part of this model. The model takes the username and
  password it submits as given strings.
- The predefined village list is not part of this model. `Form.EntryForm.SelectVillage`
  accepts any option value.
- The entry type's declaration is not part of this model. `Weighment.EntryData` is a
  record of two strings and three reals, after the fields the components use.
- Floating point: weights, divisions and `Math.round` are computed over exact reals. The
  model does not claim bit-exact agreement with IEEE-754 doubles, for example for
  `1.005 * 100`.
- Viewer.Aggregate: requires every bag weight to be non-zero. The viewer does not guard
  this. In the form, 0 is the default bag weight and `min="0"` admits it, but a zero is
  shown as an empty field, and the field is required. So the browser refuses to submit a
  zero bag weight, and the zero divisor is reached only when browser validation is
  bypassed. JavaScript then produces `Infinity` or `NaN` bag counts, which the model does
  not represent.
- Viewer.AddEntry: requires a non-zero bag weight, for the same reason.
- Viewer.EntryBags: requires a non-zero bag weight, for the same reason.
- Viewer.RowBags: requires a non-zero bag weight, for the same reason.
- Viewer.SumBags: requires a non-zero bag weight, for the same reason.
- Viewer.Aggregate: the group order is the order of first sight. JavaScript's
  `Object.entries` lists integer-like keys (such as a village named "12") first, in
  numeric order. The stated order therefore holds only for other names.
- Viewer.Aggregate: every village name is a fresh key. In JavaScript, names of inherited
  object properties such as "constructor", "toString" or "__proto__" look like existing
  groups. The callback then fails on them.
- Browser validation and coercion: the `required`, `min` and `step` input attributes and
  the numeric conversion of input text are enforced by the browser. The handlers receive
  already-parsed reals.
- In custom-village mode only the free-text box is required. So a submit without pressing
  confirm saves an empty village. The model keeps this behaviour and
  `Form.UnconfirmedCustomVillageExample` exhibits it. Conversely, once a custom name is
  confirmed, the village list comes back with a value none of its options carries
  unless the name is a predefined village (src/components/DataEntryPage.tsx:105-118).
  Presumably the empty "Select a village" option is then shown, and the list's `required`
  attribute (line 109) makes the browser refuse the submit. Browser validation is not
  modelled, so `Form.EntryForm.ConfirmCustomVillage` and `Form.EntryForm.Submit` still
  let such a record be saved.
- JsString.ToUpper: maps only the ASCII letters a to z. Full Unicode case mapping is left
  out, including the characters whose upper case is longer, such as "ß" becoming "SS".
- App.App.SetCurrentPage: a discarded entry page is modelled by clearing the one form
  object the app owns, not by creating a new component instance. The model lets a client
  call the form's handlers while the viewer is shown or while logged out, and edits made
  while logged out survive a login. The application cannot do either: no entry page
  exists before login (src/App.tsx:27-29), so the form shown after login is always
  blank. `App.App.FormUnmountedBlank` states that invariant for the app's own methods.
- React scheduling: state updates are batched and applied asynchronously. Each handler is
  modelled as one atomic transition on the current state.
