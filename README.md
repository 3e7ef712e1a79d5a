# Aurora Mobile: date selection, view-models and token store, in Dafny

This project models the parts of the Aurora Mobile front-end that hold logic, and proves properties of the model:

- **`DatePickerInput`'s date-selection controller** (`src/@aurora/components/date-picker.tsx`). The component keeps two state variables, `internalShowDatePicker` and `tempDate`. It reads `value`, `isOpen` and whether `onOpenChange`/`onBlur` were supplied from its props, and it calls `onChange`, `onOpenChange` and `onBlur` on its host. Module `DatePicker` gives each handler (`handleDateChange`, `confirmDateSelection`, `cancelDateSelection`, `toggleDatePicker`) and the shared setter `setShowDatePicker` as a transition function. The transition maps the old own state to the new one plus the list of host calls it made, in order. Class `DatePicker.Controller` carries the same handlers as methods that update its fields step by step and append to a call trace. It is proved to agree with the functions. Module `DatePickerProperties` proves the handlers' promises, including over whole sequences of events. The platform is `Android`, `IOS` or `Other`. Change handling tests for Android, every other platform stages the date, and only iOS renders the confirm and cancel buttons.
- **The pure configuration of the picker** (module `DatePickerConfig`): the 13 colour keys and 2 text keys merged over their defaults (both the spread as JavaScript evaluates it and the corrected merge the palette uses; see "## Findings"), the display-mode default, the default `DD/MM/YYYY` formatter or a caller's one, and the field text (the placeholder when there is no value). Module `Dates` holds the date triple (`getFullYear`, `getMonth`, `getDate`), the formatter, and a parser that inverts it.
- **The home view-model** (module `HomeViewModel`): greeting, counter and selected date, with their four updaters and the hook's state cell as a class.
- **The profile view-model** (module `ProfileViewModel`): loading flags, credentials, contacts and error. Each asynchronous action is split into its *begin* update and its *complete* update. The complete update takes the awaited result or the thrown value as input, and it writes the client's token store as the source does. `Session` pairs the view state with the stored token, so that lemmas can speak about any sequence of actions.
- **The GraphQL client's module state** (module `GraphqlClient`): the `authToken` variable with `setAuthToken`/`clearAuthToken`/`getAuthToken` (class `TokenStore`), the `Authorization` header rule, and the `merge` policy of `iamPaginatePermissions`. Records returned by the services are in module `Dto`.

"Now" (`new Date()`) is a parameter wherever the source reads the clock.

Three behaviours of the code that a reader might not expect are modelled as written:
- Toggling while the picker is open calls `onBlur` twice: once inside `cancelDateSelection` and once more in `toggleDatePicker`. Every other close calls it once. See `ToggleWhileOpenCancels`.
- `DatePickerColors` has 13 keys.
- Visibility is read from `isOpen` whenever it is defined, and written to `onOpenChange` whenever that is supplied. The two choices are independent of each other.

## Model

| member | source | states |
|---|---|---|
| `Dates.Decimal` | src/@aurora/components/date-picker.tsx:164-165 | `toString()` of a non-negative number: at least one digit, and a leading `0` only for the number 0 |
| `Dates.IntToString` | src/@aurora/components/date-picker.tsx:166-167 | the year in a template literal: a minus sign exactly when negative, then digits without padding or leading zeros |
| `Dates.DecimalRoundTrip` | src/@aurora/components/date-picker.tsx:164-166 | the decimal text of a number reads back as that number |
| `Dates.IntRoundTrip` | src/@aurora/components/date-picker.tsx:166-167 | the year as a template literal prints it (a minus sign when negative) reads back as the year |
| `Dates.PadStart` | src/@aurora/components/date-picker.tsx:164-165 | `padStart`: the result has the requested width, or the input's width if that is larger; it ends with the input and is filled before it |
| `Dates.TwoDigits` | src/@aurora/components/date-picker.tsx:164-165 | a day or 1-based month comes out as exactly two digits whose value is the component |
| `Dates.FormatDefault` | src/@aurora/components/date-picker.tsx:164-167 | the default text is two digits reading as the day, `/`, two digits reading as the 1-based month, `/`, then the year exactly as `IntToString` writes it, unpadded |
| `Dates.FormatParseRoundTrip` | src/@aurora/components/date-picker.tsx:164-167 | parsing the default format gives back the day, the 1-based month and the unpadded year |
| `Dates.FormatInjective` | src/@aurora/components/date-picker.tsx:164-167 | two dates shown as the same default text are the same date |
| `Dates.YearExample` | src/@aurora/components/date-picker.tsx:166-167 | the year 2024 prints as "2024", with no padding |
| `Dates.FormatExample` | src/@aurora/components/date-picker.tsx:164-167 | 5 January 2024 is shown as "05/01/2024" |
| `DatePickerConfig.DefaultsAreComplete` | src/@aurora/components/date-picker.tsx:67-87 | every colour key and every text key has a default |
| `DatePickerConfig.UndefinedEntryErasesDefault` | src/@aurora/components/date-picker.tsx:140 | with the spread as written, a colour key given as `undefined` ends up `undefined` and not its default |
| `DatePickerConfig.SpreadAsWritten` | src/@aurora/components/date-picker.tsx:140-141 | the spread as JavaScript evaluates it: the keys are the defaults' keys; a key the caller leaves out keeps its default, a given string wins, and a key given as `undefined` becomes `undefined` |
| `DatePickerConfig.Merge` | src/@aurora/components/date-picker.tsx:140-141 | each key takes the caller's string when one is given, otherwise its default; no key is added or lost |
| `DatePickerConfig.MergeMatchesSpreadOnStrings` | src/@aurora/components/date-picker.tsx:140-141 | where the caller gives strings or leaves keys out, the merge is exactly the JavaScript spread |
| `DatePickerConfig.Colors` | src/@aurora/components/date-picker.tsx:140 | the palette by the corrected merge: all 13 keys; no custom colours gives the defaults; a given colour wins |
| `DatePickerConfig.Texts` | src/@aurora/components/date-picker.tsx:141 | the button texts by the corrected merge: both defined; no custom texts gives the defaults; a given text wins |
| `DatePickerConfig.MergeOverrideIsLocal` | src/@aurora/components/date-picker.tsx:140-141 | overriding one key changes that key of the result and nothing else |
| `DatePickerConfig.DisplayModeFor` | src/@aurora/components/date-picker.tsx:144 | a given `display` wins; otherwise 'spinner' on iOS and 'default' elsewhere, on every platform a mode its documentation lists |
| `DatePickerConfig.FormatDate` | src/@aurora/components/date-picker.tsx:160-168 | a supplied formatter is used as is; otherwise the text is exactly the default `DD/MM/YYYY` text, with the year unpadded, and it parses back as the date |
| `DatePickerConfig.FieldText` | src/@aurora/components/date-picker.tsx:245 | the placeholder when there is no value, otherwise the formatted value |
| `DatePickerConfig.FieldTextIdentifiesValue` | src/@aurora/components/date-picker.tsx:245 | with the default formatter the field text names the value unambiguously |
| `DatePicker.Initial` | src/@aurora/components/date-picker.tsx:146-147 | the picker starts hidden with `tempDate` = `value ?? now` |
| `DatePicker.Shown` | src/@aurora/components/date-picker.tsx:150 | visibility is `isOpen` when defined, otherwise the own flag |
| `DatePicker.VisibilityWrite` | src/@aurora/components/date-picker.tsx:151-157 | `setShowDatePicker(v)`: with `onOpenChange` the only effect is the call `onOpenChange(v)`; without it the own flag becomes `v` and nothing is called; `tempDate` is kept either way (routing and ownership lemmas: `VisibilityWriteRouting`, `VisibilityOwnership`) |
| `DatePicker.Blur` | src/@aurora/components/date-picker.tsx:179-181 | `if (onBlur) onBlur()`: one `onBlur` call exactly when it is supplied, nothing otherwise; the same guard recurs at lines 195-197, 205-207 and 219-221 |
| `DatePicker.ChangeTransition` | src/@aurora/components/date-picker.tsx:171-188 | on Android the own state is that of closing; elsewhere the only effect is staging the given date, with no call (call order and counts: `AndroidChangeAppliesAndCloses`, `StagedChangeOnlyStages`, `StagedRun`) |
| `DatePicker.ConfirmTransition` | src/@aurora/components/date-picker.tsx:191-198 | the first call is `onChange(tempDate)` and the own state is that of closing (the full call order, commit and blur counts: `ConfirmCommitsStaged`) |
| `DatePicker.CancelTransition` | src/@aurora/components/date-picker.tsx:201-208 | `tempDate` is reset to `value ?? now`, the own flag is closed unless the host owns it, and `onChange` is never called (`CancelDiscards`) |
| `DatePicker.ToggleTransition` | src/@aurora/components/date-picker.tsx:211-227 | while shown it has cancel's own state; while hidden it stages `value ?? now` and only asks to open; it never calls `onChange` (`ToggleWhileClosedOpens`, `ToggleWhileOpenCancels`) |
| `DatePicker.Controller.constructor` | src/@aurora/components/date-picker.tsx:146-147 | a new component has the initial own state and has called nothing |
| `DatePicker.Controller.SetShowDatePicker` | src/@aurora/components/date-picker.tsx:151-157 | the write goes to `onOpenChange` if supplied, otherwise to the own flag |
| `DatePicker.Controller.NotifyBlur` | src/@aurora/components/date-picker.tsx:179-181 | `onBlur` is called when supplied and nothing else changes |
| `DatePicker.Controller.HandleDateChange` | src/@aurora/components/date-picker.tsx:171-188 | the new own state and the calls appended are those of the change transition |
| `DatePicker.Controller.ConfirmDateSelection` | src/@aurora/components/date-picker.tsx:191-198 | the new own state and the calls appended are those of the confirm transition |
| `DatePicker.Controller.CancelDateSelection` | src/@aurora/components/date-picker.tsx:201-208 | the new own state and the calls appended are those of the cancel transition |
| `DatePicker.Controller.ToggleDatePicker` | src/@aurora/components/date-picker.tsx:211-227 | the new own state and the calls appended are those of the toggle transition |
| `DatePickerProperties.VisibilityWriteRouting` | src/@aurora/components/date-picker.tsx:151-157 | a visibility write either calls `onOpenChange(v)` and keeps the flag, or sets the flag and calls nothing, never both |
| `DatePickerProperties.VisibilityOwnership` | src/@aurora/components/date-picker.tsx:150-157 | for every event, a host with `onOpenChange` never sees the own flag change, and one without it is never sent `onOpenChange` |
| `DatePickerProperties.VisibilityOwnershipRun` | src/@aurora/components/date-picker.tsx:151-157 | along any run where `onOpenChange` is supplied, the own flag never changes |
| `DatePickerProperties.AndroidChangeAppliesAndCloses` | src/@aurora/components/date-picker.tsx:172-181 | on Android: close request first, `onChange(D)` only for a "set" event with date D, then `onBlur` once last; a dismissal keeps the host value |
| `DatePickerProperties.StagedChangeOnlyStages` | src/@aurora/components/date-picker.tsx:183-186 | off Android a change only sets `tempDate` to a given date: no call, no visibility change |
| `DatePickerProperties.StagedRun` | src/@aurora/components/date-picker.tsx:183-186 | any run of changes off Android makes no call and stages the last date given |
| `DatePickerProperties.ConfirmCommitsStaged` | src/@aurora/components/date-picker.tsx:191-198 | confirm calls `onChange(tempDate)` first, then asks to close, then `onBlur` once; the host value becomes the staged date |
| `DatePickerProperties.CancelDiscards` | src/@aurora/components/date-picker.tsx:201-208 | cancel never calls `onChange`, resets `tempDate` to `value ?? now`, asks to close and calls `onBlur` once |
| `DatePickerProperties.ToggleWhileClosedOpens` | src/@aurora/components/date-picker.tsx:222-226 | toggle while closed stages `value ?? now` (never null) and asks to open, calling nothing else |
| `DatePickerProperties.ToggleWhileOpenCancels` | src/@aurora/components/date-picker.tsx:215-221 | toggle while open has cancel's effect, never confirm's, and calls `onBlur` twice |
| `DatePickerProperties.StagedChangesThenCancel` | src/@aurora/components/date-picker.tsx:183-208 | off Android, any number of staged changes then cancel leaves the host value unchanged |
| `DatePickerProperties.OpenStageConfirm` | src/@aurora/components/date-picker.tsx:183-226 | off Android, open, any staged changes, confirm: exactly one `onChange`, with the last staged date, and one `onBlur` |
| `DatePickerProperties.OtherPlatformNeverCommits` | src/@aurora/components/date-picker.tsx:172-188 | on a platform other than Android and iOS, where only change and toggle events are possible, no date is ever committed |
| `DatePickerProperties.ScenarioStageAndConfirm` | src/@aurora/components/date-picker.tsx:191-198 | iOS, no value: open, stage 2025-03-10, confirm: the value is 2025-03-10, closed, one blur |
| `DatePickerProperties.ScenarioStageAndCancel` | src/@aurora/components/date-picker.tsx:201-208 | iOS, value 2025-01-01: open, stage 2099-12-31, cancel: the value stays 2025-01-01, closed |
| `GraphqlClient.AuthorizationHeader` | src/services/graphql/client.ts:31 | `Bearer <token>` when the token is truthy, otherwise `Basic <basicAuthToken>`; nothing else is read |
| `GraphqlClient.HeaderCarriesToken` | src/services/graphql/client.ts:31 | a bearer token can be read from the header exactly when the stored token is truthy, and it is that token |
| `GraphqlClient.EmptyTokenUsesBasic` | src/services/graphql/client.ts:31 | an empty-string token gives the same Basic header as no token |
| `GraphqlClient.MergePermissions` | src/services/graphql/client.ts:46-48 | the merged page is the incoming one, whatever was cached |
| `GraphqlClient.TokenStore.constructor` | src/services/graphql/client.ts:19 | the token starts as null |
| `GraphqlClient.TokenStore.SetAuthToken` | src/services/graphql/client.ts:67-69 | the token becomes the given one |
| `GraphqlClient.TokenStore.ClearAuthToken` | src/services/graphql/client.ts:74-76 | the token becomes null |
| `GraphqlClient.TokenStore.GetAuthToken` | src/services/graphql/client.ts:81-83 | returns the stored token |
| `GraphqlClient.TokenStore.RequestAuthorization` | src/services/graphql/client.ts:27-33 | the header of a request is computed from the token stored at that moment |
| `GraphqlClient.TokenLifecycle` | src/services/graphql/client.ts:67-83 | the last token set is read back and sent; after clearing, null is read back and Basic is sent |
| `HomeViewModel.InitialHomeState` | src/viewmodels/home.view-model.ts:10-14 | counter 0, no date, the fixed greeting |
| `HomeViewModel.Incremented` | src/viewmodels/home.view-model.ts:16-18 | the counter goes up by one; greeting and date are unchanged |
| `HomeViewModel.Decremented` | src/viewmodels/home.view-model.ts:20-22 | the counter goes down by one; greeting and date are unchanged |
| `HomeViewModel.CounterReset` | src/viewmodels/home.view-model.ts:24-26 | the counter becomes 0; greeting and date are unchanged |
| `HomeViewModel.WithSelectedDate` | src/viewmodels/home.view-model.ts:28-30 | only the selected date changes, to the given one |
| `HomeViewModel.IncrementDecrementCancel` | src/viewmodels/home.view-model.ts:16-22 | increment then decrement, or the reverse, is the identity |
| `HomeViewModel.DecrementBelowZero` | src/viewmodels/home.view-model.ts:20-22 | decrementing from the initial state gives −1: there is no lower bound |
| `HomeViewModel.ResetIdempotent` | src/viewmodels/home.view-model.ts:24-26 | resetting twice equals resetting once |
| `HomeViewModel.CounterTracksActions` | src/viewmodels/home.view-model.ts:16-30 | along any actions the greeting never changes, and without a reset the counter moves by the increments minus the decrements |
| `HomeViewModel.ViewModel.constructor` | src/viewmodels/home.view-model.ts:10-14 | the hook starts in the initial state |
| `HomeViewModel.ViewModel.IncrementCounter` | src/viewmodels/home.view-model.ts:16-18 | the state is replaced by the increment updater's result |
| `HomeViewModel.ViewModel.DecrementCounter` | src/viewmodels/home.view-model.ts:20-22 | the state is replaced by the decrement updater's result |
| `HomeViewModel.ViewModel.ResetCounter` | src/viewmodels/home.view-model.ts:24-26 | the state is replaced by the reset updater's result |
| `HomeViewModel.ViewModel.SetSelectedDate` | src/viewmodels/home.view-model.ts:28-30 | the state is replaced by the set-date updater's result |
| `ProfileViewModel.ErrorText` | src/viewmodels/profile.view-model.ts:49 | an `Error`'s message, or the fallback text for anything else thrown |
| `ProfileViewModel.InitialProfileState` | src/viewmodels/profile.view-model.ts:17-23 | both flags false, no credentials, no contacts, no error |
| `ProfileViewModel.ViewModel.IsAuthenticated` | src/viewmodels/profile.view-model.ts:91 | authenticated exactly when credentials are held |
| `ProfileViewModel.LoginStarted` | src/viewmodels/profile.view-model.ts:26 | loading on, error cleared; credentials, contacts and the contacts flag unchanged |
| `ProfileViewModel.LoginSucceeded` | src/viewmodels/profile.view-model.ts:38-43 | loading off, the credentials stored, error cleared; contacts unchanged |
| `ProfileViewModel.LoginFailed` | src/viewmodels/profile.view-model.ts:44-51 | loading off, credentials dropped, the error message or 'Error desconocido'; contacts unchanged |
| `ProfileViewModel.ContactsStarted` | src/viewmodels/profile.view-model.ts:55 | contacts loading on, error cleared; credentials and login flag unchanged |
| `ProfileViewModel.ContactsLoaded` | src/viewmodels/profile.view-model.ts:60-65 | contacts loading off, contacts = the page's rows, error cleared; credentials and login flag unchanged |
| `ProfileViewModel.ContactsFailed` | src/viewmodels/profile.view-model.ts:66-73 | contacts loading off, contacts emptied, the error message or 'Error cargando contactos'; credentials unchanged |
| `ProfileViewModel.ViewModel.constructor` | src/viewmodels/profile.view-model.ts:17-23 | the hook starts in the initial state |
| `ProfileViewModel.ViewModel.BeginLogin` | src/viewmodels/profile.view-model.ts:26 | the state is replaced by the login-begin update, which is `Perform` of `StartLogin` whatever the stored token |
| `ProfileViewModel.ViewModel.CompleteLogin` | src/viewmodels/profile.view-model.ts:36-51 | on success the access token is stored and the success update applied; on failure the token is untouched and the failure update applied; state and store together are `Perform` of `FinishLogin` |
| `ProfileViewModel.ViewModel.BeginLoadContacts` | src/viewmodels/profile.view-model.ts:55 | the state is replaced by the contacts-begin update, which is `Perform` of `StartContacts` whatever the stored token |
| `ProfileViewModel.ViewModel.CompleteLoadContacts` | src/viewmodels/profile.view-model.ts:60-73 | the success or the failure update, by what the call gave, which is `Perform` of `FinishContacts` whatever the stored token |
| `ProfileViewModel.ViewModel.Logout` | src/viewmodels/profile.view-model.ts:76-85 | the token is cleared and the state is exactly the initial one, from any state; state and store together are `Perform` of `LogOut` |
| `ProfileViewModel.Authenticated` | src/viewmodels/profile.view-model.ts:91 | `isAuthenticated` on a state: credentials are held (its behaviour over runs: `AuthenticatedIffLastLoginSucceeded`) |
| `ProfileViewModel.Perform` | src/viewmodels/profile.view-model.ts:25-85 | one action on the view state and the stored token: logout gives the initial session; a successful login stores its credentials and access token; a failed login drops the credentials; only those two change the token; contact actions keep the credentials (run lemmas below) |
| `ProfileViewModel.TokenMatchesUserFromStart` | src/viewmodels/profile.view-model.ts:17-85 | from the hook's initial state and an empty store, along any actions, while a user is shown as logged in the store holds that user's access token |
| `ProfileViewModel.TokenMatchesUserAlways` | src/viewmodels/profile.view-model.ts:36-85 | along any actions, while a user is shown as logged in the store holds that user's access token |
| `ProfileViewModel.AuthenticatedIffLastLoginSucceeded` | src/viewmodels/profile.view-model.ts:38-51 | authenticated after any actions exactly when the last login outcome or logout was a successful login |
| `ProfileViewModel.ContactsLeaveLoginAlone` | src/viewmodels/profile.view-model.ts:54-74 | contact actions never change credentials, the login flag or the token |
| `ProfileViewModel.LogoutResets` | src/viewmodels/profile.view-model.ts:76-85 | logout from any session gives the initial session, and is idempotent |
| `ProfileViewModel.LoginSuccessAuthenticates` | src/viewmodels/profile.view-model.ts:36-43 | begin then success: authenticated, not loading, no error, token stored, contacts kept |
| `ProfileViewModel.LoginFailureDeauthenticates` | src/viewmodels/profile.view-model.ts:44-51 | begin then failure: not authenticated, the error shown, contacts and stored token kept |
| `ProfileViewModel.FailedReloginKeepsToken` | src/viewmodels/profile.view-model.ts:44-51 | after a success and then a failed login the user is shown logged out, yet requests still carry the first token as Bearer |

## Left out

- Rendering: the JSX, styles, `className`, Ionicons, the label, `hasError` and `errorMessage`. The only rendering fact used is that the confirm and cancel buttons exist only on iOS (date-picker.tsx:258-291), which is the premise of `OtherPlatformNeverCommits`.
- React scheduling and re-render timing. Each handler is one atomic transition; the props of each handler call are inputs that may lag behind the `onOpenChange` calls.
- `Keyboard.dismiss()` in `toggleDatePicker`: a call into the platform with no effect on the controller's state.
- The native `DateTimePicker`, including `minimumDate`/`maximumDate`, which are passed through and never checked; what value the native picker displays is its own affair.
- `new Date()`, local time and time zones. The current moment is a parameter, and a date is its year, month index and day.
- The Apollo client, its links, cache and network; `auth.service.ts` and `contacts.service.ts`. Their results or thrown values are the inputs of the *complete* updates. The `keyArgs` cache keying is not modelled.
- `btoa`: `basicAuthToken` is a constant, and no property depends on its value.
- `resetApolloStore` and `clearApolloCache`: calls into the Apollo library.
- Overlapping `performLogin`/`loadContacts` calls are modelled: `PerformAll` accepts the *begin* and *complete* updates in any interleaving, so several awaits may be in flight at once. What is not modelled is any update that is not atomic. Each action's update is applied whole, as React applies a functional `setState`.
- The hard-coded login credentials passed to `login`: data, not logic.
- Colour constants, fonts, build configuration and GraphQL types. The DTOs give only record shapes.
- The counter is an unbounded integer; JavaScript's float limits are not modelled.
- `DatePickerConfig.Colors`: built on the corrected merge `Merge`, so a colour given as `undefined` takes its default. The palette as written at line 140 is `SpreadAsWritten(DefaultColors, …)`, where that colour is `undefined`; see the finding below.
- `DatePickerConfig.Texts`: built on the corrected merge in the same way. The texts as written at line 141 are `SpreadAsWritten(DefaultTexts, …)`.
- `DatePickerConfig.SupportedOn` checks the `Other` platform against the Android list of display modes, because the source documents display modes only for iOS and Android.

## Findings

| source | as written | input that shows it | evidently intended | confidence | as-written member | corrected member |
|---|---|---|---|---|---|---|
| src/@aurora/components/date-picker.tsx:140-141 | `{ ...defaultColors, ...customColors }` copies every own key of the caller's object, including one whose value is `undefined` | `colors={{ label: undefined }}`, which the optional property types allow: the label colour becomes `undefined` instead of '#1F2937' | a key without a string takes its default, as the comment above `DatePickerColors` says all colours do | medium, not executed | `DatePickerConfig.UndefinedEntryErasesDefault` | `DatePickerConfig.Merge` |
