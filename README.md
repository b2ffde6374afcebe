# Header decision rules of the Tyrian Trade web client

This project is a Dafny model of the logic in the header of the Tyrian Trade web client.
The header is a React component tree. It covers the search bar, the notification badge, the streamer button and the modals.
The model pulls the decision rules out of the markup and proves what they guarantee:

- **The auth gate** (`AuthGate`, `Header.HeaderState.RunAuthGate`). It is an effect that runs once the profile query has settled. It reads `authCheckTime` and `timeLeft` from `localStorage` and either opens the sign-in modal at once or arms a timer. When it arms a timer, it writes the start time and the delay back to storage. JavaScript's `Number`, `parseInt`, `||`, `Math.max` and `toString` are modelled on integers and NaN (`JsNumber`). The precedence of `Number(env) || 30000 - elapsed` is kept exactly as written, and so is the truthiness of the string `"0"`.
- **The header state** (`Header`):
  - the search overlay's open, close and clear transitions;
  - which modal is selected and whether it is shown;
  - the streamer / become-streamer choice;
  - the unread-notification count.
- **The two hand-written forms** (`LegacyRegistration`, `LegacyLogin`). They cover the check-by-check validation, the error maps, the disabled buttons and the request bodies. This includes the registration check that records a missing e-mail on `username`.
- **The schema-driven authorization forms** (`FormSchema`, `AuthRegistration`, `AuthLogin`):
  - the rule lists of each field;
  - the request built from a form;
  - the mapping of a 400 body from key → messages to key → first message;
  - the effects of a submit (cookie, query invalidation, page change).
- **The authorization pages** (`AuthPages`). These are the `pageData` table (title and footer target per page), what is rendered for each page, and the page transitions the buttons cause.
- **Password recovery**:
  - the two-step recovery page (`RecoveryFlow`);
  - the e-mail, code and new-password steps of the stand-alone dialog (`PasswordRecovery`).
- **The stream-start form** (`StartStream`):
  - the tag tokenizer and its idempotence on the value shown back in the input;
  - the 140-character caps;
  - the category options;
  - the request body.

Components that update state in handlers are classes whose methods change those fields.
Table lookups and expressions are functions.
Network answers, the clock, `localStorage`, the configured timeout and the e-mail regular expression are all parameters.
Navigations, alerts, requests and other effects are returned as values.

## Model

| member | source | states |
|---|---|---|
| AuthGate.GetItem | src/components/Header/Header.tsx:177-178 | `getItem` yields a value exactly when the key is stored, and then the stored string |
| AuthGate.Step | src/components/Header/Header.tsx:173-198 | the gate does nothing iff the profile is loading or has a nonzero id; it opens the modal at once iff a start reading as a nonzero number is stored and the stored time left is present and reads as 0; with a stored start the delay is `max(0, Number(env) \|\| (30000 - (now - parseInt(start))))`; without one it is the stored time left if present, else `Number(env) \|\| 30000` |
| AuthGate.Written | src/components/Header/Header.tsx:201-202 | after arming, storage gains exactly `authCheckTime` and `timeLeft`, and every other key keeps its value |
| AuthGate.WrittenReadsBack | src/components/Header/Header.tsx:201-202 | the written entries are present and read back through `Number`/`parseInt` as exactly the clock reading and the armed delay |
| AuthGate.ArmedFromStart | src/components/Header/Header.tsx:191-194 | a run that finds a start reading as `start` and does not open the modal arms `max(0, Number(env) \|\| (30000 - (now - start)))` |
| AuthGate.RunAfterArming | src/components/Header/Header.tsx:177-194 | with no configured timeout, a stored start reading as a nonzero `t1` and a time left reading as `d`, the run opens at once iff `d` is 0, and otherwise arms `max(0, 30000 - (t2 - t1))` |
| AuthGate.ZeroTimeLeftOpensAtOnce | src/components/Header/Header.tsx:182-189 | a nonzero stored start with a stored time left of `"0"` opens the auth modal without arming a timer |
| AuthGate.DefaultDelayWindow | src/components/Header/Header.tsx:191-194 | with a stored start and no truthy configured timeout, the delay is `max(0, 30000 - (now - start))`, which is at least 0, and at most 30000 when `now >= start` |
| AuthGate.ConfiguredTimeoutIgnoresElapsed | src/components/Header/Header.tsx:193 | a truthy configured timeout `c` is armed as `max(0, c)` whatever the elapsed time |
| AuthGate.NextMount | src/components/Header/Header.tsx:177-202 | with no configured timeout and a nonzero start `t1`, the run after arming delay `d` at `t1` opens at once if `d` was 0, and otherwise arms `max(0, 30000 - (t2 - t1))`, counted from the previous mount |
| AuthGate.ReloadsPostponeTheDeadline | src/components/Header/Header.tsx:177-202 | mounts at 1000, 21000 and 26000 ms arm 30000, 10000 and 25000 ms, so each mount restarts the countdown from the previous mount and the modal is due at 51000 ms instead of 31000 ms |
| JsNumber.NumberRoundTrip | src/components/Header/Header.tsx:202 | `Number(x.toString())` gives back every integer and NaN |
| JsNumber.ParseIntOfDigits | src/components/Header/Header.tsx:192 | `parseInt` reads an optionally negated digit string as its value |
| JsNumber.ParseIntRoundTrip | src/components/Header/Header.tsx:192 | `parseInt(n.toString(), 10)` gives back every integer |
| Common.TrimStartDropsBlank | src/components/Header/Header.tsx:219 | what `trimStart` removes is all white space |
| Common.TrimEndDropsBlank | src/components/Header/Header.tsx:219 | what `trimEnd` removes is all white space |
| Common.TrimEmptyIffBlank | src/components/Header/Header.tsx:219 | `value.trim()` is empty exactly when every character is JavaScript white space |
| Common.IndexOf | src/components/Header/Header.tsx:160 | `indexOf` is -1 when the element is absent, and otherwise the first position holding it |
| Common.SplitJoin | src/components/Header/StartStreamModal.tsx:138 | splitting the space-join of space-free pieces gives back the pieces |
| Common.SplitLast | src/components/Header/StartStreamModal.tsx:49-51 | the last piece of a split is the text after the last separator |
| Header.Modals | src/components/Header/Header.tsx:136-157 | only the `auth` entry sets the close icon and closability, both to false; the others leave them unset |
| Header.ModalShown | src/components/Header/Header.tsx:420-422 | the guard around the modal wrapper: `becomeStreamer`, `startStream`, or `auth` while there is no user; `ShownModalsHaveTitles` states what it admits |
| Header.ShownModalsHaveTitles | src/components/Header/Header.tsx:420-422 | a modal is shown iff it is `becomeStreamer`, `startStream`, or `auth` with no user; every shown modal has a title; the only shown non-closable modal is `auth` |
| Header.StreamerChoice | src/components/Header/Header.tsx:160 | `becomeStreamer` iff there is a user with a roles list lacking `streamer`; a missing user or roles list gives `startStream` |
| Header.UnreadCount | src/components/Header/Header.tsx:298-299 | the badge count is at most the list length; it is 0 iff no entry is unread, and the full length iff all are |
| Header.UnreadCountAppend | src/components/Header/Header.tsx:298-299 | the count of two lists together is the sum of their counts |
| Header.HeaderState.constructor | src/components/Header/Header.tsx:57-65 | no modal, closed menus and overlay, empty search, no timer |
| Header.HeaderState.HandleSearch | src/components/Header/Header.tsx:216-226 | the value is always stored; a non-blank value opens the overlay and requests a search for it; a blank one clears the results and closes the overlay |
| Header.HeaderState.ClickOutside | src/components/Header/Header.tsx:75-78 | the overlay closes and the search value resets to "" |
| Header.HeaderState.ClickStream | src/components/Header/Header.tsx:80-84 | pushes the stream's video page, closes the overlay and resets the value |
| Header.HeaderState.KeyDown | src/components/Header/Header.tsx:86-93 | Enter replaces the route with the results page for the current value and closes the overlay; any other key changes nothing |
| Header.HeaderState.GetSearchResults | src/components/Header/Header.tsx:95-99 | does nothing for an empty value; otherwise pushes the results page and closes the overlay |
| Header.HeaderState.ClickSearchBox | src/components/Header/Header.tsx:243 | the overlay reopens iff the value is non-empty |
| Header.HeaderState.OnBecomeStreamer | src/components/Header/Header.tsx:159-162 | selects the streamer choice for the current user and closes the mobile menu |
| Header.HeaderState.HandleLogin | src/components/Header/Header.tsx:164-167 | selects `login`, which the header never shows, and closes the mobile menu |
| Header.HeaderState.CloseModal | src/components/Header/Header.tsx:425 | clears the modal type |
| Header.HeaderState.RunAuthGate | src/components/Header/Header.tsx:173-203 | the action is `AuthGate.Step` on the stored entries; skipping changes nothing; opening selects `auth` and leaves storage alone; arming records the timer and writes storage as `AuthGate.Written` |
| Header.HeaderState.AuthTimerFires | src/components/Header/Header.tsx:196-198 | the timer selects `auth`, which is shown iff there is no user |
| LegacyRegistration.WithValue | src/components/Header/RegistrationModal.tsx:85 | sets the one field and keeps every other |
| LegacyRegistration.SubmitErrors | src/components/Header/RegistrationModal.tsx:40-65 | the `errors` map after the six checks, applied in source order to the previous map; `SubmitErrorsByField` and `MissingEmailBlamesUsername` state what each key then holds |
| LegacyRegistration.SubmitDisabled | src/components/Header/RegistrationModal.tsx:188-195 | the button is disabled while a field is empty, an error is recorded or a request is pending; `FailedSubmitDisables` and `EnabledSubmitSends` relate it to submit |
| LegacyRegistration.FailedChecks | src/components/Header/RegistrationModal.tsx:39-65 | `errorsCount` is at most 6, and 0 iff all four fields are filled, the e-mail has '@' and '.', and the passwords match |
| LegacyRegistration.Body | src/components/Header/RegistrationModal.tsx:72-75 | the request carries every form field unchanged plus `confirmPassword` = `repeatPassword` |
| LegacyRegistration.MissingEmailBlamesUsername | src/components/Header/RegistrationModal.tsx:44-47 | an empty e-mail records the required message on `username`, while `email` gets the format message |
| LegacyRegistration.SubmitErrorsByField | src/components/Header/RegistrationModal.tsx:40-65 | after submit the error keys are the old ones plus those of the failed checks; untouched errors are kept; the mismatch message overrides the required one on `repeatPassword` |
| LegacyRegistration.FailedSubmitDisables | src/components/Header/RegistrationModal.tsx:188-195 | a submit with a failed check leaves the button disabled |
| LegacyRegistration.EnabledSubmitSends | src/components/Header/RegistrationModal.tsx:188-195 | behind an enabled button, submit sends iff the e-mail has its shape and the passwords match, and then records no error |
| LegacyRegistration.RegistrationModal.constructor | src/components/Header/RegistrationModal.tsx:26-27 | empty fields and no errors |
| LegacyRegistration.RegistrationModal.HandleInputChange | src/components/Header/RegistrationModal.tsx:84-87 | sets only that field and clears only that field's error |
| LegacyRegistration.RegistrationModal.HandleSubmit | src/components/Header/RegistrationModal.tsx:37-82 | errors become `SubmitErrors`; the count is `FailedChecks`; a request is sent iff the count is 0; the token is handed on after success; failure alerts |
| LegacyLogin.Admits | src/components/Header/LoginModal.tsx:40 | submit goes on only when both fields are non-empty; `DisabledMatchesCheck` relates it to the button |
| LegacyLogin.SubmitDisabled | src/components/Header/LoginModal.tsx:114 | the button is disabled while a field is empty or a request is pending |
| LegacyLogin.DisabledMatchesCheck | src/components/Header/LoginModal.tsx:114 | with nothing pending the button is enabled iff submit's required-field check passes; a pending request always disables it |
| LegacyLogin.LoginModal.constructor | src/components/Header/LoginModal.tsx:28-29 | empty fields and no error |
| LegacyLogin.LoginModal.HandleInputChange | src/components/Header/LoginModal.tsx:57-60 | updates only that field and clears `loginError` |
| LegacyLogin.LoginModal.OnSubmit | src/components/Header/LoginModal.tsx:37-55 | an empty field sets the required-fields message and sends nothing; otherwise sends `identity` = login and the password, and hands on the token after success |
| AuthPages.PageData | src/components/Header/AuthorizationModal/LoginModalWrapper.tsx:28-70 | the footer leads from `login` to `registration` and from the two other pages to `login` |
| AuthPages.TitlesDistinct | src/components/Header/AuthorizationModal/LoginModalWrapper.tsx:30-59 | the three pages have pairwise different titles |
| AuthPages.Render | src/components/Header/AuthorizationModal/LoginModalWrapper.tsx:80-146 | null renders no title, form or footer; a page renders all three, and both tabs hold the same page |
| AuthPages.Navigate | src/components/Header/AuthorizationModal/LoginModalWrapper.tsx:28-70 | null stays null; the modal closes only after a login or the recovery page's "Continue" |
| AuthPages.FooterRoundTrips | src/components/Header/AuthorizationModal/LoginModalWrapper.tsx:43-68 | two footer clicks return to login or registration; recovery's footer and "Forgot your password?" then the footer both lead to login |
| FormSchema.FailingMessages | src/components/Header/AuthorizationModal/RegistrationModal.tsx:13-54 | at most one message per rule; none iff every rule passes; a failing first rule gives the first message |
| FormSchema.ExternalErrors | src/components/Header/AuthorizationModal/RegistrationModal.tsx:94-112 | field errors are set iff the failure is a 400 with a body |
| FormSchema.FirstMessages | src/components/Header/AuthorizationModal/RegistrationModal.tsx:104-109 | every key of the body maps to its first message, or to nothing for an empty list |
| FormSchema.CollectServerErrors | src/components/Header/AuthorizationModal/RegistrationModal.tsx:104-109 | the `forEach` loop builds exactly `FirstMessages` of the body |
| FormSchema.DisplayedError | src/components/Header/AuthorizationModal/LoginModal.tsx:104 | an error is displayed only while the field is non-empty, and then it is the recorded one |
| AuthRegistration.FieldRules | src/components/Header/AuthorizationModal/RegistrationModal.tsx:13-54 | the `Validation` constant, the source's `validation` object, gives login: required, then at least 3 characters; email: required, then the pattern; password: required, then at least 8 characters; confirmPassword: required, then equal to password |
| AuthRegistration.SatisfiedIff | src/components/Header/AuthorizationModal/RegistrationModal.tsx:13-54 | the schema holds iff the login has at least 3 characters, the e-mail is non-empty and matches, the password has at least 8 characters and the confirmation equals it |
| AuthRegistration.InitialFormFails | src/components/Header/AuthorizationModal/RegistrationModal.tsx:63-68 | every field of the `InitForm` constant (`initFormState`, all four fields "") fails its required rule first, so the schema does not hold |
| AuthRegistration.InitialFormShowsNoErrors | src/components/Header/AuthorizationModal/RegistrationModal.tsx:130 | on the initial form no error is displayed, whatever is recorded |
| AuthRegistration.Request | src/components/Header/AuthorizationModal/RegistrationModal.tsx:86-91 | `login` is sent as `username`; the other three fields are sent unchanged |
| AuthRegistration.RequestRoundTrip | src/components/Header/AuthorizationModal/RegistrationModal.tsx:86-91 | a request is rebuilt from its own form; two forms give the same request iff their four fields agree |
| AuthRegistration.Submit | src/components/Header/AuthorizationModal/RegistrationModal.tsx:84-114 | success switches to the login page; a 400 with a body sets the first messages; any other failure does nothing |
| AuthRegistration.Toggle | src/components/Header/AuthorizationModal/RegistrationModal.tsx:78-82 | flips one visibility flag and keeps the other |
| AuthRegistration.ToggleTwice | src/components/Header/AuthorizationModal/RegistrationModal.tsx:78-82 | toggling twice restores the flags |
| AuthLogin.FieldRules | src/components/Header/AuthorizationModal/LoginModal.tsx:17-34 | the `Validation` constant, the source's `validation` object, gives identity: required, then the e-mail pattern; password: required only |
| AuthLogin.SatisfiedIff | src/components/Header/AuthorizationModal/LoginModal.tsx:17-34 | the schema holds iff the identity is non-empty and matches the pattern and the password is non-empty |
| AuthLogin.InitialFormFails | src/components/Header/AuthorizationModal/LoginModal.tsx:41-44 | both fields of the `InitForm` constant (`initFormState`, both "") fail their required rule first |
| AuthLogin.Submit | src/components/Header/AuthorizationModal/LoginModal.tsx:52-79 | sends the whole form; success sets the `access-token` cookie to the token, invalidates the profile query and closes the modal, in that order; a 400 with a body sets the first messages; other failures set nothing |
| RecoveryFlow.NextStep | src/components/Header/AuthorizationModal/RecoveryModal.tsx:31-44 | the step becomes `successNotification` iff it was already there or the status is 204; otherwise it is unchanged |
| RecoveryFlow.ResetAlert | src/components/Header/AuthorizationModal/RecoveryModal.tsx:31-41 | an alert is raised iff the request answered with a status other than 204 |
| RecoveryFlow.StepData | src/components/Header/AuthorizationModal/RecoveryModal.tsx:57-70 | the step's own flag disables the button iff the step is `sendMassage` and the e-mail is empty; the action closes the modal iff the step is `successNotification` |
| RecoveryFlow.ButtonDisabled | src/components/Header/AuthorizationModal/RecoveryModal.tsx:97 | the step's own `disabled` flag or a pending request; `ButtonEnabledIff` states when that holds |
| RecoveryFlow.EmailInputShown | src/components/Header/AuthorizationModal/RecoveryModal.tsx:77 | the e-mail input exists only in the `sendMassage` step; `RecoveryModal.EditEmail` relies on it |
| RecoveryFlow.ButtonEnabledIff | src/components/Header/AuthorizationModal/RecoveryModal.tsx:97 | the button is enabled iff nothing is pending and either the letter was sent or an e-mail is typed |
| RecoveryFlow.Replay | src/components/Header/AuthorizationModal/RecoveryModal.tsx:31-34 | after a series of answers the notification step is reached iff it was already reached or some answer was 204 |
| RecoveryFlow.RecoveryModal.constructor | src/components/Header/AuthorizationModal/RecoveryModal.tsx:20-21 | the first step with an empty e-mail |
| RecoveryFlow.RecoveryModal.EditEmail | src/components/Header/AuthorizationModal/RecoveryModal.tsx:77-89 | the e-mail can be edited only in the first step, where its input exists |
| RecoveryFlow.RecoveryModal.PressButton | src/components/Header/AuthorizationModal/RecoveryModal.tsx:94-98 | a disabled button does nothing; in the first step it requests a reset for the (non-empty) e-mail and moves by `NextStep`; in the second it closes the modal |
| PasswordRecovery.EmailAccepted | src/components/Header/PasswordRecoveryModal/Email.tsx:23 | the e-mail is accepted iff it contains '@' and '.'; the emptiness test is implied |
| PasswordRecovery.EmailStep.constructor | src/components/Header/PasswordRecoveryModal/Email.tsx:12-13 | empty e-mail and error |
| PasswordRecovery.EmailStep.Disabled | src/components/Header/PasswordRecoveryModal/Email.tsx:59 | the button is disabled while the e-mail is empty, an error is shown or a request is pending |
| PasswordRecovery.EmailStep.Edit | src/components/Header/PasswordRecoveryModal/Email.tsx:43-46 | sets the e-mail and clears the error |
| PasswordRecovery.EmailStep.Submit | src/components/Header/PasswordRecoveryModal/Email.tsx:20-35 | a malformed e-mail sets the format error, sends nothing and disables the button; otherwise the reset is requested and the same e-mail goes on iff it succeeds, else an alert |
| PasswordRecovery.CodeStep.constructor | src/components/Header/PasswordRecoveryModal/Code.tsx:12-14 | keeps the given token; empty code and error |
| PasswordRecovery.CodeStep.Disabled | src/components/Header/PasswordRecoveryModal/Code.tsx:54 | the button is disabled while the code is empty, an error is shown or a request is pending |
| PasswordRecovery.CodeStep.Edit | src/components/Header/PasswordRecoveryModal/Code.tsx:38-41 | sets the code and clears the error |
| PasswordRecovery.CodeStep.Submit | src/components/Header/PasswordRecoveryModal/Code.tsx:18-30 | the request carries the code and the token; success hands on exactly the code; failure sets 'Неверный код', which disables the button |
| PasswordRecovery.NewPasswordForm.constructor | src/components/Header/PasswordRecoveryModal/NewPassword.tsx:18 | empty passwords, both hidden |
| PasswordRecovery.NewPasswordForm.EditPassword | src/components/Header/PasswordRecoveryModal/NewPassword.tsx:24 | changes only the password |
| PasswordRecovery.NewPasswordForm.EditRepeatPassword | src/components/Header/PasswordRecoveryModal/NewPassword.tsx:48 | changes only the repeated password |
| PasswordRecovery.NewPasswordForm.TogglePassword | src/components/Header/PasswordRecoveryModal/NewPassword.tsx:38 | flips only its own flag |
| PasswordRecovery.NewPasswordForm.ToggleRepeatPassword | src/components/Header/PasswordRecoveryModal/NewPassword.tsx:63 | flips only its own flag |
| PasswordRecovery.NewPasswordForm.Disabled | src/components/Header/PasswordRecoveryModal/NewPassword.tsx:74 | the button is disabled while either password is empty |
| PasswordRecovery.NewPasswordForm.Submit | src/components/Header/PasswordRecoveryModal/NewPassword.tsx:74-80 | goes on iff the passwords match, with exactly the password, which is non-empty behind an enabled button; a mismatch alerts |
| Common.Filter | src/components/Header/StartStreamModal.tsx:50 | `filter` never lengthens the list, and every element it keeps is in the list and accepted by the callback |
| Common.FilterMembership | src/components/Header/StartStreamModal.tsx:50 | an element is kept iff it is in the list and the callback accepts it |
| Common.FilterAppend | src/components/Header/StartStreamModal.tsx:50 | filtering a concatenation is concatenating the filtered parts, so the order is kept |
| Common.FilterKeepsAll | src/components/Header/StartStreamModal.tsx:50 | a list whose every element is accepted passes through whole |
| StartStream.NonBlank | src/components/Header/StartStreamModal.tsx:50 | the callback `(tag) => tag.trim() !== ''`; by `Common.TrimEmptyIffBlank` it holds iff the tag is not all white space |
| StartStream.ParseTags | src/components/Header/StartStreamModal.tsx:48-57 | the tag list is never empty, no tag contains a space, and no tag before the draft trims to "" |
| StartStream.ParseTagsKeepsWords | src/components/Header/StartStreamModal.tsx:48-50 | a word is among the tags before the draft iff it is a piece of the text before its last space and does not trim to "" |
| StartStream.DraftIsLastWord | src/components/Header/StartStreamModal.tsx:49-51 | the last tag is the text after the last space |
| StartStream.ParseTagsIdempotent | src/components/Header/StartStreamModal.tsx:48-57 | re-parsing `tags.join(' ')` gives back the same tags |
| StartStream.CategoryOptions | src/components/Header/StartStreamModal.tsx:119-122 | one option per category, with label = value = its name; none while categories are missing |
| StartStream.SubmitBody | src/components/Header/StartStreamModal.tsx:66-71 | the category defaults to ""; name, notification and tags are sent verbatim |
| StartStream.StartStreamForm.constructor | src/components/Header/StartStreamModal.tsx:25-30 | empty form, with both caps holding |
| StartStream.StartStreamForm.EditName | src/components/Header/StartStreamModal.tsx:89-93 | an edit is taken only if shorter than 140, so the name stays under the cap |
| StartStream.StartStreamForm.EditNotification | src/components/Header/StartStreamModal.tsx:105-109 | an edit is taken only if shorter than 140, so the notification stays under the cap |
| StartStream.StartStreamForm.ChangeCategory | src/components/Header/StartStreamModal.tsx:124 | sets the category |
| StartStream.StartStreamForm.HandleTagsChange | src/components/Header/StartStreamModal.tsx:48-57 | only the tags change, to `ParseTags(text)`, and the input's shown value parses back to them |
| StartStream.StartStreamForm.TagsInputValue | src/components/Header/StartStreamModal.tsx:138 | the tags input shows `tags.join(' ')`; `HandleTagsChange` states that it parses back to the tags |
| StartStream.StartStreamForm.HandleSubmit | src/components/Header/StartStreamModal.tsx:64-73 | the body is `SubmitBody` of the form, and its texts are under the cap |

## Left out

- Rendering, CSS, icons, animations and the media-query layout are not modelled. They are presentation only.
- Timers are not modelled. The model records the armed delay but not the firing of `setTimeout`. `AuthTimerFires` models only what the callback does.
- The effect's cleanup (`Header.tsx` lines 205-209) is not modelled. It clears the timer captured by its own render, not the one it armed.
- `Date.now()` is a parameter.
- `localStorage` is a map.
- `process.env.NEXT_PUBLIC_TIMER_AUTH` is an optional string.
- JavaScript numbers are modelled as integers plus NaN. Fractions, exponents, Infinity, hexadecimal literals and the 64-bit float range are not modelled. The clock and the stored values are integers in practice.
- Strings are sequences of characters. JavaScript's `length` counts UTF-16 code units, so the 140-character caps, and the `val.length >= 3` and `val.length >= 8` rules of the registration schema (`MinLength(3)` and `MinLength(8)`), differ for text outside the Basic Multilingual Plane.
- `REGULAR_EXPRESSIONS.email` is not part of this model. The schemas take it as an opaque predicate `emailTest`.
- The `useForm` hook is not part of this model. That covers when it runs the rules, which errors it keeps, and its `isValid`. `SchemaSatisfied` states only that every rule of the schema passes. Nothing is claimed about how that relates to `isValid`, or to the first failing rule being the one displayed.
- The network services are outcomes passed in: success with a token, an HTTP error with a status and an optional body, or no response. HTTP itself is not modelled.
- react-query caching, `isPending` (a boolean input), the router (navigations are returned values), cookies (a returned effect), `URLSearchParams` encoding, `alert` (a returned message) and `console.log` are not modelled beyond what those parentheticals say.
- The search request's results come from the mutation's data, which the overlay lists; they are not modelled. `searchResults` is modelled only as the state the handler clears.
- Several parts are not modelled:
  - the notification websocket and the Redux store: the subscriber list is an input;
  - the logout handler;
  - the user-menu toggles;
  - the stream-start form's `stopStream` on mount;
  - the navigation to the new stream after a successful start.
- `DropDownProfile.tsx`, `Search/getSerchItem.tsx` and `next.config.mjs` are not part of this model. They hold markup and build configuration only.
- The `{}`-initialised forms (the legacy forms, `RecoveryModal`, `NewPassword`) start with `undefined` fields. The model starts them as `""` and `false`. As a consequence, the legacy registration's `formState.email.includes` on a never-edited e-mail is modelled as a check that fails rather than as the exception JavaScript would throw.
- Clearing an error in the legacy registration stores `undefined` under the key. The model removes the key. The disabled predicate counts only string-valued errors, so the two agree.
- `Header.Modals`: the close flags of the other entries are left to `ModalWrapper`'s defaults. `ModalWrapper` is not part of this model, so neither is whether those modals can be closed.
- The legacy login's failed request only logs. The model returns no token and no alert for it.
