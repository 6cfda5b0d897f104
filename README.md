# Uncode Society registration: a verified model

This project models the registration logic of the Uncode Society coding-class
website in Dafny and proves what that logic promises. It covers four parts:

- **The sign-up modal** (`src/components/SignUpModal.tsx`):
  - the three field rules: a trimmed name, an age read with JavaScript's `parseInt`, and an e-mail address matched against `^[^\s@]+@[^\s@]+\.[^\s@]+$`;
  - the batch validator;
  - the modal's state as a class: form values, per-field messages, the submitting and success flags, the simulated submission log, and the handlers that change them.
- **The `send-registration-email` function** (`supabase/functions/send-registration-email/index.ts`):
  - the CORS preflight answer;
  - the ordered guards and the message of the first one that fails;
  - the 200 / 500 answers;
  - the notification e-mail's sender, recipient and subject.
- **The index page** (`src/pages/Index.tsx`): whether the modal is open and which lesson it was opened for. This is a class whose handlers write the two fields.
- **The lesson catalog** (`src/components/LessonsSection.tsx`): the six lessons, and the cards that show "Datum volgt", "Tijd volgt" and "Locatie volgt" for an empty date, time or location.

## Files

| file | module | contents |
|---|---|---|
| `wrappers.dfy` | `Wrappers` | `Option` |
| `js_text.dfy` | `JsText` | JavaScript white space, `trim`, `trimStart`, `trimEnd`, `parseInt` without a radix, decimal spelling |
| `email_rule.dfy` | `EmailRule` | the e-mail pattern, in two forms: as a split into parts, and as a check a program can run; the proof that they agree |
| `lessons.dfy` | `Lessons` | the catalog and its cards |
| `pages.dfy` | `Pages` | the index page's state |
| `sign_up.dfy` | `SignUp` | field rules, validator, and the `SignUpModal` class |
| `send_registration_email.dfy` | `RegistrationEmail` | the request handler |
| `client_server.dfy` | `ClientServer` | the form's rules compared with the function's guards |

## Behaviour of the code worth knowing

- **Lesson dates.** No code computes lesson dates. Every catalog entry has an empty date, time and location, so every card shows the placeholders.
- **Closing the modal.** The backdrop and the close button only call `onClose`. They do not reset the form or the messages. The success timer empties the form; nothing ever clears the messages on close. `SignUpModal.Dismiss` and `SignUpModal.SuccessTimerFires` state this.
- **Submission.** The form never calls the notification function: it waits, logs and shows success. The two sides are modelled separately. `ClientServer` compares them on the record the form's values would make. `ClientServer.RecordOf` builds that record: the name and the address as typed, the age as the number `parseInt` reads (`ClientServer.AgeNumber`, absent for NaN), and the chosen lesson's title.
- **The success timer.** A manual close does not cancel the 2.5 s success timer. If the modal is reopened before the timer fires, the timer closes it again. `StaleResetClosesReopenedModal` proves this.

## Model

| member | source | states |
|---|---|---|
| JsText.IsSpace | src/components/SignUpModal.tsx:53 | the white space of `\s`, `trim` and `parseInt`: the ECMAScript WhiteSpace and LineTerminator characters (a character class, no contract) |
| JsText.TrimStart | src/components/SignUpModal.tsx:38 | `trimStart` never lengthens the text; its meaning is `JsText.TrimStartShape` |
| JsText.TrimEnd | src/components/SignUpModal.tsx:51 | `trimEnd` never lengthens the text; its meaning is `JsText.TrimEndShape` |
| JsText.Trim | src/components/SignUpModal.tsx:38 | `trim()`, computed as `trimEnd` after `trimStart`; its meaning is `JsText.TrimEmptyIffBlank` |
| JsText.TrimStartShape | src/components/SignUpModal.tsx:38 | `trimStart` keeps a suffix that does not start with white space, and everything it drops is white space |
| JsText.TrimEndShape | src/components/SignUpModal.tsx:51 | `trimEnd` keeps a prefix that does not end with white space, and everything it drops is white space |
| JsText.TrimEmptyIffBlank | src/components/SignUpModal.tsx:38 | `trim()` is empty exactly when the text is all white space; otherwise the result starts and ends with a non-space |
| JsText.ParseInt | src/components/SignUpModal.tsx:42 | `parseInt` of blank text is NaN |
| JsText.ParseIntSkipsLeadingSpace | src/components/SignUpModal.tsx:42 | leading white space never changes what `parseInt` reads |
| JsText.ParseIntOfDecimal | src/components/SignUpModal.tsx:42 | `parseInt` reads back any integer's decimal spelling, followed by anything but a digit, `x` or `X` |
| JsText.NatToString | src/components/SignUpModal.tsx:42 | the decimal spelling is non-empty, all digits, has no leading zero, and its digits' value is the number |
| EmailRule.FirstIndexOf | src/components/SignUpModal.tsx:53 | the index found holds the character and no earlier index does; with no index, the character does not occur |
| EmailRule.IsValidEmail | src/components/SignUpModal.tsx:53 | the runnable test of `^[^\s@]+@[^\s@]+\.[^\s@]+$`; its meaning is `EmailRule.IsValidEmailIffPattern` |
| EmailRule.IsValidEmailIffPattern | src/components/SignUpModal.tsx:53 | the check accepts exactly the strings the pattern matches |
| EmailRule.PatternIsNotBlank | src/components/SignUpModal.tsx:51-55 | a string the pattern matches is never blank, so "required" and "malformed" never overlap |
| EmailRule.DottedHostIsValid | src/components/SignUpModal.tsx:53 | "a@b.co" matches |
| EmailRule.MalformedExamples | src/components/SignUpModal.tsx:53 | "abc", "a@b" and " a@b.co" do not match |
| Lessons.LanguageName | src/components/LessonsSection.tsx:10 | the language tag is HTML/CSS, Python or Java |
| Lessons.LevelName | src/components/LessonsSection.tsx:11 | the level tag is Beginner or Intermediate |
| Lessons.OrPlaceholder | src/components/LessonsSection.tsx:146-154 | `value \|\| placeholder` shows a non-empty value unchanged, and the placeholder for an empty one |
| Lessons.Cards | src/components/LessonsSection.tsx:117-163 | one card per lesson, in catalog order; each card's button hands on exactly its lesson; no detail is ever blank; present details are shown as given |
| Lessons.CardOf | src/components/LessonsSection.tsx:129-163 | what one card shows and hands on; its meaning is stated for every card by `Lessons.Cards` |
| Lessons.CatalogIds | src/components/LessonsSection.tsx:22-83 | the constant `UpcomingLessons` holds six lessons with ids "1" to "6" in order, pairwise distinct |
| Lessons.CatalogSpots | src/components/LessonsSection.tsx:22-83 | the places left are 15, 12, 10, 14, 8, 11, all positive |
| Lessons.EveryCardShowsPlaceholders | src/components/LessonsSection.tsx:146-154 | every catalog card shows all three placeholders |
| Pages.Index.constructor | src/pages/Index.tsx:13-14 | the page starts with the modal closed and no lesson selected |
| Pages.Index.HandleSignUpClick | src/pages/Index.tsx:16-19 | a general sign-up button clears the selection and opens the modal |
| Pages.Index.HandleLessonSignUp | src/pages/Index.tsx:21-24 | a lesson's button selects exactly that lesson and opens the modal |
| Pages.Index.OnClose | src/pages/Index.tsx:38 | closing clears the open flag and keeps the selection |
| Pages.Index.LessonCardClicked | src/components/LessonsSection.tsx:163 | pressing the `i`-th card's button selects the `i`-th catalog lesson and opens the modal |
| SignUp.NameError | src/components/SignUpModal.tsx:38-40 | the name rule as the code computes it; its meaning is `SignUp.NameErrorIff` |
| SignUp.NameErrorIff | src/components/SignUpModal.tsx:38-40 | the name is refused exactly when it is blank, and then as "Full legal name is required"; there is no length limit |
| SignUp.AgeError | src/components/SignUpModal.tsx:42-49 | age accepted exactly when `parseInt` reads 14 to 100; "required" exactly for empty text; "14 or older" exactly for non-empty text that is NaN or below 14; "valid age" exactly above 100 |
| SignUp.AgeVerdict | src/components/SignUpModal.tsx:42-49 | any integer's spelling, followed by anything but a digit, `x` or `X`, is judged by its value: below 14 too young, above 100 invalid, otherwise accepted |
| SignUp.AgeThirteenTooYoung | src/components/SignUpModal.tsx:45-46 | "13" is too young |
| SignUp.AgeFourteenAccepted | src/components/SignUpModal.tsx:45-49 | "14" is accepted |
| SignUp.AgeHundredAccepted | src/components/SignUpModal.tsx:47-49 | "100" is accepted |
| SignUp.AgeHundredOneInvalid | src/components/SignUpModal.tsx:47-48 | "101" is not a valid age |
| SignUp.AgeReadsLeadingNumber | src/components/SignUpModal.tsx:42 | "15abc" is accepted as 15 |
| SignUp.AgeMissingOrNotANumber | src/components/SignUpModal.tsx:43-46 | "" is required; " " is too young, because it is not a number |
| SignUp.EmailError | src/components/SignUpModal.tsx:51-55 | the e-mail rule as the code computes it; its meaning is `SignUp.EmailErrorIff` |
| SignUp.EmailErrorIff | src/components/SignUpModal.tsx:51-55 | the address is accepted exactly when it matches the pattern, called missing exactly when blank, and called malformed exactly when it is not blank and does not match |
| SignUp.EmailAcceptedOrMissing | src/components/SignUpModal.tsx:51-55 | "a@b.co" is accepted; "" is required |
| SignUp.EmailWithoutAt | src/components/SignUpModal.tsx:53-54 | "abc" is malformed |
| SignUp.EmailWithoutDot | src/components/SignUpModal.tsx:53-54 | "a@b" is malformed |
| SignUp.EmailWithLeadingSpace | src/components/SignUpModal.tsx:53-54 | " a@b.co" is malformed: the pattern sees the untrimmed text |
| SignUp.Validate | src/components/SignUpModal.tsx:35-58 | the batch verdict, one rule per field; its meaning is `SignUp.ValidateMeaning` |
| SignUp.ValidateMeaning | src/components/SignUpModal.tsx:35-58 | each message depends on its own field only; no message at all exactly when the form is acceptable |
| SignUp.ThreeErrorsAtOnce | src/components/SignUpModal.tsx:35-58 | "", "10", "bad" give all three messages at once |
| SignUp.WithField | src/components/SignUpModal.tsx:92 | the named field takes the value; the other fields keep theirs |
| SignUp.ClearError | src/components/SignUpModal.tsx:95 | the named message is removed; the other messages stay |
| SignUp.SignUpModal.constructor | src/components/SignUpModal.tsx:26-33 | empty form, no messages, neither submitting nor successful |
| SignUp.SignUpModal.ValidateForm | src/components/SignUpModal.tsx:35-59 | the messages are replaced wholesale by the validator's verdict; the answer is true exactly when there is none |
| SignUp.SignUpModal.HandleSubmit | src/components/SignUpModal.tsx:61-66 | on a failed validation only the messages change; otherwise submitting starts, capturing the form and the selected lesson |
| SignUp.SignUpModal.PressSubmit | src/components/SignUpModal.tsx:251 | the press reaches the handler exactly when the form is shown, the button is enabled and the browser's input constraints hold (their verdict is given); otherwise nothing changes |
| SignUp.SignUpModal.SubmitDelayElapses | src/components/SignUpModal.tsx:70-80 | the captured registration is logged, submitting stops and success shows |
| SignUp.SignUpModal.SuccessTimerFires | src/components/SignUpModal.tsx:83-87 | success ends, all three fields are emptied, the page's `onClose` runs; the messages are kept |
| SignUp.SignUpModal.HandleChange | src/components/SignUpModal.tsx:90-97 | only the named field changes; its message is removed only if one is showing |
| SignUp.SignUpModal.Dismiss | src/components/SignUpModal.tsx:108 | the backdrop or the close button only closes the modal |
| SignUp.DoubleSubmitLogsOnce | src/components/SignUpModal.tsx:251 | a second press while submitting is not handled, and exactly one registration is logged |
| SignUp.CompleteRegistration | src/components/SignUpModal.tsx:61-88 | submit, wait, success, reset: the modal ends closed with an empty form and one registration logged |
| SignUp.StaleResetClosesReopenedModal | src/components/SignUpModal.tsx:83-87 | the success timer is not cancelled by a manual close, and closes a modal reopened before it fires |
| RegistrationEmail.FirstFailure | supabase/functions/send-registration-email/index.ts:30-45 | the guards in the handler's order, giving the first failing one's message; its meaning is `RegistrationEmail.FirstFailureNoneIff`, and the order is stated by `RegistrationEmail.LengthGuardComesFirst` and `RegistrationEmail.AgeGuardBeforeEmail` |
| RegistrationEmail.FirstFailureNoneIff | supabase/functions/send-registration-email/index.ts:30-45 | every guard passes exactly when all of these hold: a non-empty name of at most 100 characters, an age from 14 to 100, an address of at most 255 characters matching the pattern, and a non-empty lesson title |
| RegistrationEmail.Notification | supabase/functions/send-registration-email/index.ts:49-52 | the e-mail goes from the fixed sender to the fixed recipient; its subject is "Nieuwe Aanmelding: ", then the name, " - " and the lesson title |
| RegistrationEmail.Handle | supabase/functions/send-registration-email/index.ts:21-114 | a preflight gets "ok" with the CORS headers and sends nothing; a body that does not parse gets a 500 with the parser's message; every other answer is 200 or 500 with the JSON and CORS headers; a 500 carries an error message; an e-mail is handed over exactly for a parsed record, outside a preflight, that passes every guard, and it is that record's notification |
| RegistrationEmail.SuccessIff | supabase/functions/send-registration-email/index.ts:102-105 | outside a preflight, the answer is a 200 `{success: true}` exactly when the record is accepted and the call to the mail service returns, whatever it returns |
| RegistrationEmail.RejectedRecord | supabase/functions/send-registration-email/index.ts:106-114 | a record that is not accepted gets a 500 with the first failing guard's message, and nothing is sent |
| RegistrationEmail.FalsyFieldsAreMissing | supabase/functions/send-registration-email/index.ts:30-32 | age 0 and empty strings count as missing; the language and the level are not required |
| RegistrationEmail.LengthGuardComesFirst | supabase/functions/send-registration-email/index.ts:34-36 | with every field present, a too-long name or address is reported as "Input too long", whatever the age and the address shape |
| RegistrationEmail.AgeGuardBeforeEmail | supabase/functions/send-registration-email/index.ts:38-40 | within the length limits, an age outside 14 to 100 is reported as "Invalid age", whatever the address shape |
| RegistrationEmail.BoundariesAccepted | supabase/functions/send-registration-email/index.ts:34-40 | a 100-character name, a 255-character address and the ages 14 and 100 pass their guards |
| RegistrationEmail.LanguageAndLevelIgnored | supabase/functions/send-registration-email/index.ts:27 | the lesson language and level never change the answer, the sender, the recipient or the subject (they appear only in the HTML body, which is not modelled) |
| RegistrationEmail.SendFailureIsReported | supabase/functions/send-registration-email/index.ts:106-114 | a mail service that throws turns an accepted registration into a 500 with the service's message |
| ClientServer.FormAcceptedWithinLimitsIsServerAccepted | supabase/functions/send-registration-email/index.ts:30-45 | a form the modal accepts passes every guard of the function, given a name of at most 100 characters, an address of at most 255 characters, and a lesson title |
| ClientServer.LongNameOnlyServerRejects | supabase/functions/send-registration-email/index.ts:34-36 | a name the modal accepts that is longer than 100 characters is answered "Input too long" |
| ClientServer.LongNameExample | supabase/functions/send-registration-email/index.ts:34-36 | 101 letters, age "20" and "a@b.co" pass the modal and are refused by the function |
| ClientServer.BlankNameOnlyFormRejects | src/components/SignUpModal.tsx:38-40 | a name of spaces only is refused by the modal and passes the function, which does not trim |

## Left out

- Animation, layout and styling, and the purely presentational sections of the site, have no behaviour to state.
- The 1.5 s and 2.5 s waits are not modelled as real time: they are the steps `SubmitDelayElapses` and `SuccessTimerFires`, and the modal holds at most one pending wait of each kind.
- `console.log` calls: the modal's registration log is the `log` field, and the function's log lines are not modelled.
- The mail service is a parameter whose call returns or throws. The handler never looks at what the call returns, so the model does not either. The API key and the network call are not modelled. The mail library is not part of this model, so whether it reports API errors by returning them rather than by throwing is not modelled either. Such a returned error still gives the 200.
- The function's HTML e-mail body is not modelled; the e-mail is only its sender, recipient and subject.
- `req.json()` is not modelled: a request arrives parsed, or with the parser's error message. The HTTP server wrapper is not modelled either.
- JSON values of the wrong type are not modelled. Examples are a number where a string is expected, or a string age, which JavaScript would coerce. Each field is absent, or of its declared type.
- RegistrationEmail.FirstFailure: lengths are counted in characters, not in UTF-16 code units as JavaScript's `length` does.
- ClientServer.AgeNumber: the number is exact. JavaScript's `parseInt` yields a floating-point number that loses precision above 2^53 and becomes `Infinity` for very long digit runs. An age `NaN` never reaches the server guards in this model.
- JsText.ParseInt: `parseInt` is modelled without a radix argument, as the form calls it. The optional sign and the `0x` prefix are modelled.
- SignUp.SignUpModal.PressSubmit: the browser's own checks of the inputs are not computed, only taken as the `constraintsMet` argument. These are `type="number"` with `min="1"` and `max="100"` (src/components/SignUpModal.tsx:199-205) and `type="email"` (src/components/SignUpModal.tsx:228), with no `noValidate` on the form. The browser's sanitising of input values is not modelled either: a number input's value is "" unless it is a valid number, and an e-mail input's value has surrounding white space stripped. So in a browser, an age over 100 or a non-integer age, and an address without `@`, stop the submit event before `handleSubmit` runs. The "Please enter a valid age" message and the no-`@` case of "Please enter a valid email address" are therefore not reachable there. The field rules are modelled as `validateForm` states them, for any text.
- The `onSelectLesson` prop passed by the index page is not read by the modal, and is not modelled.
- No code computes lesson dates, so nothing about dates is modelled.
