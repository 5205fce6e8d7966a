# MusicLang survey validators, modelled in Dafny

The MusicLang questionnaire is a set of survey pages. Participants cannot
leave a page until its "next" button is enabled. `validators.js` holds one
validator per page. Every validator works the same way:

1. It resets the module flag `is_valid` to true (`set_globals`).
2. It disables the button with the default prompt
   "Please answer all the questions above" (`allow_next(false)`).
3. It reads the answers by position (`get_answer(i)` reads the input of child
   `i` of the page's form).
4. It runs a fixed chain of `if` rules. Each rule that fires clears `is_valid`
   and writes its message on the button.
5. It enables the button, showing "Continue", only if `is_valid` is still
   true.

The project has five modules:

- `Js` (js.dfy) holds the JavaScript values the validators use:
  - strings as sequences of UTF-16 code units, which is what `.length` counts;
  - numbers, including NaN and the infinities, as comparisons see them;
  - the two exceptions a validator can end in;
  - `Host`, the runtime services the model leaves abstract: string-to-number
    coercion, `toLowerCase`, and the email regular expression.
- `Gating` (gating.dfy) models the rule chain that every validator runs. A
  `Rule` fires when `(is_valid && whenValid) || regardless` holds. The
  `regardless` part is what operator precedence makes of
  `is_valid && a || b`. Its lemmas are about every possible chain.
- `Pages` (pages.dfy) gives each page's rules as written, the page's outcome
  (end state plus normal completion or exception), and lemmas about each page.
- `Intended` (intended.dfy) gives the contact and background rules as they
  were evidently meant ("## Findings").
- `Validators` (validators.js as imperative Dafny, in validators.dfy) has two
  classes:
  - `Globals` holds the module variables;
  - `NextButton` is the DOM button, updated in place.

  Each method's postcondition says that the new state and the completion
  equal those of the matching `Pages` function. Five of the six validator
  methods repeat their JavaScript function statement by statement.
  `ValidateBackgroundInfo` repeats only the reads; after them it ends in the
  exception that line 113 raises (see "## Left out").

Every rule of the personal and musical pages is guarded by `is_valid &&`, and
so is every rule of the corrected background page. On those pages only the
first failing rule's message shows. The contact page's second and third rules
are not guarded that way, so a later rule can overwrite an earlier message
(`Pages.ContactMessage`).

## Model

| member | source | states |
|---|---|---|
| `Validators.Globals.SetGlobals` | validators.js:6-11 | resets `is_valid` to true and changes nothing else |
| `Validators.Globals.AllowNext` | validators.js:13-25 | `allow_next(true)` enables the button with "Continue" and the green colour; `allow_next(false, m)` disables it with text `m` and the red colour; `m` defaults to "Please answer all the questions above" |
| `Validators.Globals.GetAnswer` | validators.js:27-30 | returns the answer of child `question` when the form has that child; otherwise throws a TypeError |
| `Validators.Globals.ValidateContactInfo` | validators.js:32-63 | the end state and completion are those of `Pages.ContactPage` on the current form |
| `Validators.Globals.ValidatePersonalInfo` | validators.js:65-103 | the end state and completion are those of `Pages.PersonalPage` |
| `Validators.Globals.ValidateBackgroundInfo` | validators.js:105-132 | the end state and completion are those of `Pages.BackgroundPage` |
| `Validators.Globals.ValidateLanguageInfo` | validators.js:133-149 | the end state and completion are those of `Pages.LanguagePage` |
| `Validators.Globals.ValidateLanguageDetailedInfo` | validators.js:151-157 | the end state and completion are those of `Pages.LanguageDetailedPage` |
| `Validators.Globals.ValidateMusicalInfo` | validators.js:158-171 | the end state and completion are those of `Pages.MusicalPage` |
| `Gating.Step` | validators.js:44-47 | after one rule, `is_valid` is true exactly when it was true and the rule passes, so it never goes back to true; a disabled button stays disabled; a rule that changes anything leaves `is_valid` false and its own message on the button |
| `Gating.RunValidity` | validators.js:76-99 | after a chain of rules, `is_valid` is true exactly when it started true and every rule passes |
| `Gating.RunKeepsDisabled` | validators.js:44-59 | no rule of a chain enables a disabled button |
| `Gating.Validate` | validators.js:164-170 | for any chain, the validator ends with `is_valid` true exactly when every rule passes; the button is enabled exactly when `is_valid` is true, and then reads "Continue" |
| `Gating.GuardedChainIdlesWhenInvalid` | validators.js:80-99 | once `is_valid` is false, rules guarded by `is_valid &&` change nothing |
| `Gating.GuardedChainShowsFirstFailure` | validators.js:76-99 | in a chain of rules that are all guarded by `is_valid &&`, only the first failing rule writes on the button |
| `Pages.ContactPage` | validators.js:32-63 | the contact page throws exactly when the form lacks one of children 1 to 4, and then leaves the button as `allow_next(false)` left it; otherwise it completes normally, with the button disabled exactly when `is_valid` ends false |
| `Pages.PersonalPage` | validators.js:65-103 | the personal page throws exactly when the form lacks one of children 1 to 6, and then leaves the button as `allow_next(false)` left it; otherwise it completes normally, with the button disabled exactly when `is_valid` ends false |
| `Pages.BackgroundPage` | validators.js:105-132 | the background page always throws, leaving `is_valid` true and the button disabled with the default prompt |
| `Pages.LanguagePage` | validators.js:133-149 | the dominant-language page throws exactly when the form has no child 1; otherwise it completes normally, with the button disabled exactly when `is_valid` ends false |
| `Pages.LanguageDetailedPage` | validators.js:151-157 | the detailed-language page always completes normally, with `is_valid` true |
| `Pages.MusicalPage` | validators.js:158-171 | the musical page throws exactly when the form has no child 1; otherwise it completes normally, with the button disabled exactly when `is_valid` ends false |
| `Intended.IntendedContactPage` | validators.js:44-62 | the corrected contact page throws exactly when a child is missing, as the page as written does; otherwise it completes normally, with the button disabled exactly when `is_valid` ends false |
| `Intended.IntendedBackgroundPage` | validators.js:108-131 | the corrected background page throws exactly when one of children 1 to 4 is missing; otherwise it completes normally, with the button disabled exactly when `is_valid` ends false |
| `Pages.ContactEnabled` | validators.js:44-62 | the contact page ends enabled exactly when the surname has 1 to 100 units, the first name is not empty, the phone has 5 to 100 units and the lower-cased email matches; it then reads "Continue" |
| `Pages.ContactMessage` | validators.js:44-59 | the contact page's message is that of the last rule that fired: an over-long phone always shows "Invalid phone number", and an over-long surname shows "Invalid first name" |
| `Pages.ContactEmptySurname` | validators.js:44-47 | an empty surname ends disabled with "Invalid surname", unless the phone is over 100 units |
| `Pages.ContactLongSurnameShowsFirstName` | validators.js:48-51 | a surname over 100 units ends disabled with "Invalid first name" when the phone has at most 100 units |
| `Pages.ContactLongPhoneHidesEarlierFailures` | validators.js:52-55 | a phone over 100 units ends disabled with "Invalid phone number", whatever the earlier answers are |
| `Pages.ContactLongFirstNameAccepted` | validators.js:48-51 | a 101-unit first name with otherwise valid answers is accepted |
| `Pages.PersonalEnabled` | validators.js:76-102 | the personal page ends enabled exactly when the age is a number in (0, 120] and gender (1..20), birth country (2..50) and the three disorder answers (1..1000 each) are within range |
| `Pages.PersonalMessage` | validators.js:76-99 | the personal page shows the first failing rule's message, or "Continue" |
| `Pages.PersonalAgeBoundaries` | validators.js:76-79 | ages 0, 121 and a non-number end disabled with "Invalid age"; with ages 1 and 120 the other answers decide |
| `Pages.BackgroundNeverEnables` | validators.js:105-116 | the background page always ends in an exception: a ReferenceError for `age` once the four answers are read. The button stays disabled with the default prompt |
| `Pages.LanguageEnabled` | validators.js:137-148 | the dominant-language page ends enabled exactly when answer 1 has 2 to 50 units; otherwise it is disabled with "Please enter at least your most dominant language" |
| `Pages.LanguageIgnoresOtherAnswers` | validators.js:137-142 | two forms with the same answer 1 end the same way on the dominant-language page |
| `Pages.LanguageDetailedAlwaysEnabled` | validators.js:151-157 | the detailed-language page, whatever the form holds, completes normally with `is_valid` true and the button enabled with "Continue" |
| `Pages.MusicalEnabled` | validators.js:162-170 | the musical page ends enabled exactly when answer 1 has 1 to 1000 units; otherwise it is disabled with "Please enter your musical experience or n/a" |
| `Intended.IntendedContactFirstFailure` | validators.js:44-62 | with the rules parenthesised as intended, the contact page shows the first failing rule's message, and ends enabled exactly when all four rules pass |
| `Intended.ContactAsWrittenAgreesOnShortAnswers` | validators.js:44-59 | when surname, first name and phone have at most 100 units each, the contact page as written ends exactly as the intended one |
| `Intended.IntendedBackgroundFirstFailure` | validators.js:108-131 | testing the age of arrival, the background page completes normally, shows the first failing rule's message, and ends enabled exactly when the age of arrival is in [0, 120] and the three languages have 2 to 50 units each |

## Left out

- DOM lookups: `document.getElementById` and `form.children[i].children[1].value` become the `form` sequence of answers and the `NextButton` object. The model assumes both elements exist; a missing button would make the script throw when it writes to it.
- Malformed pages: a form child that has no second child, or whose second child has no `value`, is not modelled. Only a missing child (a TypeError) is.
- The email regular expression, `toLowerCase` and JavaScript's string-to-number coercion (used by `isNaN` and by `<=`, `<`, `>` between a string and a number) are `Host` parameters, not implemented.
- The button's background colour is kept as an opaque string.
- `Validators.Globals.ValidateBackgroundInfo`: the exception that validators.js:113 raises is written as the method's outcome. The model does not resolve the identifier `age` itself. Lines 117-131 (the three language rules and the closing `allow_next(true)`) are not rendered, because line 113 always throws first. The language rules appear only in `Intended.IntendedBackgroundRules`.
- The lifecycle that calls the validators is not part of this model: on-load and input-change listeners, `toggle_listeners`, and the validators named in questionaire.js (`validate_contact`, `validate_personal`, …), which validators.js does not define. The same holds for the blur counter and the result submission through the hosting platform.
- The jsPsych audio-keyboard-response plugin is not part of this model: it is vendored third-party code about timing and playback.
- A global property named `age` is assumed absent. If a page had an element with id "age", browsers would resolve the identifier to that element, and `validate_background_info` would then always show "Invalid age of arrival in Canada" instead of throwing.

## Findings

| source | as written | input that shows it | evidently intended | confidence | as-written member | corrected member |
|---|---|---|---|---|---|---|
| validators.js:48 | `is_valid && fname.length == 0 \|\| lname.length > 100` fires even after an earlier failure | a 101-unit surname and a phone of at most 100 units end with "Invalid first name" instead of "Invalid surname" | `is_valid && (fname.length == 0 \|\| fname.length > 100)` | medium, not executed | `Pages.ContactLongSurnameShowsFirstName` | `Intended.IntendedContactFirstFailure` |
| validators.js:48 | the second rule bounds the surname's length, not the first name's | a 101-unit first name with otherwise valid answers is accepted | the first name limited to 100 units, like the surname | medium, not executed | `Pages.ContactLongFirstNameAccepted` | `Intended.IntendedContactFirstFailure` |
| validators.js:52 | `is_valid && phone.length < 5 \|\| phone.length > 100` fires even after an earlier failure | an empty surname and a 101-unit phone end with "Invalid phone number" instead of "Invalid surname" | `is_valid && (phone.length < 5 \|\| phone.length > 100)` | high, not executed | `Pages.ContactLongPhoneHidesEarlierFailures` | `Intended.IntendedContactFirstFailure` |
| validators.js:113 | the rule tests `age`, which no script declares | any form with four answers: the validator throws a ReferenceError and the page can never be left | the rule tests `age_arrival`, read at validators.js:108 | high, not executed | `Pages.BackgroundNeverEnables` | `Intended.IntendedBackgroundFirstFailure` |
