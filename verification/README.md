# Fun-venture forms in Dafny

Fun-venture is a small React application with three forms. This project
models the logic underneath their markup:

- **the event form** (`AddEventForm`): ten inputs, an error flag for seven
  of them, a selected category, today's date as a `yyyy-mm-dd` string, a date
  error for dates that sort before it, a submission gate, and a submit handler
  that appends the event to the application's event list;
- **the sign-up form** (`SignUpForm`): username, email, password and confirm
  password, three error flags, the confirm-password mismatch, and a submit
  handler that writes the JSON encoding of each credential into local storage;
- **the login form** (`LogInForm`): email and password, two error flags, and
  a submit handler that reads the stored credentials back, strips every
  double quote, and compares.

Every `validationConditions` regular expression is written as a predicate on
strings in the shape of the expression. Each predicate either reads directly
as the strings it accepts (the city expression), or has a lemma or a contract
beside it that says which strings it accepts. Each form is a class whose fields are its state maps. Its
change handler updates one value and one flag in place, and keeps the
invariant `Valid()`: every flag is set exactly when the current value of its
field fails that field's expression. `pushErrorsInArray` is the loop it is in
the source: it copies the flags into an array in key order, then runs
`some(element => element === true)`. It is proved to return true exactly when
some flag is set. Local storage is a class holding a `map<string, string>`.
The event list is a class holding a sequence of records.

Strings are Dafny strings of Unicode scalar values. The regular expressions
carry no `u` flag, so `.` matches one UTF-16 code unit. Length bounds are
therefore stated on `Chars.Utf16Length`, which counts a supplementary-plane
character as two. JavaScript's `<` on strings is `EventDates.LexLess`.
`Number.prototype.toString` on a non-negative integer is `Chars.Decimal`.
JSON.stringify on a string is the QuoteJSONString operation of ECMA-262,
modelled in full: short escapes, and `\u00xx` with lower-case hexadecimal
digits for the other control characters.

The modules, one per file:

- `Chars` (chars.dfy): character classes and decimal numerals;
- `Json` (json.dfy): JSON.stringify, the quote stripping and JSON.parse of a
  string literal;
- `Forms` (forms.dfy): the gate loop, the submit outcome and local storage;
- `EventPatterns` (event_patterns.dfy) and `EventDates` (event_dates.dfy):
  the event form's expressions and its date logic;
- `AddEvent` (add_event.dfy): the event form;
- `AuthPatterns` (auth_patterns.dfy): the expressions the two
  authentication forms share;
- `SignUp` (sign_up.dfy) and `LogIn` (log_in.dfy): those two forms;
- `Credentials` (credentials.dfy): the two forms together over one storage.

A submit handler's result is an `Outcome`:

- `Stay`: no navigation;
- `NavigateTo(path)`: the route passed to `navigate`;
- `Fault`: the TypeError thrown when `getItem` returns null and `.replace`
  is called on it, or, in the decoding handler, the SyntaxError JSON.parse
  throws on a stored value that is not a JSON string.

The confirm-password mismatch error (src/components/Authentication/SignUp.js:140-148)
has no flag in `fieldErrors`, so it never closes the gate:
`Credentials.MismatchDoesNotBlock` proves the sign-up still goes through.

## Model

| member | source | states |
|---|---|---|
| Chars.Decimal | src/components/AddEvent/AddEventForm.js:24 | `getFullYear().toString()` is a non-empty string of decimal digits whose value is the number, with no leading zero |
| EventDates.TwoDigits | src/components/AddEvent/AddEventForm.js:28-33 | a number below 100 as exactly two digits whose value is the number |
| EventDates.PaddedDecimal | src/components/AddEvent/AddEventForm.js:28-33 | prefixing one `0` to a month or day below 10, and nothing from 10 on, always gives exactly its two digits |
| EventDates.CurrentDateFinal | src/components/AddEvent/AddEventForm.js:24-34 | today's string is the year's digits, `-`, the two digits of `getMonth() + 1`, `-`, the two digits of the day |
| EventDates.TodayIsDateString | src/components/AddEvent/AddEventForm.js:24-34 | for a four-digit year, today's string is a well-formed `yyyy-mm-dd` date whose year, month and day read back as the clock's year, month + 1 and day |
| EventDates.LexLessDigits | src/components/AddEvent/AddEventForm.js:232 | on digit strings of equal length, string `<` is numeric `<` |
| EventDates.LexLessStrictTotal | src/components/AddEvent/AddEventForm.js:232 | string `<` never holds both ways or between equal strings, and holds one way or the other between different strings |
| EventDates.LexLessTransitive | src/components/AddEvent/AddEventForm.js:232 | string `<` is transitive |
| EventDates.LexLessDate | src/components/AddEvent/AddEventForm.js:232 | on well-formed `yyyy-mm-dd` strings, string `<` is chronological order: an earlier year, or the same year and an earlier month, or the same month and an earlier day |
| EventDates.DateErrorMeansPast | src/components/AddEvent/AddEventForm.js:232-237 | the date error (`date < currentDateFinal && date !== ""`) holds exactly when the chosen date is a day before today |
| EventPatterns.TitlePatternMeaning | src/components/AddEvent/AddEventForm.js:69 | the title (and team, line 75) expression accepts exactly the strings of ASCII letters, digits and spaces that hold at least one letter or digit |
| EventPatterns.NumeralPatternMeaning | src/components/AddEvent/AddEventForm.js:71 | the price (and seats, line 74) expression accepts exactly an optional `+` followed by a non-empty string of digits and dots with at most one dot, neither first nor last |
| EventPatterns.DecimalIsNumeral | src/components/AddEvent/AddEventForm.js:46-52 | the decimal rendering of any non-negative integer, such as the initial price and seats 0, passes the numeral expression |
| EventPatterns.DescriptionPattern | src/components/AddEvent/AddEventForm.js:70 | an accepted description has between 5 and 500 characters and no line terminator; 10 to 250 characters without a line terminator always pass; in the Basic Multilingual Plane it accepts exactly 10 to 500 characters |
| EventPatterns.CityPattern | src/components/AddEvent/AddEventForm.js:72 | an accepted city holds no digit, hyphen or dot, and no character outside ASCII except white space, so accented letters are flagged |
| Chars.Utf16Length | src/components/AddEvent/AddEventForm.js:70 | the UTF-16 length that `.{10,500}` counts lies between the number of characters and twice it, and equals it in the Basic Multilingual Plane |
| EventPatterns.TimePatternMeaning | src/components/AddEvent/AddEventForm.js:73 | the start-time expression accepts exactly `H:MM` and `HH:MM` whose hour is at most 23 and whose minutes are at most 59 |
| AddEvent.Condition | src/components/AddEvent/AddEventForm.js:68-76 | every field's test accepts the empty string |
| AddEvent.EventList.AddToEventsData | src/components/AddEvent/AddEventForm.js:115 | the event list gains the record at its end and is otherwise unchanged |
| AddEvent.EventForm.constructor | src/components/AddEvent/AddEventForm.js:42-66 | the initial values (id, empty strings, price and seats 0), empty category and all flags false, and `Valid()` holds |
| AddEvent.EventForm.HandleValidation | src/components/AddEvent/AddEventForm.js:78-89 | date, endTime and category leave the flags unchanged; any other field's flag becomes the negated test of the value and no other flag changes |
| AddEvent.EventForm.EventHandleChange | src/components/AddEvent/AddEventForm.js:92-97 | only the named value changes; the category becomes the value whatever the field; only that field's flag changes; clearing a validated field clears its flag; `Valid()` is kept |
| AddEvent.EventForm.PushErrorsInArray | src/components/AddEvent/AddEventForm.js:100-107 | the gate, and `disabled` on the publish button (line 386), is true exactly when some validated field's current value fails its expression |
| Forms.PushErrorsInArray | src/components/AddEvent/AddEventForm.js:100-107 | the array built from the flags in key order contains `true` exactly when some flag is set |
| AddEvent.EventForm.HandleSubmit | src/components/AddEvent/AddEventForm.js:109-133 | with the gate open, the form's record is appended once and the outcome is `/added-event`; otherwise the list is unchanged and there is no navigation |
| AddEvent.EventForm.DateFieldError | src/components/AddEvent/AddEventForm.js:232-237 | the date error is never shown for an empty date, and for well-formed dates it is shown exactly when the chosen day is before today |
| AddEvent.PublishWithPastDate | src/components/AddEvent/AddEventForm.js:232-237 | on any form without errors, choosing any day before today shows the date error, yet submit still appends the form's record, date included, and goes to `/added-event` |
| AuthPatterns.UsernamePatternMeaning | src/components/Authentication/SignUp.js:26 | a username is accepted exactly when it is a non-empty string of ASCII letters and digits |
| AuthPatterns.EmailPatternMeaning | src/components/Authentication/SignUp.js:25 | an email is accepted exactly when it holds one `@` and one `.`, the `@` first, with at least one character before the `@`, between the two and after the `.`, letters and digits everywhere else, and letters only after the `.` |
| AuthPatterns.PasswordPattern | src/components/Authentication/SignUp.js:27 | the password expression (also LogIn.js:23) needs at least three characters and no line terminator; five characters without a line terminator always pass; in the Basic Multilingual Plane it accepts exactly five or more characters without a line terminator |
| Credentials.UsernameIsJsonSafe | src/components/Authentication/SignUp.js:26 | an accepted username (non-empty ASCII letters and digits) has no character JSON.stringify escapes, so it is stored as itself between two quotes |
| SignUp.PasswordMismatch | src/components/Authentication/SignUp.js:140-148 | the mismatch error is never shown while the confirm field is empty or equal to the password, and always shown when something else is typed there, even with an empty password |
| SignUp.Condition | src/components/Authentication/SignUp.js:24-28 | every sign-up field's test accepts the empty string |
| SignUp.SignUpForm.constructor | src/components/Authentication/SignUp.js:11-22 | four empty values, three false flags, and `Valid()` holds |
| SignUp.SignUpForm.HandleValidation | src/components/Authentication/SignUp.js:30-37 | the confirm password leaves the flags unchanged; any other field's flag becomes the negated test and no other flag changes |
| SignUp.SignUpForm.HandleSignUpChange | src/components/Authentication/SignUp.js:39-47 | only the named value changes, only its flag changes, and `Valid()` is kept |
| SignUp.SignUpForm.PushErrorsInArray | src/components/Authentication/SignUp.js:50-57 | the gate, and `disabled` on the sign-up button (line 162), is true exactly when the email, password or username fails its expression |
| SignUp.SignUpForm.HandleSubmit | src/components/Authentication/SignUp.js:59-78 | with the gate open, storage maps `username`, `email` and `password` to the JSON strings of the values, replacing prior values with every other key unchanged, and the outcome is `/login`; otherwise storage is unchanged and there is no navigation |
| Forms.LocalStorage.SetItem | src/components/Authentication/SignUp.js:65-73 | `setItem` maps the key to the value and leaves every other key unchanged |
| Json.Escape | src/components/Authentication/SignUp.js:67 | the escaped body equals the string exactly when it holds no quote, backslash or control character, and is longer otherwise |
| Json.Stringify | src/components/Authentication/SignUp.js:67 | the JSON string starts and ends with a quote and is at least two longer than the string |
| Json.StringifyPlain | src/components/Authentication/SignUp.js:65-73 | with no quote, backslash or control character, JSON.stringify only wraps the string in quotes |
| Json.RemoveQuotes | src/components/Authentication/LogIn.js:61-64 | `.replace(/"/g, "")` leaves no quote, never lengthens, and changes nothing in a string without quotes |
| Json.RemoveQuotesStringify | src/components/Authentication/LogIn.js:61-64 | stripping the quotes from JSON.stringify(s) gives back s exactly when s holds no quote, backslash or control character |
| Json.ParseStringify | src/components/Authentication/LogIn.js:61-64 | JSON.parse of JSON.stringify(s) gives back s for every string |
| LogIn.Condition | src/components/Authentication/LogIn.js:21-24 | both login tests accept the empty string |
| LogIn.LogInForm.constructor | src/components/Authentication/LogIn.js:11-19 | two empty values, two false flags, and `Valid()` holds |
| LogIn.LogInForm.HandleValidation | src/components/Authentication/LogIn.js:26-33 | the named field's flag becomes the negated test; the `confirmPassword` guard never applies |
| LogIn.LogInForm.HandleChange | src/components/Authentication/LogIn.js:35-43 | only the named value and its flag change, and `Valid()` is kept |
| LogIn.LogInForm.PushErrorsInArray | src/components/Authentication/LogIn.js:46-53 | the gate, and `disabled` on the login button (line 126), is true exactly when the email or the password fails its expression |
| LogIn.CredentialsMatch | src/components/Authentication/LogIn.js:61-69 | a typed email or password holding a quote never matches; when neither stored value holds a quote, both must equal what was typed exactly |
| LogIn.LogInForm.HandleSubmit | src/components/Authentication/LogIn.js:55-76 | storage is only read; with the gate closed there is no navigation; with it open, a missing key throws, and the outcome is `/` exactly when both stored values equal what was typed once their quotes are stripped |
| LogIn.LogInForm.HandleSubmitDecoded | src/components/Authentication/LogIn.js:61-64 | the handler with JSON.parse in place of the quote stripping: a missing key decodes to null and never matches, a stored value that is not a JSON string throws, and the outcome is `/` exactly when both decoded values equal what was typed |
| Credentials.EmailIsJsonSafe | src/components/Authentication/SignUp.js:25 | an accepted email has no character JSON.stringify escapes |
| Credentials.SignUpLogInRoundTrip | src/components/Authentication/LogIn.js:61-69 | after a sign-up, the login comparison succeeds exactly when neither the email nor the password holds a quote, backslash or control character, whatever was stored before |
| Credentials.QuotedPasswordAccepted | src/components/Authentication/SignUp.js:27 | the password `pass"word` passes the password expression of both forms |
| Credentials.QuotedPasswordLocksOut | src/components/Authentication/LogIn.js:61-64 | the password `pass"word` does not survive the round trip, and the login after its sign-up never matches |
| Credentials.SignUpLogInDecodedRoundTrip | src/components/Authentication/LogIn.js:61-64 | with decoding, the credentials a sign-up stores always match and are always readable |
| Credentials.SignUpWith | src/components/Authentication/SignUp.js:59-78 | filling in the sign-up form with accepted values and submitting stores the JSON strings of the three credentials and goes to `/login`; the mismatch error is shown exactly when the confirm password differs and is non-empty |
| Credentials.LogInWith | src/components/Authentication/LogIn.js:55-76 | filling in the login form with accepted values and submitting throws exactly when a credential is missing, and goes to `/` exactly when both match |
| Credentials.LogInDecodedWith | src/components/Authentication/LogIn.js:61-69 | the same with decoding: it throws exactly when a stored credential is not a JSON string, and goes to `/` exactly when both decode to what was typed |
| Credentials.SignUpThenLogIn | src/components/Authentication/LogIn.js:55-76 | a sign-up with accepted values reaches `/login`, and the login with the same email and password reaches `/` exactly when the password holds no quote, backslash or control character; otherwise it stays |
| Credentials.SignUpThenLogInDecoded | src/components/Authentication/LogIn.js:61-64 | with decoding, every accepted sign-up is followed by a successful login |
| Credentials.LogInBeforeSignUp | src/components/Authentication/LogIn.js:61-64 | a login on empty storage throws |
| Credentials.LogInDecodedBeforeSignUp | src/components/Authentication/LogIn.js:61-69 | with decoding, a login on empty storage stays on the form instead of throwing |
| Credentials.MismatchDoesNotBlock | src/components/Authentication/SignUp.js:140-162 | a confirm password that differs from the password shows its error, yet the sign-up still reaches `/login` |

## Left out

- JSX rendering, Material-UI components, styles, icons, the image upload
  input and the social sign-in buttons are presentation only.
- The router is not modelled: a navigation is recorded as the destination
  path in the outcome.
- `uuidv4()` is a parameter of the event form's constructor (the id).
- The clock is not read: `new Date()` and its getters become the parameters
  year, zero-based month and day. The lemma about today's string assumes a
  four-digit year.
- The event context is reduced to a class holding the list, with
  `addToEventsData` appending to it. Its provider is not part of this model.
- React state updates are treated as immediate. Each change event is one
  sequential step, and the next step sees the updated state.
- Helper text, `validationMessages` and `console.log` are left out; they
  carry no behaviour.
- The browser's own validation is not modelled. This covers the `required`
  attribute, which stops a submit with an empty field, and the `min`
  attribute of the date input. The model's gate is the code's gate alone, so
  empty fields pass it.
- The regular-expression engine is not modelled. Each expression is a
  hand-written predicate in its shape.
- EventDates.LexLess compares Unicode code points, whereas JavaScript
  compares UTF-16 code units. The two orders differ only between a
  supplementary-plane character and one in U+E000–U+FFFF. Date strings are
  ASCII.
- Json.Parse decodes only a JSON string literal with nothing around it.
  JSON.parse would also accept surrounding white space, and other JSON values
  that then compare unequal. Parse also rejects every `\u` escape of a
  surrogate code unit, paired or not: a Dafny character is a Unicode scalar
  value, so the pair `\ud83d\ude00`, which JSON.parse decodes to one
  character, is not decoded. JSON.stringify never produces either form.
- LogIn.LogInForm.HandleSubmitDecoded: a stored value that is valid JSON but
  not a string (`42`, `null`, `true`) is reported as `Fault`, because
  Json.Parse decodes string literals only. JSON.parse would return that value,
  it would equal no typed string, and the form would stay. Sign-up only ever
  stores JSON strings.
- Form values are strings, except the initial price and seats, which are
  the number 0 and are rendered with `Chars.Decimal` where the code would
  convert them.

## Findings

| source | as written | input that shows it | evidently intended | confidence | as-written member | corrected member |
|---|---|---|---|---|---|---|
| src/components/Authentication/LogIn.js:61-64 | login strips every `"` from the stored JSON string and compares the rest, so an escaped character reads back with its backslash | sign up with password `pass"word`, which passes the password expression; it is stored as `"pass\"word"` and reads back as `pass\word`, so the login with the same password never succeeds | decode the stored value with JSON.parse, so that every password accepted at sign-up logs in | high (proved; not executed) | Credentials.QuotedPasswordLocksOut | Credentials.SignUpThenLogInDecoded |
