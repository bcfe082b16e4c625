# Login, dashboard and profile screens: a Dafny model

This project models the logic of a small React application with three
screens: a login form, a dashboard and an editable user profile. It also
models the band classifier of the coverage report script. The model
covers:

- the **profile form**: its pure validator, plus the edit controller that
  holds the five-field edit buffer, the error map and the editing flag
  (mount, the effect on a new `user` property, Edit, typing, Save, Cancel);
- the **login form**: its validator, the display name taken from the email
  (`email.split("@")[0]`), and the submit handler;
- the **navigation shell**: the current screen, the nullable user object,
  the five callbacks the screens invoke and the screen switch;
- the **coverage indicator**: a percentage mapped to one of five labelled bands.

Modules, one per source file plus two shared ones:

| file | module | models |
|---|---|---|
| `text_rules.dfy` | `TextRules` | The JavaScript whitespace class, `String.prototype.trim`, and the two regular expressions `\S+@\S+\.\S+` and `^[\d\s\-\+\(\)]+$`. |
| `records.dfy` | `Records` | The user object (a map from field to string), the edit buffer, seeding the buffer from a user, and the buffer as a saved object. |
| `profile.dfy` | `Profile` | `src/components/Profile.jsx`: `Validate` and the class `ProfileEditor`. |
| `login.dfy` | `Login` | `src/components/Login.jsx`: `Validate`, `DeriveName` and the class `LoginForm`. |
| `app.dfy` | `App` | `src/App.jsx`: the class `Shell`, `RenderScreen`, and lemmas that span the screens. |
| `coverage.dfy` | `CoverageIndicator` | `indicator` in `coverageIndicator.js`. |

Modelling choices:

- A user object is a `map<Field, string>`.
  - `{...prev, ...data}` is the map union `prev + data`.
  - `user.f || ""` is `Lookup`.
- `\s`, `\S` and `trim` share one whitespace set: the ECMAScript WhiteSpace and
  LineTerminator code points.
- The unanchored email search is stated twice and proved equivalent:
  - literally: some stretch of the string matches the pattern;
  - as a two-position test: an `@`, a later `.`, and the characters around them.
- Both forms read their error object at a key the same way (`Records.Verdict`),
  and both use the same two email messages.
- A call to `onSave` or `onLogin` is the method's `Some(...)` result. `None`
  means the callback was not called.
- Each React handler is one atomic transition. Where the screen makes a
  handler reachable only in some state, that is a precondition:
  - the Edit button appears only while viewing;
  - the inputs, Save and Cancel work only while editing;
  - the dashboard and the profile screen are the only places their
    navigation callbacks come from.

## Model

| member | source | states |
|---|---|---|
| TextRules.IsWs | src/components/Profile.jsx:30-36 | The code points `\s` matches and `trim()` removes: the ECMAScript WhiteSpace and LineTerminator characters. It has no contract of its own; `TrimSpec` and `EmailTestIsRegexSearch` state what the forms do with it. |
| TextRules.TrimStart | src/components/Profile.jsx:30 | Drops leading whitespace. Its meaning is stated by `TrimStartSpec`. |
| TextRules.TrimEnd | src/components/Profile.jsx:30 | Drops trailing whitespace. Its meaning is stated by `TrimEndSpec`. |
| TextRules.Trim | src/components/Profile.jsx:30-34 | `String.prototype.trim`. Its meaning is stated by `TrimSpec` and `TrimEmptyIffBlank`. |
| TextRules.EmailTest | src/components/Profile.jsx:36 | `/\S+@\S+\.\S+/.test(s)`, decided from the positions of an "@" and a later ".". `EmailTestIsRegexSearch` proves it equal to the pattern's unanchored search. |
| TextRules.PhoneTest | src/components/Profile.jsx:40 | `/^[\d\s\-\+\(\)]+$/.test(s)`: one or more characters, every one in the class. `PhoneTestFailsIffStrayChar` states when it fails. |
| TextRules.TrimStartSpec | src/components/Profile.jsx:30 | Trimming the start leaves a suffix that is empty or starts with a non-whitespace character, and everything cut off is whitespace. |
| TextRules.TrimEndSpec | src/components/Profile.jsx:30 | Trimming the end leaves a prefix that is empty or ends with a non-whitespace character, and everything cut off is whitespace. |
| TextRules.TrimSpec | src/components/Profile.jsx:30 | `trim()` is a slice of the input with only whitespace outside it, and it neither starts nor ends with whitespace. |
| TextRules.TrimEmptyIffBlank | src/components/Profile.jsx:30-34 | `!s.trim()` holds exactly when every character of `s` is whitespace, the empty string included. |
| TextRules.EmailTestIsRegexSearch | src/components/Profile.jsx:36 | The two-position email test accepts a string exactly when `\S+@\S+\.\S+` matches some stretch of it. |
| TextRules.EmailTestHasAt | src/components/Login.jsx:13 | Every string the email test accepts contains an "@". |
| TextRules.PhoneTestFailsIffStrayChar | src/components/Profile.jsx:40 | A non-empty string fails the anchored phone test exactly when one of its characters is not a digit, whitespace, `-`, `+`, `(` or `)`. |
| TextRules.EmailExamples | src/components/Profile.test.jsx:102-116 | The tests' addresses john@, jane@ and test@example.com pass the email test, and "invalid-email" fails it. |
| TextRules.PhoneExamples | src/components/Profile.test.jsx:118-132 | "123-456-7890" passes the phone test and "invalid-phone-123abc" fails it. |
| Records.FormData.Set | src/components/Profile.jsx:49-52 | `{...prev, [name]: value}`: the named input takes the value and every other input keeps its own. |
| Records.Lookup | src/components/Profile.jsx:18-22 | A user field read with an empty-string default: the value under the key, or "" when the key is missing. Its use is stated by `Seed`'s contract. |
| Records.Seed | src/components/Profile.jsx:17-23 | Each input of the seeded buffer holds the user's value under that key, or "" when the key is missing. |
| Records.ToRecord | src/components/Profile.jsx:66 | The object passed to the save callback carries all five keys, each holding the matching input's value. |
| Records.SeedToRecord | src/components/Profile.jsx:15-25 | Seeding from a saved buffer gives the same buffer back. |
| Records.ToRecordSeed | src/components/Profile.jsx:15-25 | A user object with all five keys is unchanged by a trip through the buffer. |
| Profile.NameRule | src/components/Profile.jsx:30-32 | The only message the name rule gives is "Name is required". |
| Profile.EmailRule | src/components/Profile.jsx:34-38 | The email rule gives "Email is required" or "Email is invalid", and nothing else. |
| Profile.PhoneRule | src/components/Profile.jsx:40-42 | The only message the phone rule gives is "Phone number is invalid". |
| Profile.Record | src/components/Profile.jsx:28-42 | Recording a rule's result sets that field's verdict and leaves every other field's verdict as it was. |
| Profile.Validate | src/components/Profile.jsx:27-45 | Each field's verdict is its own rule applied to its own value. Only name, email and phone can appear, and no message is empty. |
| Profile.NameRuleMeaning | src/components/Profile.jsx:30-32 | The name is reported as required exactly when it is empty or all whitespace. |
| Profile.EmailRuleMeaning | src/components/Profile.jsx:34-38 | A blank email is "required". A non-blank one that the pattern does not find is "invalid". Otherwise there is no error, so the two messages exclude each other. |
| Profile.PhoneRuleMeaning | src/components/Profile.jsx:40-42 | An empty phone never errors. A non-empty phone errors exactly when one of its characters lies outside the phone class. |
| Profile.ValidateMeaning | src/components/Profile.jsx:27-45 | The validator's verdict on name, email and phone is stated in terms of the field's value, and bio and location never appear. |
| Profile.ValidatePassesIff | src/components/Profile.jsx:63-65 | The validator returns no errors exactly when the name is not blank, the email is not blank and matches, and the phone is empty or passes. |
| Profile.ValidateIsFieldwise | src/components/Profile.jsx:27-45 | Two buffers that agree on a field get the same verdict on that field. |
| Profile.ValidateAcceptsCompleteProfile | src/components/Profile.test.jsx:6-12 | The stock test user's full profile validates with no errors. |
| Profile.ValidateRejectsEmptyProfile | src/components/Profile.jsx:27-45 | The all-empty buffer a fresh mount starts from gives exactly name and email "required", and no phone error. |
| Profile.ValidateRejectsClearedNameAndEmail | src/components/Profile.test.jsx:83-100 | The test user with the name and the email cleared gives exactly name and email "required"; the kept phone passes. |
| Profile.ValidateRejectsLetteredPhone | src/components/Profile.test.jsx:118-132 | The test user with letters typed into the phone gets exactly one error, the phone one. |
| Profile.ValidateRejectsMalformedEmail | src/components/Profile.test.jsx:102-116 | "invalid-email" is reported as invalid, not as missing, whatever the other fields hold. |
| Profile.ProfileEditor.constructor | src/components/Profile.jsx:5-25 | Mounting gives the empty buffer, no errors and viewing, then seeds the buffer from a present user. |
| Profile.ProfileEditor.ReceiveUser | src/components/Profile.jsx:15-25 | A new user property re-seeds the buffer when present and leaves it alone when null. The flag and the errors are unchanged. |
| Profile.ProfileEditor.StartEdit | src/components/Profile.jsx:107-110 | The Edit button, available only while viewing, switches to editing. |
| Profile.ProfileEditor.HandleInputChange | src/components/Profile.jsx:47-61 | Only the typed input changes. A shown error on that field becomes "" and nothing else changes. Every message still on screen remains the validator's current verdict. |
| Profile.ProfileEditor.HandleSave | src/components/Profile.jsx:63-72 | A valid buffer is passed once, whole, to the save callback, editing ends and errors clear. Otherwise there is no callback, editing continues, and the errors become exactly the validator's output. The buffer is untouched. |
| Profile.ProfileEditor.HandleCancel | src/components/Profile.jsx:74-86 | The buffer is re-seeded from the user when there is one and kept otherwise. Editing ends and errors clear. |
| Login.EmailRule | src/components/Login.jsx:11-15 | The email rule gives "Email is required" or "Email is invalid", and nothing else. |
| Login.PasswordRule | src/components/Login.jsx:17-21 | There is an error exactly when the password has fewer than 6 characters: "required" when it is empty, "too short" for 1 to 5 characters. |
| Login.Validate | src/components/Login.jsx:9-24 | The verdict on each of the two fields is that field's rule. |
| Login.ValidateEmail | src/components/Login.jsx:11-15 | An empty email is required. Any other email the pattern does not find, an all-whitespace one included, is invalid. |
| Login.ValidatePassesIff | src/components/Login.jsx:28-29 | There are no errors exactly when the email is non-empty and matches and the password has at least 6 characters. |
| Login.Split | src/components/Login.jsx:31 | `split` always gives at least one piece, and no piece contains the separator. |
| Login.JoinSplit | src/components/Login.jsx:31 | Joining the split pieces with the separator gives back the original string. |
| Login.DeriveName | src/components/Login.jsx:31 | The name is a prefix of the email with no "@", and when it is shorter than the email the next character is "@". |
| Login.DeriveNameIsLocalPart | src/components/Login.jsx:31 | The name derived from `local@rest`, where `local` has no "@", is `local`. |
| Login.DerivedNameOfValidEmail | src/components/Login.jsx:28-31 | When the email passes, the name stops just before the first "@", which exists. |
| Login.AcceptsTestUser | src/components/Login.test.jsx:63-78 | "john@example.com" with "password123" validates with no errors. |
| Login.TestUserName | src/components/Login.test.jsx:63-78 | The name derived from "john@example.com" is "john". |
| Login.RejectsBadInput | src/components/Login.test.jsx:21-61 | An empty form gets both "required" messages, "invalid-email" gets "invalid", and "123" gets "too short". |
| Login.LoginForm.constructor | src/components/Login.jsx:5-7 | The form starts with empty inputs and no errors. |
| Login.LoginForm.SetEmail | src/components/Login.jsx:48 | Typing into the email input sets the email. |
| Login.LoginForm.SetPassword | src/components/Login.jsx:60 | Typing into the password input sets the password. |
| Login.LoginForm.HandleSubmit | src/components/Login.jsx:26-36 | With no errors, the login callback gets the email and its derived name once and the errors are unchanged. Otherwise there is no callback and the errors become exactly the validator's output. |
| App.RenderScreen | src/App.jsx:41-64 | Exactly one screen is drawn. The dashboard and profile screens appear for their own names, with the user. The login screen appears for "login" and for every unknown name. |
| App.LoginRecord | src/App.jsx:11-17 | The new user has all five keys. The name is the given one, or "User" exactly when the given one is empty, so it is never empty. The email is the given one, and phone, bio and location are empty. |
| App.Overlay | src/App.jsx:35-38 | `{...prev, ...data}`: saved keys take their new values, the previous user's other keys are kept, and a null previous user adds nothing. |
| App.Shell.constructor | src/App.jsx:7-8 | The app starts on the login screen with no user. |
| App.Shell.HandleLogin | src/App.jsx:10-19 | Login builds the user record and shows the dashboard. |
| App.Shell.HandleLogout | src/App.jsx:21-24 | Logout, from any screen, clears the user and shows the login screen. |
| App.Shell.HandleNavigateToProfile | src/App.jsx:26-28 | Only the screen changes, to the profile. |
| App.Shell.HandleBackToDashboard | src/App.jsx:30-32 | Only the screen changes, to the dashboard. |
| App.Shell.HandleSaveProfile | src/App.jsx:34-39 | The user becomes the overlay of the saved data on the previous user, and the screen stays. |
| App.ValidShellRendersOwnScreen | src/App.jsx:41-64 | In a consistent shell the login screen is drawn exactly when there is no user, and the other screens get the present user. |
| App.SavedBufferBecomesUser | src/App.jsx:34-39 | A saved buffer carries all five keys, so after the save the user is exactly that buffer. |
| App.ReseedAfterSaveKeepsBuffer | src/components/Profile.jsx:15-25 | After a save, the effect re-seeds the buffer from the new user and gets the saved buffer back unchanged. |
| App.BlankEmailDiffersByScreen | src/components/Login.jsx:11-15 | The profile form reports a non-empty all-whitespace email as missing, and the login form reports it as invalid. |
| App.EmptyDerivedNameFallsBack | src/App.jsx:12 | "@a@b.c" passes login, its derived name is "", so the user is named "User". |
| App.EditedLoginBuffer | src/App.jsx:10-17 | The buffer seeded from a freshly logged-in user, with the name and bio typed over, is the session buffer: the login's email, the typed name and bio, and empty phone and location. |
| App.LogInAndOpenProfile | src/App.test.jsx:100-113 | Accepted credentials lead to the profile screen for the user built from the email and its derived name. |
| App.EditAndSave | src/components/Profile.jsx:47-72 | Edit, type a name and bio, and save: an accepted buffer reaches the save callback exactly as typed. |
| App.SaveProfileSession | src/App.test.jsx:100-136 | Log in, open the profile, edit, save and go back: the dashboard shows, and the user is exactly the saved buffer. |
| App.TestSessionLogin | src/App.test.jsx:108-110 | The session's credentials pass the login form. |
| App.TestSessionName | src/App.test.jsx:108-110 | The session's derived name is "test". |
| App.TestSessionEdits | src/App.test.jsx:117-127 | The session's edited buffer passes the profile validator. |
| CoverageIndicator.Indicator | coverageIndicator.js:15-21 | Below 30 is Low, 30 to below 60 Medium, 60 to below 80 Good, 80 to 100 Very Good, above 100 Unknown. Each condition holds exactly when its band is chosen. |
| CoverageIndicator.IndicatorMonotone | coverageIndicator.js:15-21 | Up to 100, a higher percentage never falls into a worse band. |

## Left out

- Rendering: JSX, CSS modules, the avatar initial and the "User" and
  "Welcome" display fallbacks are presentation only.
- React scheduling. Each handler is one atomic transition; batching and
  effect timing are not modelled. The effect on `user` is an explicit
  `ReceiveUser` call, made by the caller when the property changes.
- The screen's own guards are preconditions rather than modelled widgets:
  - Edit is available only while viewing;
  - inputs, Save and Cancel only while editing;
  - navigation callbacks only from their own screen.
- The profile screen's back button calls the shell's `HandleBackToDashboard`.
  Leaving while editing drops the profile screen's state. That state is not
  carried across screens here: `EditAndSave` and the session mount a new editor.
- `src/components/Dashboard.jsx` is not part of this model. Its statistics
  are fixed mock values and its percentage uses floating-point rounding.
- `coverageIndicator.js`: only `indicator` is modelled. The file reads,
  JSON parsing, console output and exit code are I/O. Percentages are
  exact reals, so NaN is not modelled.
- Strings are sequences of code points. `password.length` counts UTF-16
  code units, so a password with characters outside the Basic Multilingual
  Plane has a different length here.
- The whitespace class is the fixed ECMAScript set. The `\d` class is the
  ASCII digits.
- User objects carry only the five known keys, each with a string value.
  Extra keys and `undefined` values are not modelled.
- Typing into a field with a shown error blanks its message to "" and keeps
  the key, as `src/components/Profile.jsx:55-60` does. The key is not removed
  from the map. A shown error is a non-empty message, which is how the screen
  decides what to draw.
- Login.LoginForm.SetEmail and Login.LoginForm.SetPassword: the `onChange`
  event is reduced to its new value.
