# Organization settings console: session and settings state machine

This project models, in Dafny, the logic of the `App` component of a
learning-management-system demo console (`src/App.jsx`). It covers:

- the demo login: a fixed three-entry credential table, looked up by the
  lower-cased e-mail, with an exact password comparison;
- the permission predicate `canEditSettings`: only a logged-in
  "Super Admin" or "Admin / HR" user may edit;
- the session transitions: opening and closing the login modal, typing
  into its form, login, logout and the restore-on-mount effect;
- the six-field organization settings record, its default literal, the
  per-field edits made by the form, the `parseInt(v) || 0` coercion of the
  concurrent-user limit, and reset to defaults;
- the save-status machine: "" → "saving" → "saved" or "error" → "".

The `App` component is a class (`LmsApp.App`) whose fields are the
component's state, plus:

- `storage`, a map that stands for browser local storage;
- `pendingSaves`, the settings captured by save clicks whose timer has not
  yet fired;
- `pendingClears`, the number of status-clearing timers not yet fired.

Each event handler is a method. The two `setTimeout` callbacks become the
event methods `SaveTimerFires(writeOk)` and `StatusClearFires()`. A handler
bound to a control that is disabled, or not rendered, in the current state
cannot run; its method then leaves the state as it is.

A ghost flag `mounted` records that the mount effect has run. The effect
runs once, before any other event: `RestoreOnMount` requires the flag
false and sets it, and every other event requires it.

The object invariant `Valid()` states two things:

- A logged-in session is always the user record stored under `lms_auth`.
- A status of "saving" always has a save timer pending, and "saved" or
  "error" always has a clearing timer pending.

The pure parts are functions with lemmas about them:

- the credential lookup (`Credentials`);
- the permission predicate (`Access`);
- `parseInt` as section 19.2.5 of ECMA-262 defines it, called without a
  radix (`EcmaParseInt`), including white-space skipping, the sign and the
  `0x` prefix;
- the settings record and its edits (`OrgSettings`).

`Scenarios` drives the class through event sequences and proves their
outcomes from the method contracts alone.

Two facts about the concurrent-user limit follow from the code:

- The stored limit can be negative. `parseInt` keeps a leading minus sign,
  so "-25" is stored as -25 (`EcmaParseInt.CoerceUserLimitNegative`). The
  input's `min="10"` attribute is enforced only by the browser.
- The coercion `parseInt(v) || 0` runs on every change event of the input,
  not at save time.

JavaScript's `toLowerCase` is modelled as ASCII lower-casing. This does
not change which logins succeed. Outside ASCII, the only character whose
lower-case form is a single ASCII letter is the Kelvin sign (to `k`), and
no table e-mail contains a `k`. Looking up an inherited property name such
as `constructor` in the table cannot succeed either, because the typed
password is a string and the inherited value's `password` is `undefined`.
The model's table is a map with exactly the three keys.

## Model

| member | source | states |
|---|---|---|
| `Credentials.DemoCredentials` | src/App.jsx:42-46 | the credential table has three entries, and every key is already lower-case, so every entry can be reached by the lower-cased lookup |
| `Credentials.ToLower` | src/App.jsx:92 | lower-casing keeps the length and lower-cases each character on its own (ASCII letters only) |
| `Credentials.CheckLogin` | src/App.jsx:92-99 | a successful login's user carries the lower-cased typed e-mail, which is a key of the credential table |
| `Credentials.CheckLoginAccounts` | src/App.jsx:42-46 | login succeeds for exactly three (lower-cased e-mail, password) pairs and yields the role and name listed for each; every other pair fails |
| `Credentials.CheckLoginIgnoresEmailCase` | src/App.jsx:92-96 | the outcome of a login is the same when the typed e-mail is lower-cased first |
| `Credentials.CheckLoginPasswordCaseSensitive` | src/App.jsx:94 | "ADMIN123" is refused where "admin123" is accepted, while "ADMIN@LMS.COM" is accepted like "admin@lms.com" |
| `Credentials.CheckLoginUserIsListed` | src/App.jsx:95-99 | every user a login produces has an already lower-case e-mail that is a table key, with that entry's role and name |
| `Credentials.ToLowerIdempotent` | src/App.jsx:92 | lower-casing the e-mail twice is lower-casing it once |
| `Access.EditorRolesFromTable` | src/App.jsx:148 | the two roles that may edit are exactly the roles the table gives to the accounts other than the trainer |
| `Access.CanEditSettings` | src/App.jsx:148 | editing is allowed exactly when a user is logged in and holds the role of a table account other than the trainer |
| `Access.LoginEditRights` | src/App.jsx:148 | after a successful demo login, edit rights are granted exactly when the account is not trainer@lms.com |
| `EcmaParseInt.ParseInt` | src/App.jsx:409 | parseInt gives a number only when a decimal digit follows the leading white space and sign, and always then unless that digit starts a "0x" prefix; a negative number comes only after a minus sign |
| `EcmaParseInt.CoerceUserLimit` | src/App.jsx:409 | the stored limit is non-zero only when a decimal digit follows the leading white space and sign of the typed text, and is then parseInt's value; NaN and 0 are stored as 0 |
| `EcmaParseInt.ParseIntOfDecimal` | src/App.jsx:408-409 | parseInt reads back the decimal numeral of any integer, whatever follows it, unless the following text continues the digits or turns a lone "0" into the "0x" prefix |
| `EcmaParseInt.CoerceUserLimitOfDecimal` | src/App.jsx:408-409 | re-entering the displayed numeral of an integer limit below 10^21 in magnitude stores that same integer |
| `EcmaParseInt.ParseIntNoDigit` | src/App.jsx:409 | text beginning with neither white space, a sign nor a digit (and the empty text) parses to NaN and is stored as 0 |
| `EcmaParseInt.ParseIntHexPrefixWithoutDigits` | src/App.jsx:409 | "0x" followed by no hexadecimal digit parses to NaN and is stored as 0 |
| `EcmaParseInt.ParseIntHex` | src/App.jsx:409 | "0x1A" is read in radix 16 and gives 26 |
| `EcmaParseInt.CoerceUserLimitNegative` | src/App.jsx:409 | a leading minus sign is kept: "-25" is stored as -25 |
| `OrgSettings.Defaults` | src/App.jsx:54-61 | the default record's policy is the first option of the select, and its user limit meets the input's minimum of 10 |
| `OrgSettings.ApplyEdit` | src/App.jsx:357-432 | each control's change event sets its own field to the control's value (the user limit coerced) and leaves the other five fields unchanged |
| `OrgSettings.ApplyEditIdempotent` | src/App.jsx:357-432 | repeating a change event changes nothing more |
| `OrgSettings.ApplyEditsCommute` | src/App.jsx:357-432 | change events on two different fields give the same record in either order |
| `OrgSettings.ApplyEditOverrides` | src/App.jsx:357-432 | a later change event on a field overrides an earlier one on the same field |
| `OrgSettings.PolicyListedPreserved` | src/App.jsx:390-399 | the default policy is one of the select's three options, and no form edit moves a listed policy off that list |
| `LmsApp.StatusText` | src/App.jsx:62 | the status string is empty exactly in the idle state |
| `LmsApp.SaveButtonLabelShowsStatus` | src/App.jsx:453-456 | the save button shows exactly one of "Save settings", "Saving...", "✓ Saved!" and "✗ Error" for each status, and different statuses show different labels |
| `LmsApp.App.constructor` | src/App.jsx:49-62 | the initial state: logged out, modal closed, no user, empty error and form, default settings, empty status, no timers pending |
| `LmsApp.App.Valid` | src/App.jsx:49-62 | the in-memory session is logged in exactly when it has a user, and that user is the record under `lms_auth`; "saving" has a save timer pending, and "saved" or "error" has a clearing timer pending |
| `LmsApp.App.CanEdit` | src/App.jsx:148 | `canEditSettings` on the component's current session |
| `LmsApp.App.SaveEnabled` | src/App.jsx:450 | the save button is enabled when editing is allowed and no save is in progress |
| `LmsApp.EditRightsRestOnStoredSession` | src/App.jsx:148 | whenever editing is allowed, `lms_auth` holds a user record with an editor role |
| `LmsApp.App.RestoreOnMount` | src/App.jsx:65-86 | stored settings replace the in-memory ones and a stored user is logged in; a missing key or unparsable text leaves that part unchanged; nothing else changes |
| `LmsApp.App.OpenLoginModal` | src/App.jsx:197-202 | the modal opens when logged out; nothing else changes |
| `LmsApp.App.CloseLoginModal` | src/App.jsx:478-481 | the modal closes and, if it was open, the login error is cleared; the form and the session are unchanged |
| `LmsApp.App.TypeLoginEmail` | src/App.jsx:513 | typing in the open modal replaces the form's e-mail only |
| `LmsApp.App.TypeLoginPassword` | src/App.jsx:528 | typing in the open modal replaces the form's password only |
| `LmsApp.App.SubmitLogin` | src/App.jsx:88-111 | on success the user record is the session in memory and under `lms_auth`, the modal closes, the form empties and the error clears; on failure the error is the fixed message and the session, form and storage are unchanged; settings and save state are untouched either way |
| `LmsApp.App.Logout` | src/App.jsx:113-117 | the session ends, `lms_auth` is removed, and settings, `lms_settings` and the save state are unchanged |
| `LmsApp.App.EditSetting` | src/App.jsx:357-432 | the edit is taken exactly when editing is allowed, and then changes only the settings, by that one field |
| `LmsApp.App.ClickSave` | src/App.jsx:119-123 | the click is taken exactly when editing is allowed and no save is in progress; it sets "saving" and queues the current settings |
| `LmsApp.App.SaveTimerFires` | src/App.jsx:123-132 | the settings captured at the click, not the current ones, are written to `lms_settings` with status "saved", or nothing is written and the status is "error"; a clearing timer is queued either way |
| `LmsApp.App.StatusClearFires` | src/App.jsx:127-130 | the status returns to "" and nothing else changes |
| `LmsApp.App.ResetSettings` | src/App.jsx:135-146 | when editing is allowed, settings become the default literal and the same literal is written to `lms_settings`; session and save status are untouched |
| `Scenarios.SaveWritesClickTimeSnapshot` | src/App.jsx:119-133 | an edit made while a save is pending stays in memory, but the timer writes the settings captured at the click |
| `Scenarios.TrainerCannotEdit` | src/App.jsx:148 | the trainer, with the e-mail typed in capitals, is logged in but cannot edit, reset or save |
| `Scenarios.LogoutKeepsEdits` | src/App.jsx:113-117 | after logout, earlier edits remain in memory and no further edit, reset or save is taken |
| `Scenarios.CorruptedSettingsFallBack` | src/App.jsx:69-75 | unparsable settings text in storage leaves the defaults in place and restores no session |
| `Scenarios.StoredSessionRestored` | src/App.jsx:77-85 | any user record under `lms_auth` is logged in on mount without a password, and its stored role alone decides edit rights |
| `Scenarios.OverlappingSaves` | src/App.jsx:119-133 | the disabled save button does not keep saves from overlapping: after the first save's clearing timer fires while a second save is pending, a third click is taken and two saves are pending at once |

## Left out

- Rendering: the JSX markup, the Tailwind class strings, and the display-only `roles` and `highlights` arrays are presentation only.
- tailwind.config.js is static theme data with no behaviour and is not part of this model.
- JSON encoding: stored values are typed records rather than JSON text. A stored value that parses but does not have the shape this program writes is treated like text that does not parse. Examples are `null` under `lms_auth`, which the source would restore as a logged-in state with no user, and a settings object under `lms_auth`.
- The `console.error` diagnostics on a failed parse are not modelled.
- Real time: only the order of events is modelled, not the 500 ms and 3000 ms delays. Save timers fire oldest first. Save and clearing timers may interleave in any order, which allows more orders than the real delays do.
- React's batching of `setState` calls is not modelled. Each handler's updates are applied in sequence, as the handler's final state shows them.
- Browser-enforced input constraints are not modelled: `required`, `type="email"`, `min="10"`, and the colour picker's value format.
- `LmsApp.App.SubmitLogin`: a storage write that throws (for example, quota exceeded) is not modelled. That write is outside any `try` in the source.
- `LmsApp.App.ResetSettings`: a storage write that throws is not modelled either; only the save path catches such a failure.
- `Credentials.ToLower`: JavaScript's full Unicode lower-casing is approximated by ASCII lower-casing. Strings are sequences of Unicode scalar values, not UTF-16 code units.
- `EcmaParseInt.IntToDecimal`: it writes every integer as plain digits. The number input shows an integer of magnitude 10^21 or more in exponent form ("1e+21"), which parseInt reads back as 1. `EcmaParseInt.CoerceUserLimitOfDecimal` therefore describes the source only below 10^21.
- `EcmaParseInt.ParseInt`: the result is the exact integer. The conversion to a Number, with rounding above 2^53 and -0 for a negated zero, is not modelled. The `|| 0` coercion maps -0 to 0 anyway.
- `scrollIntoView` on "Go to Settings" and the footer's current year are DOM and clock calls with no effect on state.
