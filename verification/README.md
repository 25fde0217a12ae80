# ClearBooks front end: form logic, invoice totals and the timer display

ClearBooks is a browser accounting application built with React and axios.
Nearly all of it is rendering and HTTP plumbing. This project models the parts of
its pages that hold real logic, and proves properties of them:

- **Invoice line-item editor** (`InvoiceForm.js`). The list of rows is never
  empty. Each row's amount is derived from its quantity and unit price. The
  subtotal, tax and total are computed from the rows and the tax rate. The
  submit step checks the customer and shapes the payload.
- **Timer page** (`TimerPage.js`). Elapsed seconds come from the session's
  start time. `formatDuration` produces the `HH:MM:SS` display. For a non-negative count
  of seconds, the display is proved to read back to the seconds it came from. The Idle/Running state is kept by
  `checkRunningTimer`, `handleStart` and `handleStop`.
- **Sidebar route highlighting** (`Sidebar.js`).
- **Registration form** (`Register.js`). The VAT number is upper-cased. The
  payload is cleaned of empty fields by a `reduce` loop. The outcome and the
  error message are chosen from the backend's answer.
- **Profile page** (`ProfilePage.js`). Loaded fields default to `''`. The
  password checks run mismatch first, then length below 6. On success the
  password form is reset.
- **Expense forms** (`ExpenseForm.js`, `ExpenseEdit.js`):
  - receipt-file checks: over 5 MiB is refused before a type outside `image/`;
  - photo removal;
  - the required-field check;
  - the payload;
  - defaults when a stored expense is loaded;
  - the priority of the error messages.

The module `Js` (`js.dfy`) states the few JavaScript semantics these handlers
rely on:
- truthiness and `||`;
- optional member access;
- the content of number inputs;
- `parseFloat`;
- `startsWith` and `trim`;
- string length in UTF-16 code units;
- `toUpperCase`.

Each page is a class whose fields are the page's state, and each handler is a
method. The backend's answer is a parameter of the method: a `Reply`, or the
page's own reply type. Money is exact `real` arithmetic, and times are integer
milliseconds.

Number inputs are `Blank`, `Typed(v)` or `Stored(v)`:
- `Blank` is the empty string (or null).
- `Typed(v)` is a numeric string typed by the user. It is truthy even when it is `"0"`.
- `Stored(v)` is a JavaScript number placed in state by the code. It is falsy when it is 0.

This difference is observable. An expense loaded with the number 0 as its
amount fails the required-field check.

Two details of the code shape the model:
- Line amounts and the tax amount are not rounded to two places. Rounding
  happens only in the display, through `toFixed`.
- A typed number that does not parse yields NaN rather than 0. The browser's
  number input hands the handlers `''` for such text, so it arrives as `Blank`.

Three helpers in `Js` carry these semantics into the handlers:
- `Js.Member(v, key)` is `v?.key`. It gives the object's member, or undefined
  when the key is missing or `v` is not an object.
- `Js.OrZero(x)` is `parseFloat(x || 0)`. A blank field reads as 0, and any
  other field reads as its number.
- `Js.ParseFloat(x)` is `parseFloat(x)`. It is NaN (`None`) for a blank field,
  and otherwise the field's number.

## Model

| member | source | states |
|---|---|---|
| `Js.Or` | clearbooks/src/components/Expenses/ExpenseEdit.js:32 | JavaScript's logical or gives its first operand when that is truthy and its second otherwise; the result is truthy iff either operand is |
| `Js.ParseFloatOrZero` | clearbooks/src/components/Invoices/InvoiceForm.js:46-47 | `parseFloat(x)` and `parseFloat` of the field or 0 agree exactly when the field is not blank; on a blank field the first is NaN and the second 0 |
| `Js.TrimStart` | clearbooks/src/components/Timer/TimerPage.js:66 | the result is a suffix of the input that is empty or starts with a non-whitespace character, and the prefix dropped before it is all whitespace; empty iff the input is all whitespace |
| `Js.TrimEnd` | clearbooks/src/components/Timer/TimerPage.js:66 | the result is a prefix of the input that is empty or ends with a non-whitespace character, and the suffix dropped after it is all whitespace; empty iff the input is all whitespace |
| `Js.TrimEmptyIffBlank` | clearbooks/src/components/Timer/TimerPage.js:66 | `!description.trim()` holds exactly when every character is ECMAScript whitespace |
| `Js.Utf16Length` | clearbooks/src/components/User/ProfilePage.js:105 | `.length` counts UTF-16 code units: between one and two per character, exactly the character count when every character is in the Basic Multilingual Plane, and more than the character count when any character lies outside it |
| `Js.Utf16LengthChar` | clearbooks/src/components/User/ProfilePage.js:105 | one character is one code unit inside the Basic Multilingual Plane and two outside it |
| `Js.Utf16LengthConcat` | clearbooks/src/components/User/ProfilePage.js:105 | the `.length` of a concatenation is the sum of the lengths, so with `Js.Utf16LengthChar` a string counts one unit per BMP character and two per astral character |
| `Js.ToUpperCase` | clearbooks/src/components/Auth/Register.js:24 | same length, no lower-case ASCII letter left, every other character kept, each lower-case letter moved to its capital |
| `Js.ToUpperCaseIdempotent` | clearbooks/src/components/Auth/Register.js:24 | upper-casing twice is upper-casing once |
| `FormFields.StoredInput` | clearbooks/src/components/Auth/Register.js:24 | the VAT number is stored upper-cased and every other field verbatim, with the same length |
| `FormFields.ChangeField` | clearbooks/src/components/Auth/Register.js:20-26 | the change sets exactly the named key and leaves every other key unchanged |
| `Sidebar.IsActiveIff` | clearbooks/src/components/Layout/Sidebar.js:7-9 | a menu entry is active iff the pathname equals its path or is its path, a '/' and a remainder |
| `Sidebar.ActiveOnItself` | clearbooks/src/components/Layout/Sidebar.js:8 | every path is active on itself |
| `Sidebar.ActiveOnChild` | clearbooks/src/components/Layout/Sidebar.js:8 | every child route `path/rest` is active |
| `Sidebar.InactiveWhenShorter` | clearbooks/src/components/Layout/Sidebar.js:8 | a pathname shorter than the path is not active |
| `Sidebar.InactiveWithoutBoundary` | clearbooks/src/components/Layout/Sidebar.js:8 | a pathname that extends the path without a '/' right after it (`/invoicesX`) is not active |
| `Sidebar.InactiveOffPrefix` | clearbooks/src/components/Layout/Sidebar.js:8 | a pathname that does not start with the path is not active |
| `InvoiceForm.ApplyEdit` | clearbooks/src/components/Invoices/InvoiceForm.js:41-50 | a description edit changes only the description; a quantity or unit-price edit sets that field and re-derives the amount as quantity × price with blanks as 0; a consistent row stays consistent |
| `InvoiceForm.FilterOutIndexSpec` | clearbooks/src/components/Invoices/InvoiceForm.js:59 | `filter((_, i) => i !== index)` drops exactly the element at `index` and keeps the rest in order; an index outside the list removes nothing |
| `InvoiceForm.RemovedItems` | clearbooks/src/components/Invoices/InvoiceForm.js:57-62 | a one-row list is left alone; a longer one loses exactly the row at `index` (none when out of range); a non-empty list stays non-empty |
| `InvoiceForm.ReduceAmounts` | clearbooks/src/components/Invoices/InvoiceForm.js:65 | the left-fold `reduce` equals its start value plus the sum of all amounts |
| `InvoiceForm.CalculateTotals` | clearbooks/src/components/Invoices/InvoiceForm.js:64-70 | subtotal is the sum of the amounts; tax is subtotal × rate / 100 with a blank rate as 0; total is subtotal + tax = subtotal × (1 + rate / 100) |
| `InvoiceForm.SumAmountsAppend` | clearbooks/src/components/Invoices/InvoiceForm.js:53-55 | appending a row adds exactly its amount to the subtotal |
| `InvoiceForm.SumAmountsRemove` | clearbooks/src/components/Invoices/InvoiceForm.js:57-62 | removing the row at `index` subtracts exactly its amount from the subtotal |
| `InvoiceForm.SumAmountsReplace` | clearbooks/src/components/Invoices/InvoiceForm.js:41-50 | replacing one row moves the subtotal by the difference of the old and new amounts |
| `InvoiceForm.SumAmountsPermutation` | clearbooks/src/components/Invoices/InvoiceForm.js:64-67 | the totals do not depend on the order of the rows: any permutation has the same subtotal |
| `InvoiceForm.BuildInvoice` | clearbooks/src/components/Invoices/InvoiceForm.js:76-96 | no customer gives the 'Please select a customer' error and no payload; otherwise the payload carries the header fields, the parsed tax rate, exactly `calculateTotals`' three values and one entry per row, in order, with the row's description, amount and parsed quantity and price |
| `InvoiceForm.InvoiceEditor.constructor` | clearbooks/src/components/Invoices/InvoiceForm.js:8-17 | the form starts with one default row (quantity 1, price 0, amount 0), tax rate 21 and no customer |
| `InvoiceForm.InvoiceEditor.AddItem` | clearbooks/src/components/Invoices/InvoiceForm.js:53-55 | exactly one default row is appended, earlier rows unchanged; the list stays valid, and the subtotal and the displayed totals are unchanged |
| `InvoiceForm.InvoiceEditor.RemoveItem` | clearbooks/src/components/Invoices/InvoiceForm.js:57-62 | the list becomes `RemovedItems`; a one-row list is unchanged, so the list is never empty; an in-range removal drops one row and its amount from the subtotal |
| `InvoiceForm.InvoiceEditor.ChangeItem` | clearbooks/src/components/Invoices/InvoiceForm.js:41-50 | only row `index` changes, as `ApplyEdit` says; length and validity are kept; the subtotal moves by the change in that row's amount |
| `InvoiceForm.InvoiceEditor.Submit` | clearbooks/src/components/Invoices/InvoiceForm.js:72-105 | no customer: the error is set and nothing is sent; otherwise `BuildInvoice`'s payload is sent and a failed request sets 'Error creating invoice' |
| `InvoiceForm.WorkedExample` | clearbooks/src/components/Invoices/InvoiceForm.js:64-70 | 2 × 10.00 and 1 × 5.50 at 21% give subtotal 25.50, tax 5.355 and total 30.855 |
| `TimerPage.ElapsedSeconds` | clearbooks/src/components/Timer/TimerPage.js:24-27 | `Math.floor((now - start) / 1000)`: the whole seconds elapsed, rounded down, non-negative once the clock has passed the start |
| `TimerPage.ElapsedMonotone` | clearbooks/src/components/Timer/TimerPage.js:26 | the displayed seconds never decrease while the clock moves forwards |
| `TimerPage.ElapsedAtTick` | clearbooks/src/components/Timer/TimerPage.js:26 | a tick k seconds (plus under one) after the start shows exactly k, so ticks one second apart show 1, 2, 3, … |
| `TimerPage.NatToString` | clearbooks/src/components/Timer/TimerPage.js:111 | `String(n)` is a non-empty string of decimal digits that reads back as `n`, with no leading zero unless it is the single digit `0`; one digit below 10 and at most two below 100 |
| `TimerPage.IntToString` | clearbooks/src/components/Timer/TimerPage.js:111 | `String(n)` is all digits exactly when `n` is non-negative, and those digits read back as `n`; for a negative `n` it is a minus sign followed by digits that read back as `-n` |
| `TimerPage.PadStart` | clearbooks/src/components/Timer/TimerPage.js:111 | `padStart(2, '0')` reaches the width by adding fill characters on the left, and never truncates |
| `TimerPage.TruncRem` | clearbooks/src/components/Timer/TimerPage.js:109-110 | JavaScript `%` agrees with the mathematical remainder on a non-negative dividend; on a negative dividend the remainder lies in (-b, 0] and `a - r` is a multiple of `b` |
| `TimerPage.Pad2Value` | clearbooks/src/components/Timer/TimerPage.js:111 | a padded non-negative field is all digits, at least two, never shorter than the number's own digits, exactly two below 100, and denotes the number |
| `TimerPage.Decomposition` | clearbooks/src/components/Timer/TimerPage.js:107-110 | minutes and seconds are below 60, and hours × 3600 + minutes × 60 + seconds gives back the count |
| `TimerPage.PaddedFields` | clearbooks/src/components/Timer/TimerPage.js:111 | the three padded fields joined by ':' have the `H…H:MM:SS` shape, and three or more hour digits from 100 hours on |
| `TimerPage.FormatDurationFields` | clearbooks/src/components/Timer/TimerPage.js:107-111 | for s ≥ 0 the display holds `s div 3600`, `(s mod 3600) div 60` and `s mod 60`, the last two below 60 and two digits long; hours are never truncated |
| `TimerPage.FormatDurationRoundTrip` | clearbooks/src/components/Timer/TimerPage.js:107-111 | reading the display of any s ≥ 0 back gives s |
| `TimerPage.NegativeDurationSign` | clearbooks/src/components/Timer/TimerPage.js:107-111 | a negative count, from a start time ahead of the local clock, prints with a leading '-' |
| `TimerPage.FormatsOneHourOneMinuteOneSecond` | clearbooks/src/components/Timer/TimerPage.js:107-112 | 3661 seconds display as "01:01:01" |
| `TimerPage.FormatsZero` | clearbooks/src/components/Timer/TimerPage.js:107-112 | 0 seconds display as "00:00:00" |
| `TimerPage.FormatsFiftyNineSeconds` | clearbooks/src/components/Timer/TimerPage.js:107-112 | 59 seconds display as "00:00:59" |
| `TimerPage.TimerState.constructor` | clearbooks/src/components/Timer/TimerPage.js:7-9 | the page starts idle, with an empty description and 0 seconds |
| `TimerPage.TimerState.EditDescription` | clearbooks/src/components/Timer/TimerPage.js:136-142 | while idle, the input's text becomes the description |
| `TimerPage.TimerState.CheckRunningTimer` | clearbooks/src/components/Timer/TimerPage.js:53-63 | a reported session is adopted with its description iff its `running` member is not exactly `false`; a failed request changes nothing |
| `TimerPage.TimerState.Start` | clearbooks/src/components/Timer/TimerPage.js:65-79 | the backend is called iff the description is not all whitespace; a blank one only alerts; a started session becomes the running timer with 0 seconds shown; a failure alerts with the response's `error` or the default and changes nothing |
| `TimerPage.TimerState.Stop` | clearbooks/src/components/Timer/TimerPage.js:81-93 | a confirmed stop sets the running timer to null, the description to '' and the seconds to 0; a failure alerts and changes nothing |
| `TimerPage.TimerState.Tick` | clearbooks/src/components/Timer/TimerPage.js:23-27 | one interval callback sets the seconds shown to `ElapsedSeconds` since the session's start |
| `TimerPage.TimerState.Display` | clearbooks/src/components/Timer/TimerPage.js:146-152 | a clock is shown iff a session runs, and it is `formatDuration` of the count; for a non-negative count it shows the hours, minutes below 60 and seconds below 60 in the H…H:MM:SS layout, and it reads back as the seconds shown |
| `Register.CleanPayload` | clearbooks/src/components/Auth/Register.js:34-41 | the payload holds exactly the keys of the form whose value is not null, undefined or '', each with its value unchanged |
| `Register.CleanPayloadIdempotent` | clearbooks/src/components/Auth/Register.js:34-41 | cleaning a cleaned payload changes nothing |
| `Register.ReducePayload` | clearbooks/src/components/Auth/Register.js:34-41 | the `reduce` that assigns kept values into an accumulator, key by key, builds exactly `CleanPayload`, whatever the key order |
| `Register.RegisterErrorMessage` | clearbooks/src/components/Auth/Register.js:66 | the message is `err.message`, else `err.error`, else the fixed default, and is never empty |
| `Register.RegisterForm.constructor` | clearbooks/src/components/Auth/Register.js:6-17 | every field empty, no error, no success |
| `Register.RegisterForm.HandleChange` | clearbooks/src/components/Auth/Register.js:20-26 | the form becomes `ChangeField` of the old form: the VAT number upper-cased, others verbatim, no other key changed |
| `Register.RegisterForm.HandleSubmit` | clearbooks/src/components/Auth/Register.js:28-70 | the cleaned payload is sent; a body with a token is stored and sets success; a body without one sets the no-token error; a thrown value sets `RegisterErrorMessage` |
| `ProfilePage.LoadedProfile` | clearbooks/src/components/User/ProfilePage.js:35-43 | the loaded form has exactly the seven profile fields, each the returned value when truthy and '' otherwise |
| `ProfilePage.CheckPassword` | clearbooks/src/components/User/ProfilePage.js:100-108 | a mismatch is reported first; a matching password under 6 UTF-16 units is too short; it passes iff it matches and has at least 6; the request carries only the current and new password |
| `ProfilePage.SixCharactersAccepted` | clearbooks/src/components/User/ProfilePage.js:105-108 | a matching password of exactly six basic-plane characters passes |
| `ProfilePage.ThreeAstralCharactersAccepted` | clearbooks/src/components/User/ProfilePage.js:105-108 | a matching password of three characters outside the Basic Multilingual Plane is six code units long and passes the length check |
| `ProfilePage.SetPasswordField` | clearbooks/src/components/User/ProfilePage.js:60-65 | the named password field takes the value and the other two are kept |
| `ProfilePage.Profile.constructor` | clearbooks/src/components/User/ProfilePage.js:7-24 | the page starts with empty fields, loading, not updating |
| `ProfilePage.Profile.LoadUserProfile` | clearbooks/src/components/User/ProfilePage.js:32-50 | a returned profile fills the form as `LoadedProfile`; a failure or a null or undefined body leaves the form and sets the load error; loading ends either way |
| `ProfilePage.Profile.HandleChange` | clearbooks/src/components/User/ProfilePage.js:52-58 | the form becomes `ChangeField` of the old form: the VAT number upper-cased, others verbatim |
| `ProfilePage.Profile.HandleProfileSubmit` | clearbooks/src/components/User/ProfilePage.js:67-93 | the whole form is sent; a body with a token is stored; a non-null body sets the confirmation message; a null or undefined body shows the default error and no confirmation; a failure shows the response body or the default; updating ends false |
| `ProfilePage.Profile.HandlePasswordChange` | clearbooks/src/components/User/ProfilePage.js:60-65 | the password form becomes `SetPasswordField` of the old one |
| `ProfilePage.Profile.HandlePasswordSubmit` | clearbooks/src/components/User/ProfilePage.js:95-130 | a failed check sets its message and sends nothing; otherwise only the current and new password are sent; success sets the message and empties all three fields; a failure shows the response body or the default; updating ends false |
| `ExpenseForm.CheckReceipt` | clearbooks/src/components/Expenses/ExpenseForm.js:25-40 | no file does nothing; a file over 5 MiB is refused before its type is looked at; a type not starting with 'image/' is refused; otherwise the file is accepted |
| `ExpenseForm.SizeLimitBoundary` | clearbooks/src/components/Expenses/ExpenseForm.js:29 | exactly 5 MiB passes the size check and one byte more does not |
| `ExpenseForm.BuildExpense` | clearbooks/src/components/Expenses/ExpenseForm.js:68-74 | the payload carries the fields as they are, `parseFloat(amount)` and the preview as the receipt photo |
| `ExpenseForm.SaveErrorMessage` | clearbooks/src/components/Expenses/ExpenseForm.js:80-82 | the message is `response.data.message`, else `response.data`, else the fixed default |
| `ExpenseForm.NewExpense.constructor` | clearbooks/src/components/Expenses/ExpenseForm.js:6-15 | an empty form dated today, no photo, no preview, no error, not loading |
| `ExpenseForm.NewExpense.HandleFileChange` | clearbooks/src/components/Expenses/ExpenseForm.js:25-49 | an accepted file becomes the photo; a refused file sets its message and leaves the photo; no file changes nothing |
| `ExpenseForm.NewExpense.PreviewLoaded` | clearbooks/src/components/Expenses/ExpenseForm.js:44-46 | the reader's result becomes the preview |
| `ExpenseForm.NewExpense.RemovePhoto` | clearbooks/src/components/Expenses/ExpenseForm.js:51-54 | both photo and preview are cleared |
| `ExpenseForm.NewExpense.HandleSubmit` | clearbooks/src/components/Expenses/ExpenseForm.js:56-87 | a missing name or amount sets the required-fields error and sends nothing; otherwise `BuildExpense`'s payload is sent and a failure shows `SaveErrorMessage`; loading ends false |
| `ExpenseEdit.LoadedFields` | clearbooks/src/components/Expenses/ExpenseEdit.js:28-33 | the loaded form copies name, amount and date and defaults missing notes to '' |
| `ExpenseEdit.LoadedZeroAmountIsMissing` | clearbooks/src/components/Expenses/ExpenseEdit.js:30 | a stored amount of the number 0 fails the required-field check after loading |
| `ExpenseEdit.EditExpense.constructor` | clearbooks/src/components/Expenses/ExpenseEdit.js:6-16 | empty fields, no photo, loading, not submitting |
| `ExpenseEdit.EditExpense.LoadExpense` | clearbooks/src/components/Expenses/ExpenseEdit.js:24-43 | a stored expense fills the form as `LoadedFields`; its photo becomes the preview only when it has one; a failure sets the load error; loading ends either way |
| `ExpenseEdit.EditExpense.HandleFileChange` | clearbooks/src/components/Expenses/ExpenseEdit.js:52-73 | the same ordered checks as the new-expense form: size before type, a refused file leaves the photo |
| `ExpenseEdit.EditExpense.PreviewLoaded` | clearbooks/src/components/Expenses/ExpenseEdit.js:68-70 | the reader's result becomes the preview |
| `ExpenseEdit.EditExpense.RemovePhoto` | clearbooks/src/components/Expenses/ExpenseEdit.js:75-78 | both photo and preview are cleared |
| `ExpenseEdit.EditExpense.HandleSubmit` | clearbooks/src/components/Expenses/ExpenseEdit.js:80-111 | a missing name or amount sets the required-fields error and sends nothing; otherwise the update carries `BuildExpense`'s payload and a failure shows `SaveErrorMessage` with the update default; submitting ends false |

## Left out

- The `services/*.js` axios wrappers and browser storage are not part of this model. Each backend answer is a parameter of the handler that awaits it. The stored user is a field.
- `utils/Formatters.js` (locale number and date formatting) is not part of this model.
- IEEE floating point is not modelled: NaN arithmetic, rounding, and the `toFixed(2)` display of amounts and hours. Money is exact `real`, and `parseFloat` of a numeric input is its exact value.
- `Js.ParseFloat`: text that does not parse as a number is not modelled. A number input hands the handlers `''` for such text.
- The `setInterval`/`clearInterval` lifecycle of the timer, including cancelling the interval on stop, is not modelled. `TimerPage.TimerState.Tick` is one interval callback.
- Parsing the session's `startTime` into a `Date` is not modelled. The start time is integer milliseconds.
- The timer page's entry list, total hours and delete action (`loadTimeEntries`, `loadTotalTime`, `handleDelete`) are plain loads and deletes through the backend.
- These browser effects are not modelled:
  - the `FileReader` base64 encoding: `PreviewLoaded` takes the data URL it produces;
  - `alert` (returned as a value) and `window.confirm`;
  - navigation after success;
  - the page reload after a profile update;
  - `console` logging.
- The plain field setters are not modelled: the invoice header's `handleChange`, the expense forms' `handleChange`, and `loadCustomers`.
- `InvoiceForm.Header`: the customer select's value is modelled as `Some(id)` once a customer is chosen. `parseInt` of the id's decimal text is taken to give back the id.
- `InvoiceForm.InvoiceEditor.ChangeItem`: the source writes the field into the item object it shares with the previous state, because `[...items]` is only a shallow copy. The model replaces the row by value, so that aliasing is not captured.
- `Js.Member`: `data.token` in the registration handler throws a TypeError on a null or undefined body in the source. The model reads it as `?.`, which gives undefined. The profile page's `response.data.name` and `response.data.token` are modelled with their catch paths: a null or undefined body sets the load error or the default update error.
- `Register.RegisterForm.HandleSubmit`: a register response body that is null does not take the source's catch path with the TypeError's message.
- `TimerPage.TimerState.CheckRunningTimer`: a null running-timer body is treated as a failed request, which changes nothing.
- `Js.ToUpperCase` upper-cases ASCII letters only. Other scripts' case mappings are not modelled.
- `Js.Value` has no number variant. A numeric member of a response body, such as a numeric `running` flag or an error's `status`, cannot be represented. The numbers the handlers read come from form fields, which are `NumInput`.
- `ProfilePage.SetPasswordField`: a change event naming a field other than the three password inputs is ignored, not added as an extra key. The form renders only those three inputs.
- The HTML `required` attributes are not modelled: the browser's own validation before a submit. The handlers' own checks are modelled.
- The render-only pages are not part of this model: lists, details, customers, login, navbar, routing and the PDF downloads.
