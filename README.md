# Customer registration form: a Dafny model

This project models the logic of the Angular customer registration form
component (`CustomerComponent`). The component holds a reactive form with the following controls:
first and last name, an email group (email and confirm-email), phone,
notification preference, rating, a send-catalog flag and a growable list of
addresses.

The modelled logic has three parts:

- the two validators: the email/confirm-email matcher and the rating range factory;
- the projection of a control's failing validator keys into one error message;
- the operations that change the form in place: building the initial form,
  adding an address, patching demonstration data, switching whether phone is
  required, and setting the error message.

Files:

- `wrappers.dfy`: `Option`, which stands for `null`/`undefined`.
- `validators.dfy` (module `Validators`): the control and group views the
  validators read, `EmailMatcher`, `RatingRange` and the `required` rule that
  phone can carry.
- `messages.dfy` (module `Messages`): the message table, `join`, the error
  text with its generic fallback, and the message `setMessage` leaves behind.
- `customer.dfy` (module `Customer`): the address entries, the phone control
  as a value, and the `CustomerForm` class whose methods change the form
  state in place.

Modelling choices:

- A control is dirty exactly when it is not pristine, as Angular defines it.
- An error object is the ordered list of its keys (`Object.keys` order; the
  keys involved are never integer-like, so this is their insertion order).
  `None` is `null`. `Some([])` is a non-null empty object, which is truthy, so
  `setMessage` gives it the generic text.
- A rating value is classified the way JavaScript's numeric coercion sees it:
  - `Null`;
  - `Num(x)`, a real number, so 2.5 lies in the range [1, 5];
  - `NonNumeric`, anything that coerces to NaN.

  The model has no case for plus or minus Infinity. Line 22 rejects it with
  `range`, the same verdict as any `Num` outside [1, 5].
- `c.get(name)` on a group that lacks the name yields `None`. Then `?.pristine` is
  falsy and `?.value` is `undefined`, and `EmailMatcher` follows those rules.
- `validationMessages[key]` for a key with no entry is `undefined`, which
  `join` renders as the empty string. `setMessage` falls back to
  `"Invalid <name> value"` only when the whole join is empty. So one unmapped
  key gives the fallback, and `n >= 2` unmapped keys give `n - 1` spaces. A
  mapped key's message keeps the separator of an unmapped neighbour. This
  behaviour is modelled as written (`UnmappedKeys`, `AppendUnmappedKey`,
  `MappedThenUnmapped`).
- `errorMessage` is declared without an initial value. It is `None`
  (`undefined`) until `SetMessage` first runs.
- `populateData` patches an `email` key, but the form has no top-level
  control of that name: email lives in the email group. Angular's
  `patchValue` skips unknown keys, so the model leaves the email values
  unchanged.
- `ChangeNotification` models the user editing the notification control.
  The control's change subscription (line 71) runs `setNotification` with the
  new value straight away. Through it, phone's rules keep following the
  preference.

## Model

| member | source | states |
|---|---|---|
| `Validators.EmailMatcher` | src/app/customers/customer.component.ts:6-18 | the result is null or `{match}`; null whenever either control is pristine; with both controls edited, `{match}` exactly when the two values differ |
| `Validators.EmailMatcherMissingControl` | src/app/customers/customer.component.ts:7-17 | a group with neither control passes; an edited control whose sibling is missing is reported as a mismatch |
| `Validators.RatingRange` | src/app/customers/customer.component.ts:20-27 | the returned validator passes null, fails with `{range}` on a non-numeric value, and on a number fails exactly when it lies outside [min, max], bounds included |
| `Validators.RatingValidatorAccepts` | src/app/customers/customer.component.ts:64 | the rating validator of the form accepts exactly null and the numbers from 1 to 5 |
| `Messages.MessageFor` | src/app/customers/customer.component.ts:43-46 | a key's rendered message is non-empty exactly when the table maps it; an unmapped key renders as "" |
| `Messages.MessagesFor` | src/app/customers/customer.component.ts:118 | mapping the keys keeps their number and order and gives each key its own rendered message |
| `Messages.JoinLength` | src/app/customers/customer.component.ts:118 | the length of a join is the total length of its parts plus one separator per pair of neighbours |
| `Messages.JoinSnoc` | src/app/customers/customer.component.ts:118 | joining one more part appends a separator and that part to the join, so the join is its parts in order with separators between them |
| `Messages.JoinIsEmpty` | src/app/customers/customer.component.ts:118 | with a non-empty separator a join is empty exactly when there is no part or one empty part |
| `Messages.JoinOfEmptyParts` | src/app/customers/customer.component.ts:118 | joining `n` empty parts leaves `n - 1` separators |
| `Messages.ErrorText` | src/app/customers/customer.component.ts:118 | the text for a control with errors is never empty |
| `Messages.FallbackExactly` | src/app/customers/customer.component.ts:118 | the generic "Invalid <name> value" appears exactly when there is no key or a single unmapped key |
| `Messages.UnmappedKeys` | src/app/customers/customer.component.ts:118 | keys none of which is mapped: one gives the generic text, `n >= 2` give `n - 1` spaces |
| `Messages.MappedThenUnmapped` | src/app/customers/customer.component.ts:118 | `required` followed by any unmapped key gives the required message followed by a space, not the generic text |
| `Messages.AppendUnmappedKey` | src/app/customers/customer.component.ts:118 | appending an unmapped key to keys whose messages join to non-empty text adds exactly one space: the key's message is dropped and the generic text is not used |
| `Messages.DisplayedMessage` | src/app/customers/customer.component.ts:114-120 | the message is empty exactly when the control is neither touched nor dirty or has no errors; otherwise it is the error text of its keys |
| `Customer.WithNotification` | src/app/customers/customer.component.ts:103-112 | after setting the preference, phone's errors agree with its rules and its value is unchanged |
| `Customer.NotificationSetsRules` | src/app/customers/customer.component.ts:106-110 | phone's rules are exactly {required} for "text" and empty for every other preference |
| `Customer.EmptyPhoneInvalidIffText` | src/app/customers/customer.component.ts:103-111 | an empty phone is invalid exactly when the preference is "text"; a non-empty phone is then valid |
| `Customer.NotificationIdempotent` | src/app/customers/customer.component.ts:103-111 | applying the same preference twice equals applying it once |
| `Customer.CustomerForm.constructor` | src/app/customers/customer.component.ts:54-67 | the initial form: the schema's rules and validators, empty texts, notification "email", rating null, send-catalog true, one default address, phone without rules and valid, no error message yet |
| `Customer.CustomerForm.AddAddress` | src/app/customers/customer.component.ts:79-92 | the address list grows by exactly one, earlier entries are unchanged, and the new entry is the default: type "home", empty streets, city and state, zip code the `Number` constructor |
| `Customer.CustomerForm.PopulateData` | src/app/customers/customer.component.ts:94-101 | first name "John", last name "Azumarest", send-catalog false; email values, and every other field, unchanged |
| `Customer.CustomerForm.SetNotification` | src/app/customers/customer.component.ts:103-112 | phone becomes `WithNotification` of its old state; nothing else changes |
| `Customer.CustomerForm.ChangeNotification` | src/app/customers/customer.component.ts:71 | after the user changes the preference, phone's rules follow the new preference |
| `Customer.CustomerForm.SetMessage` | src/app/customers/customer.component.ts:114-120 | the error message becomes the displayed message of the control; nothing else changes |

## Left out

- The debounce of the email control's changes and the observable subscriptions
  (lines 69-76) are timer and observable plumbing. `SetMessage` is called
  directly with a snapshot of the control, and `ChangeNotification` stands for
  the notification subscription.
- The `console.log` of the email group's value (line 69) and `save` (lines
  122-125) only write diagnostic output and change no state.
- Angular's `FormBuilder`, the aggregation of validity up the group tree, `patchValue`'s
  traversal and change detection. Only the fields this component reads or
  writes are modelled, as plain values. Controls other than phone do not
  re-run their validators in the model.
- The `minLength`, `maxLength` and `email` rules belong to Angular's library.
  The schema records where they are attached, but their behaviour is not
  modelled. `required` is modelled only on text, where it fails on the empty
  string.
- `Messages.MessageFor` does not model a key that names an inherited property
  of `Object.prototype` (such as `constructor`). JavaScript's table lookup would
  find such a property. Validator keys never have such names.
- The template and stylesheet (lines 35-36) are not part of this model.
- The address list's entries are values, not the shared form-group objects
  of the original, so aliasing of an entry is not captured.
