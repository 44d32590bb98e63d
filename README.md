# Login / registration form of GalaxyCinemaFE, in Dafny

This project models the form controller of the cinema front end's login page
(`src/pages/LoginPage.js`). The page shows one of two forms. The login form asks
for an email and a password. The registration form also asks for a name and a
phone number. The page validates the inputs on the client. It then asks the
authentication service to log in or to register. On success it navigates to the
home page. On failure it shows an error.

- `validation.dfy`, module `Validation`: the form snapshot (`Form`), the two
  modes, the three validation failures and their texts. `Validate` is the pure
  decision of `validateForm`: the first rule that fails, or `None`. The regular
  expression `/^\d{10}$/` is modelled by an anchored matcher, `MatchesDigitRun`.
  The matcher consumes one digit per step. A lemma proves that it accepts
  exactly the ten-character all-digit strings. `Acceptable` states every rule
  at once. `Validate` is proved to accept exactly the acceptable forms. Further
  lemmas pin down which error wins when several rules fail.
- `login_page.dfy`, module `LoginForm`: the class `LoginPage`. It has the
  component's state fields `isLogin`, `loading`, `error` and `formData`. Two
  ghost fields record the effects on the outside: the requests sent to the
  authentication service (`authRequests`) and the paths handed to the router
  (`navigations`). Its methods are the handlers
  `handleChange`, `validateForm`, `handleSubmit` and `toggleForm`. Each method's
  `ensures` gives the whole new state in terms of the old state and `Validate`.

The authentication call's outcome is a `bool` parameter of `HandleSubmit`. It
is true when the awaited `login` or `register` call settles without throwing.
Any resolved value, an error object included, leads to the navigation. The
service's `error` text is a `string` parameter. The empty string stands for
every falsy value (`null`, `undefined`, `''`), because `authError || fallback`
treats them all alike.

## Model

| member | source | states |
|---|---|---|
| `Validation.Message` | src/pages/LoginPage.js:141-160 | every validation error is shown with a non-empty text |
| `Validation.MessagesDistinct` | src/pages/LoginPage.js:143-158 | two errors have the same text exactly when they are the same error |
| `Validation.Set` | src/pages/LoginPage.js:130-136 | the spread `{...formData, [name]: value}` gives the named input the new value and keeps the other three |
| `Validation.Required` | src/pages/LoginPage.js:141-150 | login requires email and password; registration also requires name and phone |
| `Validation.DigitRunExactly` | src/pages/LoginPage.js:157 | the anchored pattern `\d{n}$` accepts a string exactly when it has length n and every character is in '0'..'9' |
| `Validation.PhoneAccepted` | src/pages/LoginPage.js:157 | ten plain digits pass the phone pattern |
| `Validation.PhoneRejected` | src/pages/LoginPage.js:157 | nine or eleven digits, a space, a leading `+` or a letter fail the phone pattern |
| `Validation.Validate` | src/pages/LoginPage.js:138-165 | validation reports no error exactly when all required inputs are filled and, when registering, the password has at least 6 characters and the phone is exactly 10 digits |
| `Validation.MissingFieldsRule` | src/pages/LoginPage.js:141-150 | in either mode the "missing fields" error is reported exactly when some input required by that mode is empty, so this rule wins over the others |
| `Validation.LoginChecksOnlyCredentials` | src/pages/LoginPage.js:141-145 | in login mode name and phone do not affect the result; it passes exactly when email and password are non-empty; the password-length and phone errors never occur |
| `Validation.ShortPasswordBeforePhone` | src/pages/LoginPage.js:152-155 | when registering with all inputs filled, a password shorter than 6 gives "password too short" whatever the phone holds |
| `Validation.PhoneRule` | src/pages/LoginPage.js:157-160 | when registering with all inputs filled and a long-enough password, the form passes exactly when the phone is 10 digits and otherwise fails with "invalid phone" |
| `Validation.RegisterStricterThanLogin` | src/pages/LoginPage.js:141-161 | a form that passes registration also passes login |
| `LoginForm.RequestFor` | src/pages/LoginPage.js:175-179 | login mode sends the email and password to `login`; registration mode sends the whole form to `register` |
| `LoginForm.FailureMessage` | src/pages/LoginPage.js:186 | after a failed call the error is the service's message when it is non-empty, the generic fallback otherwise, and never empty |
| `LoginForm.LoginPage.constructor` | src/pages/LoginPage.js:119-128 | the page starts in login mode, not loading, with no error and four empty inputs |
| `LoginForm.LoginPage.HandleChange` | src/pages/LoginPage.js:130-136 | the named input gets the value; the other inputs, the mode, the loading flag and the error are unchanged |
| `LoginForm.LoginPage.ValidateForm` | src/pages/LoginPage.js:138-165 | returns true and clears the error exactly when the form is acceptable; otherwise returns false and shows the text of the one error `Validate` picks; inputs and mode unchanged |
| `LoginForm.LoginPage.HandleSubmit` | src/pages/LoginPage.js:167-190 | an invalid form shows its validation error and sends nothing, navigates nowhere and keeps the loading flag; a valid form sends one request for the current mode, navigates once to "/" on success with no error, or stays put with the failure message, and ends with loading false |
| `LoginForm.LoginPage.ToggleForm` | src/pages/LoginPage.js:192-195 | the mode flips, the error is cleared, the inputs and loading flag are unchanged |
| `LoginForm.ToggleTwice` | src/pages/LoginPage.js:192-195 | toggling twice restores the mode and leaves no error; the inputs, the loading flag and the histories are untouched |
| `LoginForm.SubmitInvalidTwice` | src/pages/LoginPage.js:167-170 | submitting the same invalid form twice shows the same error; the mode, the inputs, the loading flag and the histories are unchanged |

## Left out

- The styled components and the rendered element tree (src/pages/LoginPage.js:8-113, 197-275) are presentation only.
- The `login` and `register` calls of the authentication context are not modelled. Only their outcome enters, as the `authSucceeds` parameter. The context's `error` value enters as the `authError` parameter.
- `navigate('/')` is recorded as an entry of `navigations`; the router itself is not part of this model.
- `console.error` on a failed call is output only and is not modelled.
- `e.preventDefault()` is browser behaviour and is not modelled.
- React's state batching and stale closures are not modelled. Each handler runs to completion as one atomic step. So `authError` is the value passed in, not a value read after the failed call.
- LoginForm.LoginPage.HandleSubmit: `loading` is true only while the call is awaited; because the handler is atomic here, the model shows only the final value (false). Events that arrive while a call is awaited are not modelled, and neither is the disabled submit button that guards against them (src/pages/LoginPage.js:256).
- An exception thrown by `navigate` itself would also land in the `catch` branch; the model takes navigation as never failing.
- LoginForm.LoginPage.HandleChange: only the four inputs of the page exist, so `name` is one of the four fields; a change event naming any other key, which would add that key to `formData`, is not modelled.
- Password length is the number of characters of a `seq<char>`, not the number of UTF-16 code units JavaScript counts, so characters outside the Basic Multilingual Plane count once here and twice in the source.
