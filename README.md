# Login/register form: a Dafny model

The repository is one React component, `components/Form.jsx`, rendered in one of two
modes given by its `type` property, `"register"` or `"login"`. This project models the
parts of it that carry behaviour:

- **Field validation** (`validation.dfy`, module `FormValidation`). Each input is
  registered with a `required` message and, for username and password, a `validate`
  callback. An empty value gets the required message and the callback is not consulted.
  Otherwise the callback's answer applies. Username needs length at least 3. Email
  needs only to be non-empty. Password needs length at least 5 and one character of the
  fixed set `! @ # $ % ^ & * ( ) _ + { } [ ] : ; < > , . ? ~ \ / -`. The username input,
  and so its rule, exists only in register mode.
- **View selection** (`view.dfy`, module `FormView`): the submit button's text by mode
  and loading flag, and the footer link by mode.
- **Submission** (`submit.dfy`, module `FormSubmit`): class `AuthForm` holds the mode,
  the loading flag, the field values and an ordered log of effects. The effects are the
  outbound call (the registration POST or the credentials sign-in), `router.push`
  targets and `toast.error` messages. `OnSubmit` follows the handler statement by
  statement. It sets loading, dispatches on the mode by string equality, and issues the
  call. It then applies two independent checks, `ok` to navigate and `error` to notify.
  Last it resets the values and clears loading. The awaited call's result is a
  parameter: `Returned(Response(ok, error))` or `Threw`. `HandleSubmit` validates the
  current values and calls `OnSubmit` only when no field reports an error.

Every state change is stated against pure functions (`SubmitEffects`, `Completes`,
`DefaultValues`). The lemmas are proved about those functions. They cover where each
mode navigates, which toasts can appear, and what a thrown call or an unknown mode
leaves behind.

Points where the code and common descriptions of this form differ (the model follows the code):

- The empty username gets "Username is required", not the length message, although it
  is shorter than 3. Likewise the empty password gets "Password is required", not the
  composite message.
- In register mode the handler tests `res.error` on a fetch `Response`, which has no
  such field. So "Something went wrong" is never shown (`RegisterNeverToasts`), and a
  failed registration (`ok` false) only resets the form.
- The form is not always cleared afterwards. A call that throws skips the reset and
  leaves loading true, because there is no `try`/`finally`. So does a mode that is
  neither `"register"` nor `"login"`.

## Model

| member | source | states |
|---|---|---|
| FormValidation.UsernameError | components/Form.jsx:79-85 | the empty value gets exactly "Username is required"; a value of length 1 or 2 gets exactly "Username must be at least 3 characters"; the value passes iff its length is at least 3 |
| FormValidation.EmailError | components/Form.jsx:103 | the value passes iff it is non-empty; otherwise the message is "Email is required" |
| FormValidation.PasswordError | components/Form.jsx:119-128 | the empty value gets exactly "Password is required"; the value passes iff its length is at least 5 and some position holds a character of the special set; every other non-empty value gets the one composite message, whatever the cause |
| FormValidation.HasSpecialIff | components/Form.jsx:124 | the left-to-right scan modelling `value.match` of the character class succeeds iff some position of the string holds one of the 27 listed characters |
| FormValidation.Validate | components/Form.jsx:74-129 | a username error can appear only in register mode, where it is the username rule applied to the value; the email and password errors are their rules applied to the values |
| FormValidation.UsernameFieldOnlyInRegister | components/Form.jsx:74-97 | the username input is shown iff the mode is "register"; outside it the username holds no value and never reports an error; inside it the username rule applies and the default value is "" |
| FormValidation.DefaultValues | components/Form.jsx:78-118 | the default and post-reset values hold "" in every rendered input, and a username value exactly when its input is rendered |
| FormValidation.AcceptedIff | components/Form.jsx:73-129 | a validation pass reports no error iff, in register mode, the username has length at least 3, the email is non-empty, and the password has length at least 5 with a special character |
| FormValidation.DefaultValuesRejected | components/Form.jsx:78-118 | the default (and post-reset) values fail validation: email and password get their required messages, and in register mode so does the username |
| FormView.ButtonLabel | components/Form.jsx:142-148 | the button text begins with "loading" iff the form is loading; in register mode it is "loading..." or "Join for free", in any other mode "loading" or "Let's Chat" |
| FormView.ButtonLabelDistinct | components/Form.jsx:142-148 | loading and idle texts differ in every mode; the idle text differs from the login one exactly in register mode |
| FormView.Footer | components/Form.jsx:152-165 | the footer link points to "/" iff the mode is "register", and to "/register" otherwise; its text is "Sign In Here" in register mode and "Register Here" otherwise, and its prompt is "Already have an account?" in register mode and "Don't have an account?" otherwise |
| FormSubmit.SubmitEffectsPermitted | components/Form.jsx:28-66 | every effect of a submission is one its mode can produce: a POST to "/api/auth/register" only in register mode, a credentials sign-in without redirect only in login mode, navigation only to that mode's route, a toast only with that mode's message |
| FormSubmit.RegisterOutcome | components/Form.jsx:30-48 | a registration first POSTs the form data as JSON to "/api/auth/register"; it navigates to "/" iff the response is ok; it toasts "Something went wrong" iff the response's `error` is set; it never navigates to "/chats" |
| FormSubmit.RegisterNeverToasts | components/Form.jsx:43-45 | with a fetch response (no `error` field) a registration shows no toast at all |
| FormSubmit.LoginOutcome | components/Form.jsx:50-65 | a login first calls the credentials sign-in with redirect off; it navigates to "/chats" iff `ok`; it toasts "Invalid email or password" iff `error`; with both set, both happen, navigation first |
| FormSubmit.ThrownCallSkipsReaction | components/Form.jsx:31-54 | when the awaited call throws, the call was issued and nothing after it happens, and the handler does not complete |
| FormSubmit.UnknownModeDoesNothing | components/Form.jsx:30-50 | for a mode that is neither "register" nor "login" a submission issues no call, has no effect and never completes |
| FormSubmit.Navigations | components/Form.jsx:40-57 | the recorded navigations are no more than the effects, and a path is among them iff the log holds a navigation to it |
| FormSubmit.Toasts | components/Form.jsx:44-61 | the recorded toasts are no more than the effects, and a message is among them iff the log holds a toast with it |
| FormSubmit.SubmitEffectsRecords | components/Form.jsx:39-61 | one submission records the mode's success route iff it completes with `ok`, and the mode's failure toast iff it completes with `error`, and nothing else |
| FormSubmit.SubmitRecords | components/Form.jsx:28-66 | on any prior history, a submission appends to the navigations and toasts exactly what it records alone |
| FormSubmit.RegisterToastsUnchanged | components/Form.jsx:43-45 | on any prior history, a registration answered by fetch leaves the toasts unchanged |
| FormSubmit.AuthForm.constructor | components/Form.jsx:15-24 | a new form is not loading, holds the default value "" in every rendered input and has no effects |
| FormSubmit.AuthForm.Input | components/Form.jsx:77-133 | typing sets the field's value, except for the username, which is not rendered outside register mode; loading and effects are unchanged |
| FormSubmit.AuthForm.OnSubmit | components/Form.jsx:28-66 | the effects grow by exactly the submission's effects; loading ends false iff the mode is known and the call returned; only then are the values reset to their defaults; the promise rejects iff a known mode's call threw; the form invariant is kept |
| FormSubmit.AuthForm.HandleSubmit | components/Form.jsx:73 | the errors returned are the validation of the current values; with any error nothing changes; with none the state changes exactly as the handler on those values; a register-mode submission that passes carries a username of length at least 3, and outside register mode the submitted values carry no username |

## Left out

- JSX markup, CSS classes, icons and the logo image. They are presentation only.
- react-hook-form internals are not modelled: the error-state object, re-validation
  timing and submit-state flags. The model keeps the order of the rules (required, then
  validate) and the rule that errors stop a submission. `reset()` is modelled as
  putting every rendered input back to its default value "".
- The body of the `fetch` request is recorded as the form values, not as its
  `JSON.stringify` text. The only header recorded is the content type. The results of
  `fetch` and `signIn` are parameters, because they are network and library calls. A
  network failure appears only as `Threw`. An HTTP error status appears as a response
  with `ok` false.
- `router.push` and `toast.error` are recorded effects. No navigation or notification
  takes place.
- The browser's format check for `type="email"` is done by the browser, not by this
  code.
- FormSubmit.AuthForm.OnSubmit: runs to completion in one step, so the state during the
  await is not modelled. Loading is set to true at the start of every submission, but the
  contract shows that only when the handler does not complete, as loading stays true.
  The moment when the button reads "loading..." is not a state of the model. Async
  suspension, double submissions while loading and React's batched state updates are
  left out for the same reason.
- FormValidation.UsernameError: lengths count Unicode scalar values. JavaScript's
  `length` counts UTF-16 code units, so the two differ for characters outside the Basic
  Multilingual Plane.
- FormValidation.PasswordError: its length bound counts Unicode scalar values, with the
  same difference from JavaScript's UTF-16 `length`.
