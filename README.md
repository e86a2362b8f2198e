# Login / registration screen of the shop, in Dafny

This project models the authentication screen of the shop's web front end
(`pages/AuthPage.tsx`). The screen is one component with three pieces of local
state: the mode `isLogin`, the busy flag `isLoading`, and a form of five strings
(name, e-mail, phone, password, password confirmation). It has three handlers.

- Typing stores one field.
- The mode button flips between login and registration and clears both password fields.
- Submitting checks the typed e-mail against two read-only directories, the staff `users`
  and the shop `customers`, ignoring case. It ends in exactly one host call:
  `onLogin(email)`, `onRegister({name, email, phone})`, or an error toast.

Layout:

- `text.dfy`, module `Text`: the case-insensitive e-mail comparison
  (`a.toLowerCase() === b.toLowerCase()`), with ASCII lower-casing.
- `auth_page.dfy`, module `AuthPage`: the directory records and `Array.prototype.some`
  (`Any`), the form record and its updates, the `Outcome` of a submission, the
  decision function `Submission`, and the class `Page` whose methods are the
  handlers. Each method's postcondition ties the new state to the old one. For
  `HandleSubmit` this is `Submission` of the mode and form the handler starts from.
- `auth_properties.dfy`, module `AuthProperties`: what each submission branch
  promises, two lemmas that link submissions together, and clients of `Page`,
  including example scenarios of the screen.

The host callbacks are not modelled as effects. The single call a submission
makes is returned as an `Outcome` value. The directories are parameters of the
submission, read fresh on each call.

After a successful login `isLoading` stays `true` (pages/AuthPage.tsx:41-42),
so the submit button stays disabled; the model keeps this (`Submission`,
`LoginLocksSubmit`).

## Model

| member | source | states |
|---|---|---|
| Text.LowerChar | pages/AuthPage.tsx:38 | an upper-case ASCII letter moves to its lower-case letter; every other character is kept; the result is never upper-case |
| Text.Lower | pages/AuthPage.tsx:38-39 | `toLowerCase` keeps the length and lower-cases every character in place |
| Text.LowerIdempotent | pages/AuthPage.tsx:38-39 | lower-casing an already lower-cased e-mail changes nothing |
| Text.SameEmail | pages/AuthPage.tsx:38 | `a.toLowerCase() === b.toLowerCase()` holds exactly when the two e-mails have the same length and agree character by character after lower-casing |
| AuthPage.Any | pages/AuthPage.tsx:38 | `xs.some(p)` is true exactly when some element satisfies `p` |
| AuthPage.UserExists | pages/AuthPage.tsx:38 | the staff check holds exactly when some user's e-mail equals the typed one ignoring case |
| AuthPage.CustomerExists | pages/AuthPage.tsx:54 | the customer check holds exactly when some customer's e-mail equals the typed one ignoring case |
| AuthPage.Known | pages/AuthPage.tsx:57 | the disjunction of the customer and staff checks (also at line 41) holds exactly when some staff or some customer e-mail equals the typed one ignoring case |
| AuthPage.Submission | pages/AuthPage.tsx:37-70 | the decision of `handleSubmit`: every rejection is an error toast; the page is left busy if and only if `onLogin` was called; `onLogin` happens only in login mode, keeps login mode and receives the e-mail as typed; `onRegister` happens only in register mode, keeps it, and receives exactly the typed name, e-mail and phone. Each branch is stated in full by the AuthProperties lemmas |
| AuthPage.Set | pages/AuthPage.tsx:27 | the spread update gives the named field the new value and keeps the other four fields |
| AuthPage.ClearPasswords | pages/AuthPage.tsx:267 | the toggle's new form has both password fields empty and keeps name, e-mail and phone |
| AuthPage.Page.constructor | pages/AuthPage.tsx:15-23 | the screen starts in login mode, not busy, with every field empty |
| AuthPage.Page.HandleChange | pages/AuthPage.tsx:25-28 | typing changes only the form, and only the named field; mode and busy flag are untouched |
| AuthPage.Page.ToggleMode | pages/AuthPage.tsx:267 | the mode flips, both passwords are cleared, name, e-mail, phone and the busy flag are kept |
| AuthPage.Page.HandleSubmit | pages/AuthPage.tsx:30-71 | the submission returns the one host call and leaves the mode and busy flag that `Submission` decides for the starting mode and form; the form is never changed |
| AuthPage.Page.PressSubmit | pages/AuthPage.tsx:247-251 | while busy the button is disabled and pressing it changes nothing; otherwise it runs the submission |
| AuthProperties.LoginCalledIff | pages/AuthPage.tsx:37-42 | in login mode `onLogin` is called if and only if some staff or customer e-mail matches ignoring case; it receives the e-mail exactly as typed and the screen stays busy |
| AuthProperties.LoginIgnoresPasswords | pages/AuthPage.tsx:37-46 | a login's result does not depend on either password field |
| AuthProperties.LoginUnknownEmail | pages/AuthPage.tsx:43-45 | an e-mail found in neither directory gives only the "not found" error toast, stays in login mode and clears the busy flag |
| AuthProperties.RegisterPasswordMismatch | pages/AuthPage.tsx:48-52 | different passwords give the mismatch error toast, stay in register mode and clear the busy flag, whatever the directories hold |
| AuthProperties.RegisterEmailTaken | pages/AuthPage.tsx:54-61 | with equal passwords, an e-mail in either directory gives the "already registered" error toast, switches to login mode and clears the busy flag; no `onRegister` |
| AuthProperties.RegisterAccepted | pages/AuthPage.tsx:64-69 | with equal passwords and an e-mail in neither directory, `onRegister` receives exactly the typed name, e-mail and phone; the screen stays in register mode and is no longer busy |
| AuthProperties.RegisterThenLogin | pages/AuthPage.tsx:37-68 | once the host adds the customer `onRegister` described, logging in with that e-mail in any case succeeds and registering it again is refused |
| AuthProperties.TakenEmailThenLogin | pages/AuthPage.tsx:37-61 | a registration refused for a taken e-mail leaves login mode, and submitting the same form again logs that e-mail in |
| AuthProperties.ToggleTwice | pages/AuthPage.tsx:267 | toggling twice restores the mode and the busy flag; the passwords stay cleared and the other fields are kept |
| AuthProperties.LoginLocksSubmit | pages/AuthPage.tsx:41-42 | after a successful login, by a staff or a customer e-mail, the button stays disabled, so a second press makes no call |
| AuthProperties.CapitalsMatch | pages/AuthPage.tsx:39 | "ANA@X.COM" matches the customer e-mail "ana@x.com" |

## Left out

- Text.Lower: folds only the ASCII letters 'A'–'Z'. JavaScript's `toLowerCase` folds all of Unicode. The model therefore treats e-mails with non-ASCII capitals as different where the page treats them as equal.
- The 800 ms `setTimeout` before the decision (pages/AuthPage.tsx:35) is simulated latency. A submission is one atomic step over the mode and form at submit time. The in-flight state (busy, no outcome yet) is set first in `HandleSubmit` but is not observable in its contract.
- React state batching, setter functions and stale closures are not modelled. Each `set*` call is a plain field assignment.
- The host callbacks `onLogin`, `onRegister` and `showToast` are foreign. Their calls are returned as `Outcome` values, and their effects (session creation, account creation, toast display) are not modelled.
- The browser enforces the `required` attributes on the inputs (pages/AuthPage.tsx:127, 147, 175, 199, 221), not the component's code. The model accepts empty fields, as `handleSubmit` itself does.
- The JSX markup, icons, images, styles and the footer year (pages/AuthPage.tsx:73-283) are presentation only.
- `types.ts` is not part of this model. `Customer` carries the fields the page uses or omits (id, name, email, phone, avatarUrl), and `User` carries only `email`, the one field the page reads.
- `handleChange` with an input name other than the five form fields is not modelled. Only those five inputs are wired to it.
- components/layout/Header.tsx is not part of this model. It only renders props; its one computation is the first word of the customer's name in the greeting.
