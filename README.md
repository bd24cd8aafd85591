# Quickgage waitlist: a Dafny model

This project models the waitlist signup of the Quickgage landing page. It has two sides:

- **The browser form** (`QuickgageLanding.jsx`). This is a three-step flow: step 1 is email entry, step 2 is the optional profile, step 3 is confirmation. The form holds the component state `step`, `email`, `emailError`, `formData` (six profile strings) and `waitlistPosition`. Its handlers are `validateEmail`, `handleEmailSubmit`, `handleFinalSubmit` and `handleInputChange`, plus the email input's change handler, "Back to home" and "Get Started".
- **The relay server** (`backend/server.js`). Its `POST /api/waitlist` handler refuses a falsy email. Otherwise it tries Google Sheets and then Formspree, records each sink's outcome in a `results` object, and answers 200 if at least one sink succeeded and 500 if none did.

Files:

- `values.dfy` (module `Values`): JSON values, `Option`, and JavaScript truthiness.
- `email.dfy` (module `EmailRule`): `validateEmail`, written as the anchored regular expression `^[^\s@]+@[^\s@]+\.[^\s@]+$`. A lemma proves it equal to a pattern-free description: exactly one `@`, no whitespace, a non-empty local part, and a domain with an inner dot.
- `landing.dfy` (module `Landing`): the form state as a value (`FormState`) with one pure transition per handler. The class `WaitlistForm` has the component's fields and one method per handler. Each method's postcondition equates the new `Snapshot()` with the matching transition applied to the old one. The lemmas are about runs of user events, limited to the controls actually on screen. They prove that steps 2 and 3 are only ever reached with an email that passes `validateEmail`, and that step 3 always has a truthy position to show.
- `server.dfy` (module `Server`): the handler as a method that returns the response and the list of outside calls it made, in order. Configuration and each outside call's outcome are inputs (`Env`, `Sinks`).
- `journey.dfy` (module `Journey`): one submission from step 2 through the server and back. The server never returns 400 for what the browser sends. The flow reaches step 3 exactly when a sink succeeded. Because the server's answer has no `position`, the position shown is always the browser's random fallback, which lies in [1, 200].

Where the written design of the system and the code disagree, the model follows the code:

- The server computes no position and no priority score. Its answer has no `position` field, and it writes no header row to the sheet.
- On a failed submission the browser keeps the email and the profile. It does not clear them.
- After a successful submission the browser does not clear the email. Only "Back to home" clears it.
- The Sheets outcome can stay `null`: this happens when the Sheets client cannot be built.

## Model

| member | source | states |
|---|---|---|
| EmailRule.ValidateEmail | QuickgageLanding.jsx:63-66 | the regex matches the whole string for some `@`/`.` split; an accepted address has at least five characters and an `@` |
| EmailRule.ValidateEmailIff | QuickgageLanding.jsx:63-66 | accepted iff: exactly one `@`, no JavaScript whitespace, a non-empty part before `@`, and a `.` after `@` that is neither first nor last there (both directions) |
| EmailRule.AcceptsShortAddress | QuickgageLanding.jsx:63-66 | `a@b.co` is accepted |
| EmailRule.RejectsMalformed | QuickgageLanding.jsx:63-66 | `a@b`, `a b@c.com` and the empty string are rejected |
| Landing.Profile.With | QuickgageLanding.jsx:107-109 | `{...prev, [field]: value}`: the field takes the value and the other five keep theirs |
| Landing.Profile.ToJson | QuickgageLanding.jsx:11-18 | `formData` as a JSON object has exactly the six keys, each holding its field |
| Landing.Payload | QuickgageLanding.jsx:81-85 | the request body always has `email` and `timestamp`, and has the six profile keys (with their values) exactly when the profile is not skipped |
| Landing.EmailTyped | QuickgageLanding.jsx:164 | typing changes the email and nothing else |
| Landing.EmailSubmitted | QuickgageLanding.jsx:68-76 | invalid email: error "Please enter a valid email address", step unchanged; valid email: error cleared, step 2; email, profile and position untouched either way |
| Landing.FinalSubmitted | QuickgageLanding.jsx:93-104 | step 3 iff the reply is ok; the position is then the reply's truthy `position`, or else the fallback; on a non-ok or rejected request: step 1, error "Something went wrong. Please try again.", position kept; email and profile always kept |
| Landing.InputChanged | QuickgageLanding.jsx:107-109 | only `formData[field]` changes |
| Landing.ReturnedHome | QuickgageLanding.jsx:277-282 | step 1, email `''`, all six profile fields `''`, position `null`; `emailError` untouched |
| Landing.Started | QuickgageLanding.jsx:426-429 | step 1; nothing else changes |
| Landing.ApplyKeepsConsistent | QuickgageLanding.jsx:149-288 | each handler whose control is on screen keeps the invariant (past step 1 the email is valid; step 3 has a truthy position) |
| Landing.RunKeepsConsistent | QuickgageLanding.jsx:68-109 | any run of on-screen events keeps that invariant |
| Landing.ReachedStepsHaveValidEmail | QuickgageLanding.jsx:70-75 | from the initial state, steps 2 and 3 are only reached with an email that passes `validateEmail`, and step 3 always shows a truthy position |
| Landing.WaitlistForm.constructor | QuickgageLanding.jsx:4-18 | the initial state: step 1, empty email, error and profile, `null` position |
| Landing.WaitlistForm.SetEmail | QuickgageLanding.jsx:161-167 | the email input's change handler (available at step 1) performs `EmailTyped` and keeps the invariant |
| Landing.WaitlistForm.HandleEmailSubmit | QuickgageLanding.jsx:68-76 | performs `EmailSubmitted` in place and keeps the invariant |
| Landing.WaitlistForm.HandleFinalSubmit | QuickgageLanding.jsx:78-105 | sends exactly `Payload(email, formData, skip, now)`, then performs `FinalSubmitted` in place and keeps the invariant |
| Landing.WaitlistForm.HandleInputChange | QuickgageLanding.jsx:107-109 | performs `InputChanged` in place and keeps the invariant |
| Landing.WaitlistForm.BackToHome | QuickgageLanding.jsx:277-282 | performs `ReturnedHome` in place and keeps the invariant |
| Landing.WaitlistForm.GetStarted | QuickgageLanding.jsx:426-429 | performs `Started` in place and keeps the invariant |
| Server.SheetsStatus | backend/server.js:52-74 | `not_configured` iff the sheet id or client email is unset; otherwise `null` iff no client was built, `success` iff the append returns, `error` iff it throws |
| Server.FormspreeStatus | backend/server.js:76-92 | never `null`; `not_configured` iff the endpoint is unset; otherwise `success` iff the post returns, `error` iff it throws |
| Server.Respond | backend/server.js:94-109 | 200 iff some outcome is `success`, otherwise 500; `success` mirrors that; bodies have exactly `success`/`message`/`results` or `success`/`error`/`results`; never a `position` |
| Server.HandleWaitlist | backend/server.js:39-110 | falsy email: 400 `{error: 'Email is required'}` and no sink call; otherwise the answer comes from the two recorded outcomes; calls: Sheets append `[[email, timestamp]]` first (when configured and a client exists), then Formspree `{email, timestamp, _subject}` (when configured), whatever Sheets did |
| Server.FailsUnlessSomeSinkSucceeds | backend/server.js:95-109 | the answer is 500 exactly when neither a configured Sheets append nor a configured Formspree post returned |
| Journey.SubmitProfile | QuickgageLanding.jsx:78-105 | from a consistent step 2: step 3 iff a sink succeeded, with the position equal to the fallback (the server sends no `position`); otherwise step 1 with the error set and email and profile kept; one call per configured sink, carrying the browser's email and the server's timestamp |

## Left out

- Styling, the starfield, the scroll animations, the page markup, `tailwind.config.js` and `src/main.jsx`: presentation with no behaviour to state. The only parts of the markup used are which controls are on screen at each step.
- `fetch`, the Google Sheets API, `axios`, Express, CORS, dotenv, `app.listen`, logging and `GET /api/health`: I/O and foreign libraries. The model keeps only their outcomes, as inputs: `Reply` on the browser side, and `Env` and `Sinks` on the server side.
- `getGoogleSheetsClient`: only whether it returned a client or `null`. The credentials and the private-key newline rewriting are not modelled.
- `new Date().toISOString()` and `Math.random()`: the timestamps are arbitrary strings passed in. The fallback position is an arbitrary integer in [1, 200].
- Asynchrony: each handler runs to completion as one step. Clicks made while `handleFinalSubmit` awaits its reply are not modelled.
- JSON numbers are modelled as integers, so fractional positions are not modelled.
- An ok reply whose JSON body is `null` makes `data.position` throw, which takes the error path. The model expects such a reply to be given as `Rejected`.
- `validateEmail` works on Unicode scalar values, while JavaScript's regex without the `u` flag works on UTF-16 code units. The accepted set is the same, because surrogate halves are neither whitespace nor `@`. The whitespace class is ECMAScript's `\s` listed in full.
- `req.body` is modelled as a JSON object; a request body that is not an object is not modelled. A non-string `email` is judged by truthiness and forwarded to the sinks unchanged, as the code does.
