# Attendance kiosk navigator and registration draft, in Dafny

The kiosk is a React mock-up of a face-recognition attendance terminal. Two
pieces of it hold sequential logic, and this project models both and proves
what they promise:

- **The page navigator** (`src/pages/Index.tsx`). Module `IndexPage`. The class
  `Index` holds the page's three state cells: `currentScreen` (one of `Home`,
  `ClockIn`, `ClockOut`, `Register`), `showSuccess` (the success overlay) and
  `isDark` (the theme). There is one method per handler or inline navigation
  callback. Each method's `requires` is the guard under which the page renders
  the component that raises the event: home offers navigation and the theme
  toggle; each capture screen offers its capture and close; registration offers
  submit and cancel (the same close handler); the overlay, while shown, offers
  its completion. The pure functions `Offered` and `Step` describe the same
  machine as values. Every method ends in `State() == Step(old(State()), e)`.
  `Run` replays a sequence of events and gives `None` when an event is raised
  while its component is not rendered. Three lemmas then fully describe the
  state after any feasible run:
  - the screen is the one set by the last navigating event;
  - the overlay is shown when the last event touching it was a capture or a submit;
  - the theme has flipped once for every toggle.

  `currentScreen` is always one of the four screens because `Screen` is a closed
  datatype.
- **The registration draft** (`src/components/attendance/EmployeeRegistrationScreen.tsx`).
  Module `EmployeeRegistration`. The class `EmployeeRegistrationScreen` holds
  the five-field `formData` record and the `photoCaptured` flag, and has the
  input-change, capture, submit and cancel handlers. The validity expression
  is modelled as JavaScript evaluates it: a left-associated `&&` chain over
  strings and a boolean, with string truthiness meaning "non-empty"
  (module `JsValues`). `IsFormValid` is proved truthy exactly when the four
  required fields are non-empty and a photo was captured. `Replay` applies a
  sequence of edits, and lemmas describe its result: the photo flag is set
  exactly when some capture happened; each field holds its last input. From
  these follows when submit is enabled after any sequence of edits.

Module `Optional` holds the `Option` datatype that both modules use.

## Model

| member | source | states |
|---|---|---|
| `IndexPage.Index.constructor` | src/pages/Index.tsx:10-12 | the page starts on the home screen with the overlay hidden and the light theme |
| `IndexPage.Index.HandleToggleTheme` | src/pages/Index.tsx:23-25 | offered on home only; negates `isDark` and leaves the screen and overlay unchanged |
| `IndexPage.Index.OnClockIn` | src/pages/Index.tsx:64 | offered on home only; the screen becomes exactly `ClockIn`, overlay and theme unchanged |
| `IndexPage.Index.OnClockOut` | src/pages/Index.tsx:65 | offered on home only; the screen becomes exactly `ClockOut`, overlay and theme unchanged |
| `IndexPage.Index.OnRegister` | src/pages/Index.tsx:66 | offered on home only; the screen becomes exactly `Register`, overlay and theme unchanged |
| `IndexPage.Index.HandleClockInCapture` | src/pages/Index.tsx:27-29 | offered on the clock-in screen only; shows the overlay and keeps the screen and theme |
| `IndexPage.Index.HandleClockOutCapture` | src/pages/Index.tsx:31-33 | offered on the clock-out screen only; shows the overlay and keeps the screen and theme |
| `IndexPage.Index.HandleRegistrationSubmit` | src/pages/Index.tsx:35-37 | offered on the registration screen only; shows the overlay and keeps the screen and theme |
| `IndexPage.Index.HandleSuccessComplete` | src/pages/Index.tsx:39-42 | offered while the overlay is shown; from any screen it hides the overlay and returns home, theme unchanged |
| `IndexPage.Index.HandleClose` | src/pages/Index.tsx:44-46 | offered on every screen but home; returns home and does not clear the overlay or change the theme |
| `IndexPage.Offered` | src/pages/Index.tsx:51-91 | definition: navigation and the theme toggle are offered on home only, each capture on its own screen, submit on the registration screen, close on every screen but home, and the overlay's completion while the overlay is shown |
| `IndexPage.Step` | src/pages/Index.tsx:23-46 | definition: the new state after each handler, defined only for an offered event |
| `IndexPage.StepEffects` | src/pages/Index.tsx:23-46 | each handler sets the screen as the navigation table says, sets the overlay as the capture/submit/completion table says, keeps every other cell, and flips the theme exactly when it is the toggle |
| `IndexPage.NavigateThenCloseReturns` | src/pages/Index.tsx:44-66 | from home, navigating to any of the three screens and then closing is a feasible run that restores the whole state, overlay and theme included |
| `IndexPage.ToggleThemeTwice` | src/pages/Index.tsx:23-25 | two theme toggles from home are a feasible run that restores the whole state |
| `IndexPage.ScreenIsLastNavigation` | src/pages/Index.tsx:39-67 | after any feasible run the screen is the one set by the last navigation, close or completion, or the starting screen if none occurred |
| `IndexPage.OverlayIsLastSuccess` | src/pages/Index.tsx:27-57 | after any feasible run the overlay is shown exactly when a capture or submit came after the last completion (or, with neither, when it was shown at the start) |
| `IndexPage.ThemeParity` | src/pages/Index.tsx:12-25 | after any feasible run the theme differs from the starting theme exactly when the run holds an odd number of toggles |
| `IndexPage.EndsHomeAfterSuccessComplete` | src/pages/Index.tsx:39-42 | any feasible run ending in the overlay's completion ends on home with the overlay hidden |
| `JsValues.JsAndChain` | src/components/attendance/EmployeeRegistrationScreen.tsx:40 | a left-associated `&&` chain is truthy exactly when every operand is; its value is then the last operand, and otherwise the first falsy operand |
| `JsValues.JsAnd` | src/components/attendance/EmployeeRegistrationScreen.tsx:40 | `a && b` is truthy exactly when both operands are, and it evaluates to `a` whenever `a` is falsy |
| `EmployeeRegistration.IsFormValid` | src/components/attendance/EmployeeRegistrationScreen.tsx:40 | the validity expression is truthy exactly when full name, employee ID, department and location are non-empty and a photo was captured |
| `EmployeeRegistration.SubmitDisabled` | src/components/attendance/EmployeeRegistrationScreen.tsx:184 | the submit button is disabled exactly when one of the four required fields is empty or no photo was captured |
| `EmployeeRegistration.ValidIffRequiredFilled` | src/components/attendance/EmployeeRegistrationScreen.tsx:40 | validity, stated over fields: a photo was captured and every required field (all but the mobile number) is non-empty |
| `EmployeeRegistration.FieldNamed` | src/components/attendance/EmployeeRegistrationScreen.tsx:28 | the key of an input change names at most one field, and it names a field exactly when it is that field's key |
| `EmployeeRegistration.WithInput` | src/components/attendance/EmployeeRegistrationScreen.tsx:27-29 | an input change sets exactly the field with the given key to the value; every other field keeps its text |
| `EmployeeRegistration.MobileNumberIrrelevant` | src/components/attendance/EmployeeRegistrationScreen.tsx:133-143 | editing the mobile number leaves the value of the validity expression unchanged |
| `EmployeeRegistration.CaptureKeepsValid` | src/components/attendance/EmployeeRegistrationScreen.tsx:31-40 | capturing a photo never turns a valid form invalid |
| `EmployeeRegistration.InvalidatedOnlyByEmptyingRequired` | src/components/attendance/EmployeeRegistrationScreen.tsx:27-40 | on a valid form, an edit makes it invalid exactly when it sets a required field to the empty string |
| `EmployeeRegistration.Apply` | src/components/attendance/EmployeeRegistrationScreen.tsx:27-33 | one edit: the photo flag ends up set exactly when it was already set or the edit is a capture; an input sets exactly its keyed field, and every other field keeps its text |
| `EmployeeRegistration.PhotoCapturedIffEverCaptured` | src/components/attendance/EmployeeRegistrationScreen.tsx:25-33 | after any edits the photo flag is set exactly when it was set before or some capture happened; no edit clears it |
| `EmployeeRegistration.FieldIsLastInput` | src/components/attendance/EmployeeRegistrationScreen.tsx:18-29 | after any edits each field holds the value of its last input, or its earlier text when it had none |
| `EmployeeRegistration.SubmitEnabledAfterEdits` | src/components/attendance/EmployeeRegistrationScreen.tsx:18-40 | from the empty draft, submit is enabled exactly when a photo was captured at some point and each required field's last input was non-empty |
| `EmployeeRegistration.EmployeeRegistrationScreen.constructor` | src/components/attendance/EmployeeRegistrationScreen.tsx:18-25 | the draft starts with all five fields empty and no photo |
| `EmployeeRegistration.EmployeeRegistrationScreen.HandleInputChange` | src/components/attendance/EmployeeRegistrationScreen.tsx:27-29 | sets exactly the keyed field; the other fields and the photo flag are unchanged |
| `EmployeeRegistration.EmployeeRegistrationScreen.HandleCapturePhoto` | src/components/attendance/EmployeeRegistrationScreen.tsx:31-33 | sets the photo flag (so a retake changes nothing) and leaves every field unchanged |
| `EmployeeRegistration.EmployeeRegistrationScreen.HandleSubmit` | src/components/attendance/EmployeeRegistrationScreen.tsx:35-38 | callable only when the submit button is enabled (line 184); performs no check of its own and calls the parent's submit exactly once |
| `EmployeeRegistration.EmployeeRegistrationScreen.Cancel` | src/components/attendance/EmployeeRegistrationScreen.tsx:48 | the back arrow (line 48) and the Cancel button (line 192) both call the parent's cancel once and never its submit |

## Left out

- The effect that adds or removes the `dark` class on the document root (src/pages/Index.tsx:15-21) is DOM plumbing; only the `isDark` flag is modelled.
- Timers are event-loop scheduling and are not modelled: the overlay's 800 ms auto-dismiss (src/components/attendance/SuccessOverlay.tsx:15-21) and the clock ticks (TimeDisplay.tsx, ClockCaptureScreen.tsx). The overlay's completion is an event that may fire whenever the overlay is shown.
- Date and time formatting is locale-dependent library code and is left out.
- The side drawer is never mounted by the page and is left out. The header's menu button gets no handler from the home screen, so it does nothing. The home, capture, camera and header components only forward callbacks and are markup.
- The overlay covers the page visually. The screen beneath stays rendered, so the model does not stop the screen's events while the overlay is shown.
- The draft lives only while the registration screen is mounted: React discards it when the page leaves that screen. The model keeps the page and the draft as two separate objects, so this mount lifetime is not modelled.
- `EmployeeRegistration.WithInput`: in JavaScript, a key outside the five fields would add an extra property to the record. Nothing reads that property, and every input passes one of the five keys. The model keeps only the five fields, so such a key changes nothing.
- `EmployeeRegistration.EmployeeRegistrationScreen.HandleSubmit`: `preventDefault` on the form event is DOM behaviour and is not modelled. Enter-key submission is covered by the same gate, because a form whose submit button is disabled is not submitted implicitly.
- Behaviour the code does not have, which the model therefore leaves out:
  - close and cancel do not hide an overlay that is already showing;
  - captures show the overlay at once, with no processing delay;
  - the overlay has a single form, with no variant per kind of action;
  - an invalid registration cannot be submitted because its button is disabled, not because submit returns early.
