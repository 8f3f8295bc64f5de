# Saveeye device onboarding: the screens' decision logic in Dafny

This project models the decision logic of the Saveeye companion app's device
onboarding. A freshly paired device goes through four screens:

- **Wi-Fi** (`ConnectWifi`): the user picks a network the device can see. An
  open network is joined with an empty password. A secured one needs a
  password: the native prompt on iOS, an in-screen modal elsewhere. After a
  successful connect, the device lookup routes profiles 1 and 2 to blink entry
  and every other profile to the wait screen.
- **Blinks per kWh** (`BlinksPerKwh`): a number field (default 1000, shown
  empty for 0). Continue refuses a value that is `NaN` or not above 0.
- **Finishing setup** (`OnboardingWait`): polls the device's onboarding session
  every 2000 ms. `Done` opens the main screen. An `ErrorMessages` answer with a
  code is looked up in a fixed 16-entry table, with a generic fallback. The
  three credential codes open the key screen; every other code is displayed.
  Polling stops in both cases.
- **Encryption key** (`EncryptionKey`): the profile picks the key fields
  (4: optical key, 5: MEP key, 6: GPK60 and GPK61). The MEP key must have 20
  characters and each GPK key 32; this is checked when a field loses focus.
  Continue sends all four keys. A waiter then polls the session. It gives up
  once a `DecryptionError` has lasted more than 180000 ms.

Each screen is a class whose fields are the screen's React state and whose
methods are its event handlers. A method returns an `Effect`: a navigation, a
re-armed poll timer, a callback, an alert or an SDK request. Every answer of the
SDK and every clock reading is a parameter. The two pollers also have a pure
transition function `(state, answer) -> (state', effect)` and a fold over a
sequence of answers (`Run`, `WaiterRun`). The lemmas about whole polling runs
are stated over these folds.

Behaviour of the code that is easy to assume otherwise:

- A rejected session query ends polling in both pollers. Nothing re-arms it.
- On the wait screen, `DecryptionError` redirects to the key screen like the
  other two credential codes. The 180000 ms window exists only in the key
  screen's waiter.
- The waiter's timeout test is strict (`elapsed > 180000`).
- A classified error with `canContinue = true` still stops polling. The flag is
  never read.
- The wait screen never cancels its loop. A late answer still updates the
  screen and may navigate.

## Model

| member | source | states |
|---|---|---|
| OnboardingWait.Find | src/screens/OnboardingWaitScreen.tsx:126 | finds nothing iff no entry has the code; otherwise returns an entry with that code and no earlier entry has it |
| OnboardingWait.Classify | src/screens/OnboardingWaitScreen.tsx:125-134 | a known code gives a table entry with that code; an unknown code gives the GenericError entry |
| OnboardingWait.ErrorTransition | src/screens/OnboardingWaitScreen.tsx:125-144 | handling an error code never reschedules; it either navigates to ENCRYPTION_KEY with the same deviceId and keeps the current error, or records the classified non-redirecting entry |
| OnboardingWait.PollTransition | src/screens/OnboardingWaitScreen.tsx:146-167 | a rejected query changes nothing and stops; a snapshot overwrites `status`; MAIN is opened iff the status is Done; the next poll is scheduled iff the status is neither Done nor ErrorMessages with a non-empty code; `error` changes only to the classification of such a code |
| OnboardingWait.Run | src/screens/OnboardingWaitScreen.tsx:146-169 | a polling run consumes at most one answer per poll; every effect before the last is a 2000 ms reschedule; if answers remain unused, the last effect is not a reschedule |
| OnboardingWait.Render | src/screens/OnboardingWaitScreen.tsx:176-188 | firmware widget iff status is FirmwareUpdateInProgress; error box iff not that status and an error is held; never both; waiting text iff no error is held |
| OnboardingWait.TableCodesDistinct | src/screens/OnboardingWaitScreen.tsx:27-123 | the table has 16 entries with pairwise distinct codes |
| OnboardingWait.ClassifyTableEntry | src/screens/OnboardingWaitScreen.tsx:126 | looking up a table code yields exactly that code's entry |
| OnboardingWait.UnknownCodeIsGeneric | src/screens/OnboardingWaitScreen.tsx:127-133 | an unknown code yields {GenericError, "An error occurred. Please try again.", false, no redirect} |
| OnboardingWait.EntryFacts | src/screens/OnboardingWaitScreen.tsx:27-123 | per table entry: its code is listed; it redirects iff its code is a credential code, and then to ENCRYPTION_KEY with an empty message and no continuation; it may continue iff its code is one of the nine continuable codes |
| OnboardingWait.ListedCodeIsKnown | src/screens/OnboardingWaitScreen.tsx:27-123 | each of the sixteen listed codes occurs in the table |
| OnboardingWait.KnownCodes | src/screens/OnboardingWaitScreen.tsx:27-123 | a code is in the table iff it is one of the sixteen listed codes |
| OnboardingWait.RedirectingCodes | src/screens/OnboardingWaitScreen.tsx:27-99 | a code redirects iff it is DecryptionError, AuthenticationFailure or SecurityError, and then its entry is (code, "", canContinue false, ENCRYPTION_KEY) |
| OnboardingWait.ContinuableCodesExactly | src/screens/OnboardingWaitScreen.tsx:40-122 | canContinue holds exactly for ACKError, Timeout, LengthMismatch, SequenceError, InvalidData, CRCError, IdentificationError, LogonError and ReadError |
| OnboardingWait.HandleTableCode | src/screens/OnboardingWaitScreen.tsx:136-143 | for a table code: a redirecting entry navigates to ENCRYPTION_KEY with the deviceId and leaves `error` unchanged; any other entry becomes `error` exactly |
| OnboardingWait.ClassifiedErrorStopsPolling | src/screens/OnboardingWaitScreen.tsx:156-160 | an ErrorMessages snapshot with a non-empty code never reschedules; a continuable code is recorded as the error and nothing else happens |
| OnboardingWait.RedirectCodeOpensKeyScreen | src/screens/OnboardingWaitScreen.tsx:136-140 | an ErrorMessages poll with DecryptionError, AuthenticationFailure or SecurityError records the status, keeps the held error and navigates to ENCRYPTION_KEY with the deviceId |
| OnboardingWait.OtherCodeIsShown | src/screens/OnboardingWaitScreen.tsx:125-144 | an ErrorMessages poll with any other non-empty code, known or unknown, sets the error to its classification and neither navigates nor polls again |
| OnboardingWait.MainOnlyOnDone | src/screens/OnboardingWaitScreen.tsx:154-155 | in a polling run, the i-th effect is navigation to MAIN iff the i-th answer is a Done snapshot |
| OnboardingWait.DoneNavigatesOnce | src/screens/OnboardingWaitScreen.tsx:153-155 | a Done answer, whatever its error code, gives exactly one navigation to MAIN and no further poll, whatever answers would follow |
| OnboardingWait.OnboardingWaitScreen.constructor | src/screens/OnboardingWaitScreen.tsx:23-24 | status starts as '' and error as null |
| OnboardingWait.OnboardingWaitScreen.HandleError | src/screens/OnboardingWaitScreen.tsx:125-144 | the new `error` and the effect are those of ErrorTransition |
| OnboardingWait.OnboardingWaitScreen.Poll | src/screens/OnboardingWaitScreen.tsx:146-167 | the new (status, error) and the effect are those of PollTransition |
| OnboardingWait.OnboardingWaitScreen.PollUntilStopped | src/screens/OnboardingWaitScreen.tsx:146-169 | the self-rescheduling loop driven by a sequence of answers ends in Run's state with Run's effects |
| EncryptionKey.VisibleKeyFields | src/screens/EncryptionKeyScreen.tsx:86-102 | exactly one sub-form or none: optical key iff profile 4, MEP key iff profile 5, both GPK keys iff profile 6, no field for any other or unknown profile |
| EncryptionKey.MepBlurMessage | src/screens/EncryptionKeyScreen.tsx:149-155 | the MEP message is cleared iff the key has exactly 20 characters, otherwise it is the length message |
| EncryptionKey.Gpk60BlurMessage | src/screens/EncryptionKeyScreen.tsx:180-186 | the GPK60 message is cleared iff the key has exactly 32 characters, otherwise it is the GPK60 length message |
| EncryptionKey.Gpk61BlurMessage | src/screens/EncryptionKeyScreen.tsx:197-203 | the GPK61 message is cleared iff the key has exactly 32 characters, otherwise it is the GPK61 length message |
| EncryptionKey.EncryptionKeyScreen.constructor | src/screens/EncryptionKeyScreen.tsx:23-29 | all keys empty, not loading, no wait widget, profile unknown |
| EncryptionKey.EncryptionKeyScreen.OnDeviceLookup | src/screens/EncryptionKeyScreen.tsx:31-42 | a found device sets the profile; a failed lookup alerts and leaves it |
| EncryptionKey.EncryptionKeyScreen.EnterKey | src/screens/EncryptionKeyScreen.tsx:127-194 | typing replaces the typed key and no other |
| EncryptionKey.EncryptionKeyScreen.BlurMepKey | src/screens/EncryptionKeyScreen.tsx:149-155 | while the MEP field is mounted (profile 5, form shown), the MEP message becomes MepBlurMessage of the key; nothing else changes |
| EncryptionKey.EncryptionKeyScreen.BlurGpk60Key | src/screens/EncryptionKeyScreen.tsx:180-186 | while the GPK fields are mounted (profile 6, form shown), the GPK60 message becomes Gpk60BlurMessage of the key; the GPK61 message and everything else are untouched |
| EncryptionKey.EncryptionKeyScreen.BlurGpk61Key | src/screens/EncryptionKeyScreen.tsx:197-203 | while the GPK fields are mounted (profile 6, form shown), the GPK61 message becomes Gpk61BlurMessage of the key; the GPK60 message and everything else are untouched |
| EncryptionKey.EncryptionKeyScreen.Continue | src/screens/EncryptionKeyScreen.tsx:44-55 | no effect while loading; otherwise sends mep, gpk60, gpk61 and optical keys whatever the profile or field messages, and sets loading |
| EncryptionKey.EncryptionKeyScreen.OnSubmitSettled | src/screens/EncryptionKeyScreen.tsx:56-65 | success shows the waiter and the unmounted key widgets lose their length messages; failure alerts and keeps them; loading is false either way |
| EncryptionKey.EncryptionKeyScreen.OnWaiterTimeout | src/screens/EncryptionKeyScreen.tsx:68-76 | the waiter is hidden and the remounted key widgets show no length message |
| EncryptionKey.EncryptionKeyScreen.OnWaiterDone | src/screens/EncryptionKeyScreen.tsx:73 | navigates to MAIN |
| EncryptionKey.Rearm | src/screens/EncryptionKeyScreen.tsx:262-266 | storing a different start re-runs the polling effect (fresh poll at once); storing the same value gives exactly the 2000 ms reschedule |
| EncryptionKey.WaiterTransition | src/screens/EncryptionKeyScreen.tsx:227-259 | onDone iff Done; onTimeout iff DecryptionError with a recorded (non-null, non-zero) start and now - start > 180000; polling continues iff the status is outside Done/ErrorMessages, or DecryptionError without timeout; no effect iff rejected or another error code; an unrecorded start becomes now; other statuses clear the start; stopping keeps the start; a continuing poll re-runs at once iff the start changed and otherwise reschedules after 2000 ms (Rearm of the old and new start) |
| EncryptionKey.WaiterRun | src/screens/EncryptionKeyScreen.tsx:227-261 | a waiter run consumes at most one answer per poll; every effect before the last keeps polling; if answers remain unused, the last effect stops |
| EncryptionKey.EncryptionWaiter.constructor | src/screens/EncryptionKeyScreen.tsx:219-225 | no start recorded, not cancelled, no timer |
| EncryptionKey.EncryptionWaiter.OnAnswer | src/screens/EncryptionKeyScreen.tsx:227-259 | an answer after cleanup changes nothing; otherwise the new start and effect are WaiterTransition's and a timer is armed iff the effect is a 2000 ms reschedule |
| EncryptionKey.EncryptionWaiter.OnParentRender | src/screens/EncryptionKeyScreen.tsx:262-266 | a re-render of the key screen gives the effect new `onTimeout`/`onDone` dependencies: a live waiter clears its timer and polls at once; after cleanup nothing happens |
| EncryptionKey.EncryptionWaiter.Cleanup | src/screens/EncryptionKeyScreen.tsx:262-265 | cancelled is set and the pending timer is cleared |
| EncryptionKey.StepKeepsWindowSound | src/screens/EncryptionKeyScreen.tsx:239-255 | a poll that keeps the loop alive leaves the recorded start equal to the arrival time of an unbroken run of DecryptionErrors |
| EncryptionKey.TimeoutAfterPersistentErrorFrom | src/screens/EncryptionKeyScreen.tsx:239-250 | from any sound start, a run ending in timeout ends more than 180000 ms after the first of an unbroken run of DecryptionErrors |
| EncryptionKey.TimeoutNeedsPersistentDecryptionError | src/screens/EncryptionKeyScreen.tsx:239-250 | a fresh waiter times out only at a DecryptionError arriving more than 180000 ms after an earlier DecryptionError, with only DecryptionErrors in between |
| EncryptionKey.PersistentErrorTimesOut | src/screens/EncryptionKeyScreen.tsx:242-248 | with a start recorded, unbroken DecryptionErrors time out no later than the first one more than 180000 ms after the start |
| EncryptionKey.FreshPersistentErrorTimesOut | src/screens/EncryptionKeyScreen.tsx:239-248 | a fresh waiter whose answers are unbroken DecryptionErrors, the first at a non-zero time t0, times out no later than the first one more than 180000 ms after t0, keeping t0 as the start |
| EncryptionKey.OtherStatusRestartsWindow | src/screens/EncryptionKeyScreen.tsx:252-254 | a non-error, non-Done answer clears the start and keeps polling, so the next DecryptionError records its own time |
| EncryptionKey.DecryptionWindowScenario | src/screens/EncryptionKeyScreen.tsx:239-254 | DecryptionErrors at 1000 and 182000 ms time out; with another status in between, errors at 1000, 150000 and 182000 ms do not |
| ConnectWifi.ShowsLock | src/screens/ConnectWifiScreen.tsx:204 | the lock icon shows iff the auth mode is not open |
| ConnectWifi.DeviceTypeRoute | src/screens/ConnectWifiScreen.tsx:44-65 | a found device navigates with its deviceId, to BLINKS_PER_KWH iff profile is 1 or 2 and to ONBOARDING_WAIT otherwise; a failed lookup alerts |
| ConnectWifi.ConnectSettledEffect | src/screens/ConnectWifiScreen.tsx:85-92 | the device-type check is requested iff the connect succeeded; a failure alerts |
| ConnectWifi.ConnectWifiScreen.constructor | src/screens/ConnectWifiScreen.tsx:26-29 | no networks, modal closed, no selection, empty password |
| ConnectWifi.ConnectWifiScreen.OnWifiList | src/screens/ConnectWifiScreen.tsx:33-41 | the scanned list replaces the shown networks |
| ConnectWifi.ConnectWifiScreen.Tap | src/screens/ConnectWifiScreen.tsx:74-117 | the lock icon is absent iff the tap connects at once with ''; open network: connect with '' and no state change; secured on iOS: native prompt; secured elsewhere: select it and open the modal |
| ConnectWifi.ConnectWifiScreen.OnPromptAnswered | src/screens/ConnectWifiScreen.tsx:95-102 | connects to the tapped network with the entered password |
| ConnectWifi.ConnectWifiScreen.OnDirectConnectSettled | src/screens/ConnectWifiScreen.tsx:85-92 | success requests the device-type check, failure alerts |
| ConnectWifi.ConnectWifiScreen.EnterPassword | src/screens/ConnectWifiScreen.tsx:144-146 | the typed text becomes the password |
| ConnectWifi.ConnectWifiScreen.PressConnect | src/screens/ConnectWifiScreen.tsx:153-161 | nothing without a selection; otherwise connects to the selected ssid with the typed password; while the modal is open it always connects |
| ConnectWifi.ConnectWifiScreen.OnModalConnectSettled | src/screens/ConnectWifiScreen.tsx:162-175 | success and failure both close the modal, clear password and selection; then ConnectSettledEffect |
| ConnectWifi.ConnectWifiScreen.PressCancel | src/screens/ConnectWifiScreen.tsx:181-185 | closes the modal, clears password and selection |
| ConnectWifi.ConnectWifiScreen.RequestClose | src/screens/ConnectWifiScreen.tsx:125 | hides the modal only; selection and password are kept |
| ConnectWifi.ConnectWifiScreen.OnDeviceLookup | src/screens/ConnectWifiScreen.tsx:44-65 | the effect is DeviceTypeRoute's; a found device always navigates with its deviceId |
| ConnectWifi.NavigationNeedsConnectAndLookup | src/screens/ConnectWifiScreen.tsx:85-92 | a settled connect never navigates by itself; the lookup navigates iff the device was found |
| ConnectWifi.ProfileRoutes | src/screens/ConnectWifiScreen.tsx:48-59 | profiles 1 and 2 go to BLINKS_PER_KWH, every other profile to ONBOARDING_WAIT, with the deviceId |
| BlinksPerKwh.ParseText | src/screens/BlinksPerKwhScreen.tsx:60-63 | empty text gives 0; any other text gives its Number conversion |
| BlinksPerKwh.DisplayText | src/screens/BlinksPerKwhScreen.tsx:59 | the field is empty iff the value is 0; otherwise it shows the value |
| BlinksPerKwh.Acceptable | src/screens/BlinksPerKwhScreen.tsx:27 | a value passes iff it is a number above 0 |
| BlinksPerKwh.EmptyFieldIsRejected | src/screens/BlinksPerKwhScreen.tsx:59-62 | a cleared field, or text converting to 0, shows empty and cannot be submitted |
| BlinksPerKwh.BlinksPerKwhScreen.constructor | src/screens/BlinksPerKwhScreen.tsx:21-22 | the value starts at 1000, not loading |
| BlinksPerKwh.BlinksPerKwhScreen.ChangeText | src/screens/BlinksPerKwhScreen.tsx:60-63 | the stored value becomes ParseText of the text |
| BlinksPerKwh.BlinksPerKwhScreen.Continue | src/screens/BlinksPerKwhScreen.tsx:24-34 | no effect while loading; an unacceptable value only alerts, with no SDK call; an acceptable one is sent unchanged and loading is set |
| BlinksPerKwh.BlinksPerKwhScreen.OnSubmitSettled | src/screens/BlinksPerKwhScreen.tsx:35-46 | success navigates to ONBOARDING_WAIT with the deviceId, failure alerts; loading is false either way |

## Left out

- Timers, the clock and promise scheduling: `setTimeout`, `clearTimeout` and `Date.now()` are not modelled. Each SDK answer and the time it arrives are parameters. A re-armed timer is the effect `SchedulePoll(2000)`. A re-run of the waiter's polling effect is `PollAgain`.
- The SDK and the ESP provisioning library (`getOnboardingSession`, `setEncryptionKey`, `connectToWiFi`, `getAvailableSSIDForDevice`, `getDeviceById`, `setBlinksPerKwh`) are external calls. A call is an effect, and its outcome is a parameter of the handler that receives it.
- The SDK's session status enum and the library's Wi-Fi auth-mode enum are not part of this model. The statuses the screens compare against are named; every other status is `OtherStatus`. Auth modes are `Open` or `Secured(name)`.
- JavaScript `Number(text)` and `toString()` are left uninterpreted. The converted number is a parameter, and the displayed text is the value itself. Numbers are `NaN` or a real; floating-point rounding and infinities are not modelled.
- Key lengths are counted in Unicode characters. JavaScript's `length` counts UTF-16 code units, so the two differ for characters outside the Basic Multilingual Plane.
- Both `handleContinue` guards read `loading` as captured at the last render. Two presses before a re-render could both pass the guard. The model applies each handler to the current field values.
- EncryptionKey.EncryptionWaiter.OnAnswer: the effect re-run after the recorded start changes is collapsed into one step. The old timer is cleared and a fresh poll is issued, and the new effect instance is represented by the same object with `cancelled` false.
- EncryptionKey.Rearm: it covers only re-runs caused by a changed start. Re-runs caused by a re-render of the key screen are the separate step `OnParentRender`.
- EncryptionKey.EncryptionWaiter.OnParentRender: one object stands for both the old and the new effect instance. So the model does not capture that an answer to the old instance's in-flight query is dropped while the new instance's query is pending. The folds `WaiterRun` and the lemmas over them assume no such re-render happens during the run.
- Console logging, rendering and styles, and the iOS prompt's UI are not modelled.
- `src/App.tsx` is not part of this model beyond its screen enum. The Firebase auth subscription, permission checks and navigator wiring are library plumbing.
- The pairing, QR scan, main, history, realtime, device-settings, login and create-user screens are not part of this model. They forward to the SDK or Firebase and display results, with no onboarding decisions of their own.
