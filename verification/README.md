# Feedback prompts of the Droidcon iOS application view-model

This project models the feedback-prompt state machine of the iOS
`ApplicationViewModel` in the Droidcon conference app, and proves properties
of that model in Dafny.

The view-model keeps one optional presented feedback dialog. It starts with
none. Three triggers can show a dialog:

- **Appearing** (`onAppear`) asks `FeedbackService.next()` for a session, but
  only when the settings say feedback is enabled.
- **Opening a feedback notification** (`notificationReceived`) asks `next()`
  whatever the flag says. Other notification types are ignored.
- **Answering a dialog** (submit or skip) records the answer with the feedback
  service, then asks `next()` again. Each dialog's continuations capture the
  session `next()` returned when the dialog was built.

A dialog's third action, close-and-disable, switches the flag off through the
settings gateway and hides the dialog without calling `next()`.

The model is functional. `ApplicationViewModel.State` holds the settings
snapshot and the presented session. Each transition is a pure function that
returns the new state and the calls it made, in order: `Next(result)`,
`Submit(s, fb)`, `Skip(s)` and `SetFeedbackEnabled(b)`. The value `next()`
returns is an input to each transition that may call it. That value appears
in the log only when the call is actually made.

An answer event carries the session of the dialog it was given on. The
predicates `Traces.AnswersOffered` and `Traces.AnswersOnScreen` describe runs
where that session is one an earlier `next()` returned, or the one on screen.
For such runs, every `submit` or `skip` call in the log comes after a `next()`
call that returned its session.

Modules:

- `Domain` defines sessions, feedback, notification types, the settings
  snapshot and the effect log.
- `ApplicationViewModel` defines the state, the transitions and `Run`, which
  runs a sequence of events.
- `Traces` proves properties over whole runs.
- `FeedbackQueue` runs the workflow against an assumed head-of-queue feedback
  service, and proves two concrete runs: submit-then-skip over two pending
  sessions, and a feedback notification while feedback is disabled.

Behaviours of the code worth knowing, all kept in the model:

- `notificationReceived` ignores its `sessionId`. It presents whatever
  `next()` returns, not the session the notification was about.
- `presentNextFeedback` overwrites a visible dialog. Nothing checks whether a
  dialog is already on screen before the presented value is replaced.
- `onAppear` with feedback disabled leaves a visible dialog in place. It
  neither hides the dialog nor calls `next()`.
- No call to the feedback service or the settings gateway is guarded against
  failure (see "Left out").

## Model

| member | source | states |
|---|---|---|
| ApplicationViewModel.Init | ios/src/iosMain/kotlin/co/touchlab/droidcon/ios/viewmodel/ApplicationViewModel.kt:34 | A new view-model presents no feedback dialog and reads `useCompose` from the settings it was given |
| ApplicationViewModel.PresentNextFeedback | ios/src/iosMain/kotlin/co/touchlab/droidcon/ios/viewmodel/ApplicationViewModel.kt:63-66 | Exactly one `next()` call. The presented dialog becomes that call's result, or none for null, even if another dialog was visible. Settings are untouched |
| ApplicationViewModel.OnAppear | ios/src/iosMain/kotlin/co/touchlab/droidcon/ios/viewmodel/ApplicationViewModel.kt:55-61 | With the flag off: no call and no change. With it on: one `next()`, whose result is presented. `next()` is called if and only if the flag is on |
| ApplicationViewModel.NotificationReceived | ios/src/iosMain/kotlin/co/touchlab/droidcon/ios/viewmodel/ApplicationViewModel.kt:46-53 | A feedback notification presents `next()`'s result whatever the flag and the session id are. Any other type changes nothing and calls nothing |
| ApplicationViewModel.SubmitFeedback | ios/src/iosMain/kotlin/co/touchlab/droidcon/ios/viewmodel/ApplicationViewModel.kt:67-70 | Calls submit for the dialog's own session, then `next()`, in that order. Presents that `next()` result |
| ApplicationViewModel.SkipFeedback | ios/src/iosMain/kotlin/co/touchlab/droidcon/ios/viewmodel/ApplicationViewModel.kt:75-78 | Calls skip for the dialog's own session, then `next()`, in that order. Presents that `next()` result |
| ApplicationViewModel.CloseAndDisable | ios/src/iosMain/kotlin/co/touchlab/droidcon/ios/viewmodel/ApplicationViewModel.kt:71-74 | Only call is `setFeedbackEnabled(false)`, so no `next`, submit or skip. Ends with the flag off, no dialog, `useCompose` kept |
| ApplicationViewModel.WithFeedbackEnabled | ios/src/iosMain/kotlin/co/touchlab/droidcon/ios/viewmodel/ApplicationViewModel.kt:72 | The snapshot after `setFeedbackEnabled(b)` has the flag equal to `b`. Other settings are kept |
| ApplicationViewModel.Apply | ios/src/iosMain/kotlin/co/touchlab/droidcon/ios/viewmodel/ApplicationViewModel.kt:46-81 | Dispatches appear, notification, submit, skip and close-and-disable. Assumption: a snapshot published from outside replaces the settings and changes nothing else. Only close-and-disable or an outside snapshot changes the settings. The dialog changes only through close-and-disable or a step whose last call is the `next()` that returned it. A step makes at most two calls |
| Traces.RunKeepsPresentedBy | ios/src/iosMain/kotlin/co/touchlab/droidcon/ios/viewmodel/ApplicationViewModel.kt:63-81 | If the presented dialog matches the call log before a run, it still matches the extended log after the run |
| Traces.PresentedFollowsLog | ios/src/iosMain/kotlin/co/touchlab/droidcon/ios/viewmodel/ApplicationViewModel.kt:34-81 | From a new view-model, after any events, the dialog shown is the latest `next()` result. If close-and-disable came later, no dialog is shown |
| Traces.RunIsChained | ios/src/iosMain/kotlin/co/touchlab/droidcon/ios/viewmodel/ApplicationViewModel.kt:67-78 | In any run, every submit or skip call is immediately followed by the `next()` call that picks the following dialog |
| Traces.AnsweredOnlyOffered | ios/src/iosMain/kotlin/co/touchlab/droidcon/ios/viewmodel/ApplicationViewModel.kt:64-78 | Bridge from events to calls: each answer step logs its own event's session, so a run whose answer events name offered sessions gives a log where every `submit` or `skip` call comes after a `next()` that returned its session. `AnswersOnScreenFollowOffers` discharges the hypothesis from what is on screen |
| Traces.AnswersOnScreenFollowOffers | ios/src/iosMain/kotlin/co/touchlab/droidcon/ios/viewmodel/ApplicationViewModel.kt:64-78 | From a new view-model, if the user answers only the dialog on screen, every `submit` or `skip` call comes after a `next()` that returned its session |
| Traces.FirstAnswerNeedsOffer | ios/src/iosMain/kotlin/co/touchlab/droidcon/ios/viewmodel/ApplicationViewModel.kt:64-78 | A run from a new view-model that starts with any answer, submit or skip, and whatever follows, meets neither the offered-session nor the on-screen condition |
| Traces.FlagStaysOff | ios/src/iosMain/kotlin/co/touchlab/droidcon/ios/viewmodel/ApplicationViewModel.kt:46-78 | Once the flag is off, no transition of this view-model turns it back on. Only a settings snapshot published by someone else can |
| Traces.AppearAfterDisableIsNoOp | ios/src/iosMain/kotlin/co/touchlab/droidcon/ios/viewmodel/ApplicationViewModel.kt:55-74 | After close-and-disable and any later events that do not re-enable feedback, an appearance calls nothing and changes nothing |
| Traces.NotificationAfterDisablePresents | ios/src/iosMain/kotlin/co/touchlab/droidcon/ios/viewmodel/ApplicationViewModel.kt:46-53 | After close-and-disable, a feedback notification still presents `next()`'s session, and the flag stays off |
| Traces.CloseAndDisableIdempotent | ios/src/iosMain/kotlin/co/touchlab/droidcon/ios/viewmodel/ApplicationViewModel.kt:71-74 | Close-and-disable applied twice leaves the same state as applied once |
| Traces.AppearDisabledIgnoresOracle | ios/src/iosMain/kotlin/co/touchlab/droidcon/ios/viewmodel/ApplicationViewModel.kt:55-61 | With the flag off, an appearance leaves the state unchanged whatever `next()` would return |
| Traces.UseComposeStable | ios/src/iosMain/kotlin/co/touchlab/droidcon/ios/viewmodel/ApplicationViewModel.kt:32 | Without a newly published settings snapshot, no feedback transition changes `useCompose` |
| FeedbackQueue.DrainQueue | ios/src/iosMain/kotlin/co/touchlab/droidcon/ios/viewmodel/ApplicationViewModel.kt:63-81 | With the queue's head on screen, each answer is given on the dialog on screen, each queued session is answered once and in order, the `next()` calls return each following session and then null, and no dialog is left |
| FeedbackQueue.AnswerAllOnScreen | ios/src/iosMain/kotlin/co/touchlab/droidcon/ios/viewmodel/ApplicationViewModel.kt:64-78 | Answering a queue dialog by dialog, starting with its head on screen, answers only the dialog on screen at each step |
| FeedbackQueue.AppearThenDrain | ios/src/iosMain/kotlin/co/touchlab/droidcon/ios/viewmodel/ApplicationViewModel.kt:55-81 | With the flag on, an appearance followed by answering every dialog starts with `next()` returning the head. It answers the whole queue in order and ends with no dialog |
| FeedbackQueue.SubmitThenSkipScenario | ios/src/iosMain/kotlin/co/touchlab/droidcon/ios/viewmodel/ApplicationViewModel.kt:63-78 | Flag on, pending S1 and S2: appearing shows S1. Submit records S1's feedback before asking for S2, which is then shown. Skipping S2 leaves no dialog |
| FeedbackQueue.NotificationWhileDisabledScenario | ios/src/iosMain/kotlin/co/touchlab/droidcon/ios/viewmodel/ApplicationViewModel.kt:46-53 | Flag off: opening a feedback notification whose `next()` is S3 shows S3 |

## Left out

- `lifecycle.whileAttached` (lines 37-44, 48, 56) is modelled as running its
  body synchronously. The attach/detach cycle, deferral until attachment and
  cancellation belong to a library that is not part of this model.
- `syncService.runSynchronization()` and
  `notificationSchedulingService.runScheduling()` (lines 37-43) are left out.
  They are opaque, indefinitely running I/O loops.
- The sub-view-models created with `managed(...)` (lines 27-30) are left out.
  They are ownership plumbing with no behaviour here.
- The internals of `FeedbackService`, `SettingsGateway` and
  `FeedbackDialogViewModel.Factory` are left out. `next()` is an input to each
  transition. Submit, skip and `setFeedbackEnabled` appear only as effect-log
  entries.
- The settings gateway is assumed to reflect its own writes. After
  `setFeedbackEnabled(false)`, the next read sees the flag off and every other
  setting unchanged.
- Exceptions are left out. They could come from `next()`, `submit` or `skip`
  (lines 64, 68, 76), from `setFeedbackEnabled(false)` (line 72) or from the
  settings read (line 57). The code catches none of them, and where they go
  depends on the lifecycle library. In particular, if `setFeedbackEnabled`
  throws, line 73 never runs and the dialog stays on screen. `CloseAndDisable`
  always clears the dialog.
- Two triggers racing is left out, because the model runs one event at a
  time. The `Option` type of the presented dialog makes two dialogs at once
  impossible by construction.
- The Android `MainActivity` is left out: splash screen, coroutine launches
  and dependency injection. The splash-visibility flag lives in a
  `MainViewModel` that is not part of this model.
- FeedbackQueue.DrainQueue: assumes `next()` returns the head of a queue and
  that submit or skip removes it. The feedback service is not visible, so
  only this module's lemmas rely on that assumption.
