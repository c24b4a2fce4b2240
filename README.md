# ECLIPSE UI shell: a Dafny model of its screen logic

ECLIPSE is a decorative React front end with a desktop and a mobile layout.
Under its markup sit a few small sequential state machines, and this project
models them and proves what they promise:

- **Dialog simulator**: the desktop chat `EclipseChat` and the mobile chat
  `MobileChat`. The transcript only grows. A submit guard rejects blank input
  and any input while a reply is pending. An accepted submit appends the raw
  input as a user entry, clears the input field and sets the busy flag. The
  reply timer later appends one assistant entry, clears the busy flag and
  redraws the network gauges within their bands.
- **Loading ticker** (`LoadingScreen`): progress rises by 2 per tick up to
  100. The phase is `min(progress / 25, 3)`. The completion callback is
  scheduled exactly once, on tick 51.
- **Onboarding stepper** (`MobileOnboarding`): four pages with Next, Back and
  Skip, plus the progress-dot classification and the button caption.
- **Screen controllers**: the mobile shell `MobileApp` has five screens and
  one persisted "onboarding complete" flag. The desktop `Index` page moves
  loading → landing ⇄ dashboard.
- **Profile helpers** (`MobileProfile`): the settings record, the
  camelCase-to-label transform and the three-digit EchoNode number.
- **Home gauges** (`MobileHome`): a timer replaces four statistics with
  fresh values, each in a fixed band.

The files:

- `JsText.dfy`: the JavaScript string operations these need. They are
  `trim`, the decimal `toString` of a non-negative integer, and `padStart`.
- `ChatMessages.dfy`: the transcript entry, the submit guard and the key
  binding that both chats share.
- One file per component: `EclipseChat.dfy`, `MobileChat.dfy`,
  `LoadingScreen.dfy`, `MobileOnboarding.dfy`, `MobileApp.dfy`, `Index.dfy`,
  `MobileProfile.dfy` and `MobileHome.dfy`.
- `MobileSession.dfy`: the mobile screens wired together the way the shell
  wires them.

Each component whose state React updates in place is a class. Its fields are
the component's state variables, and its methods are the handlers and timer
callbacks. A method's `ensures` gives the new state in terms of the old. The
pure rules are functions, with lemmas about them.

Randomness, clocks and timers are explicit inputs:

- Each `Math.floor(Math.random() * n) + b` is a natural-number draw `k < n`,
  passed in, that gives `b + k`.
- Each `Date.now()` or `new Date()` is a clock reading `now`, passed in.
- A `setTimeout` or `setInterval` firing is a method call: `CompleteReply` or
  `Tick`.
- Browser storage is a `map<string, string>`.

Canned texts are stored in the transcript as values of the `Content`
datatype (`Notice`, `Greeting`, `CannedReply(choice, embeddedNodes)`). Each
chat's `Text` function spells out the component's literal strings. No proof
looks inside them.

Three facts about the code:

- The desktop shell has no chat state. The dashboard is mounted without its
  `onEnterChat` callback, so the desktop chat screen is never shown
  (src/pages/Index.tsx:6, 34).
- Entry ids come from `Date.now()`, so they are not guaranteed unique. No
  uniqueness is claimed.
- The stored flag counts as set whenever the key holds a non-empty string.
  The flag is not a boolean.

## Model

| member | source | states |
|---|---|---|
| JsText.Trim | src/components/EclipseChat.tsx:78 | `trim` removes exactly the longest whitespace prefix and suffix. The result is a slice of the input and is empty iff the input is all whitespace. |
| JsText.TrimExact | src/components/mobile/MobileProfile.tsx:268 | A string with `a` leading whitespace characters and a non-whitespace last character trims to its suffix from `a`. |
| JsText.Decimal | src/components/EclipseChat.tsx:81 | `toString` of a non-negative integer is digits only, with no leading zero. It has one digit below 10, at most two below 100 and at most three below 1000. |
| JsText.DecimalRoundTrip | src/components/EclipseChat.tsx:81 | Reading the decimal text back gives the number. |
| JsText.LeadingZerosIgnored | src/components/mobile/MobileProfile.tsx:104 | Prefixing '0' characters keeps a digit string's value. |
| JsText.PadStart | src/components/mobile/MobileProfile.tsx:104 | `padStart` gives length max(len, width). The input is a suffix, and everything before it is the fill character. |
| ChatMessages.RejectsSubmitMeaning | src/components/EclipseChat.tsx:78 | The submit guard rejects exactly the all-whitespace inputs, and every input while busy. |
| ChatMessages.UserMessage | src/components/EclipseChat.tsx:80-85 | An accepted submit builds a `user` entry whose content is the raw, untrimmed input. Its id reads back as the clock value. |
| EclipseChat.RedrawnStatus | src/components/EclipseChat.tsx:109-115 | After a reply, all four gauges lie in 200..249, 80..99, 70..99 and 90..99. |
| EclipseChat.StatusDrawsFor | src/components/EclipseChat.tsx:109-115 | Every in-band reading of the four gauges is produced by some in-range draw, so the bands are exact. |
| EclipseChat.RedrawnStatusInjective | src/components/EclipseChat.tsx:109-115 | Distinct draws give distinct gauge readings. |
| EclipseChat.GenerateResponse | src/components/EclipseChat.tsx:119-139 | The reply is canned reply number `choice`, with `choice` in 0..3. |
| EclipseChat.ResponseIgnoresInput | src/components/EclipseChat.tsx:95 | The reply does not depend on the submitted text. |
| EclipseChat.ReplyMessage | src/components/EclipseChat.tsx:94-103 | The reply entry is an `assistant` entry with a canned reply, `networkNodes` in 200..249 and the scheduled processing time. |
| ChatMessages.InitialMessages | src/components/EclipseChat.tsx:39-55 | Both chats open with exactly two entries: `system` with id '1', then `assistant` with id '2', each reporting 247 nodes (the mobile chat does the same at src/components/mobile/MobileChat.tsx:35-51). |
| EclipseChat.Chat.constructor | src/components/EclipseChat.tsx:39-64 | The initial transcript, an empty input, not busy, no reply scheduled, and gauges 247/94/87/95. |
| EclipseChat.Chat.SetInput | src/components/EclipseChat.tsx:349-353 | Typing replaces the input and nothing else. It is possible only while idle, because the field is disabled while a reply is pending. |
| EclipseChat.Chat.Submit | src/components/EclipseChat.tsx:77-92 | On blank input or while busy: nothing changes. Otherwise: one `user` entry is appended after the unchanged earlier entries, the input is cleared, busy is set and a reply is scheduled. |
| EclipseChat.Chat.KeyPress | src/components/EclipseChat.tsx:142-147 | On the enabled input field, Enter without Shift submits. Any other key changes nothing. |
| EclipseChat.Chat.CompleteReply | src/components/EclipseChat.tsx:94-116 | Exactly one `assistant` entry is appended after the unchanged earlier entries. Busy is cleared, no reply stays scheduled, the input is still empty and all four gauges are redrawn into their bands. |
| EclipseChat.HelloExchange | src/components/EclipseChat.tsx:77-116 | Submitting "hello", then submitting again while busy, then letting the reply fire leaves exactly four entries: the two opening entries, the user entry "hello" and the chosen canned reply. The screen is idle, the input is empty and the gauges are in their bands. |
| EclipseChat.BlankSubmit | src/components/EclipseChat.tsx:78 | Submitting whitespace changes nothing: the transcript, the busy flag, the pending reply, the typed input and the gauges all stay as they were. |
| MobileChat.RedrawnStatus | src/components/mobile/MobileChat.tsx:120-125 | After a reply, the three gauges lie in 200..249, 80..99 and 70..99. There is no fourth gauge. |
| MobileChat.StatusDrawsFor | src/components/mobile/MobileChat.tsx:120-125 | Every in-band reading of the three gauges is produced by some in-range draw. |
| MobileChat.RedrawnStatusInjective | src/components/mobile/MobileChat.tsx:120-125 | Distinct draws give distinct gauge readings. |
| MobileChat.GenerateResponse | src/components/mobile/MobileChat.tsx:72-82 | The reply is canned reply number `choice`, with `choice` in 0..2. |
| MobileChat.ResponseIgnoresInput | src/components/mobile/MobileChat.tsx:106 | The reply does not depend on the submitted text. |
| MobileChat.ReplyMessage | src/components/mobile/MobileChat.tsx:105-114 | The reply entry is an `assistant` entry with a canned reply and `networkNodes` in 200..249. |
| MobileChat.Chat.constructor | src/components/mobile/MobileChat.tsx:35-59 | The initial transcript, an empty input, not busy, and gauges 247/94/87. |
| MobileChat.Chat.SetInput | src/components/mobile/MobileChat.tsx:289-294 | Typing replaces the input and nothing else. It is possible only while idle, because the field is disabled while a reply is pending. |
| MobileChat.Chat.Submit | src/components/mobile/MobileChat.tsx:84-103 | No-op on blank input or while busy. Otherwise one `user` entry with the raw input is appended, the input is cleared and busy is set. |
| MobileChat.Chat.KeyPress | src/components/mobile/MobileChat.tsx:134-139 | On the enabled input field, Enter without Shift submits. Any other key changes nothing. |
| MobileChat.Chat.CompleteReply | src/components/mobile/MobileChat.tsx:105-131 | Exactly one `assistant` entry is appended after the unchanged earlier entries. Busy is cleared, the input is still empty and the three gauges are redrawn into their bands. |
| MobileChat.HelloExchange | src/components/mobile/MobileChat.tsx:84-131 | Submitting "hello", then submitting again while busy, then letting the reply fire leaves exactly four entries: the two opening entries, the user entry "hello" and the chosen canned reply. The screen is idle, the input is empty and the gauges are in their bands. |
| MobileChat.BlankSubmit | src/components/mobile/MobileChat.tsx:85 | Submitting whitespace changes nothing: the transcript, the busy flag, the pending reply, the typed input and the gauges all stay as they were. |
| LoadingScreen.StepPreserves | src/components/LoadingScreen.tsx:21-34 | A tick keeps progress even and in 0..100 and keeps phase = min(progress/25, 3). Progress never decreases, and below 100 it rises by exactly 2. The completion is scheduled at most once. |
| LoadingScreen.RunFromStart | src/components/LoadingScreen.tsx:9-36 | After n ticks from a fresh screen, progress is min(2n, 100) and the phase follows it. The timer stops and the completion is scheduled exactly once from tick 51 on, and never before. |
| LoadingScreen.Loader.constructor | src/components/LoadingScreen.tsx:9-10 | Progress and phase start at 0, the timer runs and no completion is scheduled. |
| LoadingScreen.Loader.Tick | src/components/LoadingScreen.tsx:20-35 | The interval callback performs one step and keeps the invariant. Progress does not decrease. |
| MobileOnboarding.DotClassification | src/components/mobile/MobileOnboarding.tsx:119-125 | Dot i is current iff i = step, done iff i < step, pending iff i > step. |
| MobileOnboarding.DotCounts | src/components/mobile/MobileOnboarding.tsx:116-126 | On page `step`: one current dot, `step` done dots and 3 − step pending dots. |
| MobileOnboarding.Stepper.constructor | src/components/mobile/MobileOnboarding.tsx:46 | The stepper starts on page 0. |
| MobileOnboarding.Stepper.Next | src/components/mobile/MobileOnboarding.tsx:48-54 | Below the last page, Next moves one page on without completing. On the last page it completes and stays. Completing happens exactly when the caption reads "Begin Journey". |
| MobileOnboarding.Stepper.Back | src/components/mobile/MobileOnboarding.tsx:134-141 | Back is offered only past page 0 and moves back one page, so the page stays in 0..3. |
| MobileOnboarding.Stepper.Skip | src/components/mobile/MobileOnboarding.tsx:56-58 | Skip completes from any page. |
| MobileApp.RenderedViews | src/components/mobile/MobileApp.tsx:70-84 | Exactly one view is mounted, and it is the current screen's. |
| MobileApp.RenderingDistinguishesScreens | src/components/mobile/MobileApp.tsx:70-84 | Different screens mount different views. |
| MobileApp.CompletionRemembered | src/components/mobile/MobileApp.tsx:17-29 | Once the flag is stored as 'true', the next start settles on `home`. |
| MobileApp.App.constructor | src/components/mobile/MobileApp.tsx:12-13 | The app starts on `onboarding`, as a first launch. |
| MobileApp.App.Startup | src/components/mobile/MobileApp.tsx:15-22 | A stored truthy flag moves the app to `home` and clears the first-launch flag. Otherwise nothing changes. |
| MobileApp.App.NavigateTo | src/components/mobile/MobileApp.tsx:24-26 | Navigation sets any target unconditionally and changes nothing else, so navigating to the current screen is a no-op. |
| MobileApp.App.CompleteOnboarding | src/components/mobile/MobileApp.tsx:28-32 | Completing onboarding stores 'true' under the flag key, clears the first-launch flag and shows `home`. |
| MobileApp.Launch | src/components/mobile/MobileApp.tsx:12-22 | A fresh start opens at `home` iff the flag is stored, and otherwise at `onboarding`. |
| MobileApp.RelaunchAfterOnboarding | src/components/mobile/MobileApp.tsx:15-32 | Round trip: after onboarding is completed, a fresh start on the same storage opens at `home`. |
| MobileSession.FirstLaunchTour | src/components/mobile/MobileApp.tsx:15-32 | On storage without the flag, the app opens on `onboarding`. Exactly four Next presses complete onboarding, which shows `home`. After a visit to the profile and back, the app is on `home` with the flag stored. |
| MobileSession.QuickActionsReachOtherScreens | src/components/mobile/MobileHome.tsx:35-60 | The three quick actions lead, in order, to `chat`, `dashboard` and `profile`. These are distinct and are neither `home` nor `onboarding`. |
| MobileSession.BackButtonsGoHome | src/components/mobile/MobileProfile.tsx:72 | The profile and chat back buttons navigate to `home`. |
| Index.RenderedViews | src/pages/Index.tsx:25-35 | Exactly one view is mounted per state, and the desktop chat is never among them. |
| Index.Shell.constructor | src/pages/Index.tsx:9 | The page starts in `loading`. |
| Index.Shell.HandleLoadingComplete | src/pages/Index.tsx:11-13 | Loading complete moves to `landing`. |
| Index.Shell.HandleEnterDashboard | src/pages/Index.tsx:15-17 | Entering the dashboard moves to `dashboard`. |
| Index.Shell.HandleBackToLanding | src/pages/Index.tsx:19-21 | Back moves to `landing`. |
| Index.Shell.DashboardEnterChat | src/pages/Index.tsx:34 | The dashboard gets no enter-chat handler, so clicking the button changes nothing. |
| MobileProfile.With | src/components/mobile/MobileProfile.tsx:279-280 | Setting a key gives it the new value and leaves the other three unchanged. |
| MobileProfile.InitiallyAllOn | src/components/mobile/MobileProfile.tsx:29-34 | All four settings start on. |
| MobileProfile.WithSameValue | src/components/mobile/MobileProfile.tsx:279-280 | Setting a key to its current value changes nothing. |
| MobileProfile.SpaceBeforeCapitals | src/components/mobile/MobileProfile.tsx:268 | The replace adds exactly one character per A–Z letter. |
| MobileProfile.SpaceBeforeCapitalsShape | src/components/mobile/MobileProfile.tsx:268 | Every capital in the result directly follows a space. |
| MobileProfile.SpaceBeforeCapitalsEdges | src/components/mobile/MobileProfile.tsx:268 | The result starts and ends with the key's first and last characters. The first is behind a space when it is a capital. |
| JsText.TrimLeadingSpace | src/components/mobile/MobileProfile.tsx:268 | One space in front of a non-whitespace start is all that `trim` removes when the string ends in non-whitespace. |
| MobileProfile.SpaceBeforeCapitalsRoundTrip | src/components/mobile/MobileProfile.tsx:268 | Dropping each space before a capital gives back the key, so the only change is one inserted space per capital and every other character stays in order. |
| MobileProfile.NoCapitalsUnchanged | src/components/mobile/MobileProfile.tsx:268 | A key without capitals passes through the replace unchanged. |
| MobileProfile.Label | src/components/mobile/MobileProfile.tsx:268 | A label has no leading or trailing whitespace. |
| MobileProfile.LabelOfIdentifier | src/components/mobile/MobileProfile.tsx:268 | For a key without whitespace, the trim removes only the space before a leading capital, so no label starts with a space. |
| MobileProfile.LowercaseLabel | src/components/mobile/MobileProfile.tsx:268 | An all-lowercase key is its own label. |
| MobileProfile.SettingLabel | src/components/mobile/MobileProfile.tsx:258-268 | Each of the four setting names is shown as the name with a space before every capital and nothing trimmed, because the names are letters only and start in lower case. |
| MobileProfile.EchoNodeId | src/components/mobile/MobileProfile.tsx:104 | For a draw in 0..999, the id is exactly three digits that read back as the draw. |
| MobileProfile.Profile.constructor | src/components/mobile/MobileProfile.tsx:29-34 | The settings start all on. |
| MobileProfile.Profile.SetSetting | src/components/mobile/MobileProfile.tsx:277-281 | A switch sets its own key and leaves the other three as they were. |
| MobileHome.Refreshed | src/components/mobile/MobileHome.tsx:24-29 | After a refresh, activeNodes is in 200..249, globalSentience in 70..89, userSessions in 1000..1499 and ethicalScore in 90..99. |
| MobileHome.DrawsFor | src/components/mobile/MobileHome.tsx:24-29 | Every in-band reading is the result of some refresh. |
| MobileHome.RefreshedInjective | src/components/mobile/MobileHome.tsx:24-29 | Distinct draws give distinct readings. |
| MobileHome.InitialInBands | src/components/mobile/MobileHome.tsx:14-19 | The initial reading 247/73/1247/95 already lies in the bands. |
| MobileHome.Home.constructor | src/components/mobile/MobileHome.tsx:14-19 | The statistics start at 247/73/1247/95. |
| MobileHome.Home.Refresh | src/components/mobile/MobileHome.tsx:23-30 | A refresh replaces all four statistics with values built from the draws alone, without reading the previous ones. |

## Left out

- Timing: delays and interval periods are not modelled, only the order of events. Timer cancellation on unmount is not modelled either. In particular, a reply that fires after the chat screen has gone is not modelled.
- The loading screen's interval effect depends on `phase`, so it is torn down and set up again whenever the phase changes. This only shifts timing and is not modelled. The model also reads the current phase where the callback reads the phase captured by its render. The two agree once the effect has re-run.
- The 500 ms wait before the loading screen calls `onComplete` is not modelled. The model counts only that the call is scheduled.
- Floating point: `Math.random` becomes injected integer draws. The reply's processing time is an opaque `real` bounded as the source draws it. Its on-screen formatting is not modelled.
- Ids and timestamps use one clock reading per entry. The source reads the clock separately for the id and for the timestamp.
- The canned texts are spelled out but not reasoned about. Proofs about the literal strings are too costly for the verifier, so the transcript holds `Content` values instead of strings.
- Haptic feedback (`navigator.vibrate`), scrolling, refs, focus and `preventDefault` are left out.
- The send button's `disabled` attribute is left out. The button runs the same guarded handler, so a click it would block changes nothing in the model either. The input field's `disabled={isProcessing}` is modelled as a precondition of `SetInput` and `KeyPress`.
- Animation, styling and the stylesheet's `capitalize` on setting labels are left out.
- `isFirstLaunch` is modelled, but nothing reads it.
- The desktop chat's back buttons call callbacks of a parent that never mounts it, so they are not modelled.
- The loading phases' icons and texts are not modelled, and neither are the static metrics of the dashboards, the hero section and the build configuration.
