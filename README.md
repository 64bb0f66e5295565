# Deep-link bridge of the calc app's Android host activity

The Android host activity `MainActivity` of the calc Flutter app holds one
nullable field, `initialRoute`. Its two lifecycle entry points,
`configureFlutterEngine` and `onNewIntent`, both pass the current intent to
`handleIntent`. That function stores the data URI's string form, but only when
the URI is present and its scheme is exactly `calc`. The deep-link method
channel's handler answers `getInitialRoute` with the pending route and then
clears it. It answers any other method name with `notImplemented`.

The project has three files:

- `wrappers.dfy`: `Option`, which stands for Kotlin's nullable types.
- `deeplink.dfy` (module `DeepLink`): the pure model.
  - `Uri` keeps a URI's scheme and its string form. `Intent` keeps an intent's data URI.
  - `Response` is either `result.success(value)` or `result.notImplemented()`.
  - `Event` is one of the three things that can happen to the activity.
  - `Step` runs one event. `Run` runs a sequence of events.
  - `Pending` is a separate reference description of the pending route. It scans back to the latest event that set or cleared the route.
  - Lemmas about traces: the pending route, each reply, last write wins, get-and-clear, and that each link is delivered at most once.
- `main_activity.dfy` (module `MainActivity`): the class `DeepLinkBridge`.
  - Its field `initialRoute` is updated in place.
  - The constructor is proved to start with no pending route. `HandleIntent` is proved against the function `DeepLink.HandleIntentRoute`. The other three methods are proved against `DeepLink.Step`.
  - `BridgeClient` shows what a caller can prove from those contracts alone.

## Model

| member | source | states |
|---|---|---|
| MainActivity.DeepLinkBridge.constructor | android/app/src/main/kotlin/com/akidesoft/calc/MainActivity.kt:11 | the pending route starts out absent |
| MainActivity.DeepLinkBridge.HandleIntent | android/app/src/main/kotlin/com/akidesoft/calc/MainActivity.kt:36-41 | a present URI with scheme `calc` makes the field its string form; otherwise the field keeps its old value; the new field equals `DeepLink.HandleIntentRoute` of the old one |
| MainActivity.DeepLinkBridge.ConfigureFlutterEngine | android/app/src/main/kotlin/com/akidesoft/calc/MainActivity.kt:13-17 | the new field is what a `Configure` step of the old field gives; no reply is produced |
| MainActivity.DeepLinkBridge.OnNewIntent | android/app/src/main/kotlin/com/akidesoft/calc/MainActivity.kt:30-34 | the new field is what a `NewIntent` step of the old field gives; no reply is produced |
| MainActivity.DeepLinkBridge.OnMethodCall | android/app/src/main/kotlin/com/akidesoft/calc/MainActivity.kt:19-27 | `getInitialRoute` returns `Success` of the old field and leaves the field absent; any other name returns `NotImplemented` and leaves the field unchanged |
| DeepLink.HandleIntentRule | android/app/src/main/kotlin/com/akidesoft/calc/MainActivity.kt:36-41 | the route is stored exactly when the intent, its data and the scheme `calc` are all present; if the intent is null, the data is null or the scheme differs, the route is unchanged |
| DeepLink.SchemeIsExact | android/app/src/main/kotlin/com/akidesoft/calc/MainActivity.kt:38 | a scheme is accepted exactly when it equals `calc`; `CALC` is ignored (no case folding) |
| DeepLink.EntryPointsAgree | android/app/src/main/kotlin/com/akidesoft/calc/MainActivity.kt:13-34 | configuring with an intent and receiving it as a new intent have the same effect, both being `handleIntent` |
| DeepLink.HandleCallRule | android/app/src/main/kotlin/com/akidesoft/calc/MainActivity.kt:20-26 | `getInitialRoute` replies with the pending route and clears it; any other name replies not-implemented and keeps the route |
| DeepLink.DataOf | android/app/src/main/kotlin/com/akidesoft/calc/MainActivity.kt:37 | definition of `intent?.data`: absent when the intent is absent; its properties are the lemmas HandleIntentRule and SchemeIsExact |
| DeepLink.IsDeepLink | android/app/src/main/kotlin/com/akidesoft/calc/MainActivity.kt:38 | definition of the test `uri != null && uri.scheme == "calc"`; its properties are the lemmas HandleIntentRule and SchemeIsExact |
| DeepLink.HandleIntentRoute | android/app/src/main/kotlin/com/akidesoft/calc/MainActivity.kt:36-41 | definition of `handleIntent`'s effect on the pending route; its properties are the lemmas HandleIntentRule, SchemeIsExact and EntryPointsAgree |
| DeepLink.HandleCall | android/app/src/main/kotlin/com/akidesoft/calc/MainActivity.kt:19-27 | definition of the method-call handler's reply and new route; its properties are the lemmas HandleCallRule and RepliesOfTrace |
| DeepLink.Step | android/app/src/main/kotlin/com/akidesoft/calc/MainActivity.kt:13-41 | definition of one event: both lifecycle entry points through `handleIntent`, and channel calls through the handler; its properties are the lemmas EntryPointsAgree, HandleCallRule and ReplyAt |
| DeepLink.Pending | android/app/src/main/kotlin/com/akidesoft/calc/MainActivity.kt:11-41 | the independent reference for the pending route, scanning back from the last event; RunIsPending proves that `Run` agrees with it |
| DeepLink.Run | android/app/src/main/kotlin/com/akidesoft/calc/MainActivity.kt:11-41 | running a sequence of events gives exactly one reply slot per event |
| DeepLink.RunIsPending | android/app/src/main/kotlin/com/akidesoft/calc/MainActivity.kt:11-41 | after any event sequence, the field equals the reference `Pending`: the latest captured link, unless a `getInitialRoute` came after it; otherwise the initial value |
| DeepLink.ReplyAt | android/app/src/main/kotlin/com/akidesoft/calc/MainActivity.kt:19-27 | the reply to the k-th event is that event's reply in the state the first k events leave |
| DeepLink.RepliesOfTrace | android/app/src/main/kotlin/com/akidesoft/calc/MainActivity.kt:20-25 | in any trace, each `getInitialRoute` returns the route pending just before it; other calls return not-implemented; intents get no reply |
| DeepLink.ClearedUntilNextCapture | android/app/src/main/kotlin/com/akidesoft/calc/MainActivity.kt:22-23 | after a `getInitialRoute` call, nothing is pending until a link is captured again |
| DeepLink.SecondCallReturnsNone | android/app/src/main/kotlin/com/akidesoft/calc/MainActivity.kt:20-23 | of two `getInitialRoute` calls with no captured link between them, the second returns `Success(None)` |
| DeepLink.LatestCaptureIsPending | android/app/src/main/kotlin/com/akidesoft/calc/MainActivity.kt:38-39 | after the latest captured link, with no `getInitialRoute` since, the pending route is that link's string form |
| DeepLink.LastWriteWins | android/app/src/main/kotlin/com/akidesoft/calc/MainActivity.kt:39 | at the end of a run, the last captured link overwrites every earlier one; links are not queued |
| DeepLink.OtherEventsKeepRoute | android/app/src/main/kotlin/com/akidesoft/calc/MainActivity.kt:24-40 | events that neither capture a link nor call `getInitialRoute` leave the pending route unchanged |
| DeepLink.DeliveredAtMostOnce | android/app/src/main/kotlin/com/akidesoft/calc/MainActivity.kt:20-23 | the number of routes delivered, plus the one still pending, never exceeds the number of links captured plus the one pending at the start |
| DeepLink.EachLinkDeliveredOnce | android/app/src/main/kotlin/com/akidesoft/calc/MainActivity.kt:20-23 | if two `getInitialRoute` replies both hand a route over, some link was captured between the two calls, so no link is delivered twice |
| DeepLink.SettingsLinkScenario | android/app/src/main/kotlin/com/akidesoft/calc/MainActivity.kt:20-39 | `calc://open/settings` is delivered by the first `getInitialRoute`; the second returns nothing |
| DeepLink.WebLinkScenario | android/app/src/main/kotlin/com/akidesoft/calc/MainActivity.kt:38 | an `https` link is not stored |
| DeepLink.OverwriteScenario | android/app/src/main/kotlin/com/akidesoft/calc/MainActivity.kt:39 | of `calc://a` then `calc://b`, only `calc://b` is delivered |
| DeepLink.UnknownMethodScenario | android/app/src/main/kotlin/com/akidesoft/calc/MainActivity.kt:24-25 | a call named `foo` is not implemented and keeps the pending route |

## Left out

- Parsing by `android.net.Uri` and its `toString()` are not modelled. A URI is given as its scheme and its string form, both taken as opaque.
- Any other content of `Intent` is not modelled; an intent is reduced to its data URI.
- The `FlutterActivity` base class and the calls to `super.configureFlutterEngine` and `super.onNewIntent` are left out. They are platform lifecycle plumbing.
- `setIntent` in `onNewIntent` is left out. It updates the framework's current intent, not the bridge's state, so `ConfigureFlutterEngine` takes the current intent as a parameter.
- The `MethodChannel` construction, the binary messenger and the channel name `com.akidesoft.calc/deeplink` are left out. They are transport; only the handler's decision is modelled.
- Sending the reply across the channel is left out. The handler's `result` object becomes the method's return value.
- The ordering that Android imposes on lifecycle callbacks is not modelled. So is the fact that calls can only arrive after the handler is registered. Traces allow events in any order.
- Threading is not modelled: everything runs synchronously on the main thread.
