# TouchOverlay overlay state machine, in Dafny

A model of the MagicMirror widget `MMM-TouchOverlay`: a full-screen overlay
that opens on a tap on the news, weather or calendar widget, closes on the
close button, the backdrop or the Escape key, and announces both over the
host's notification bus (TOUCH_OVERLAY_OPEN, TOUCH_OVERLAY_CLOSE, and
SLIDESHOW_RESUME after a photo was shown).

The widget is modelled as an immutable record (`TouchOverlay.Module`). It
holds the `overlayState` {isOpen, contentType, data}, the three cached feeds
`newsItems`, `calendarEvents` and `weatherData`, and the log of
notifications sent so far. Each handler is a pure function from one record
to the next, and `sendNotification` appends to the log. JavaScript values
are a small datatype (`JsValues.Value`). It gives JavaScript's truthiness,
`||`, property access and the `length > 0` test. Reading `payload.items` of
a `null` or `undefined` payload throws a TypeError. The model returns that
as a `Failure`, and the event loop leaves the widget unchanged when it
happens.

Files:

- `js_values.dfy`: JavaScript values, truthiness, `||`, property access, `length > 0`.
- `touch_overlay.dfy`: the state, `openOverlay`, `closeOverlay`, `notificationReceived`, the three tap handlers, the Escape listener and the `renderContent` dispatch.
- `overlay_properties.dfy`: idempotence, round-trip and dispatch lemmas over those transitions.
- `notification_log.dfy`: an independent reader of the outgoing log. It replays OPEN/CLOSE/RESUME to rebuild the overlay state and rejects impossible orders.
- `event_loop.dfy`: the widget under a stream of host events, and the invariant every reachable widget satisfies.

The central invariant (`EventLoop.Inv`) has two parts. Replaying the sent
notifications yields exactly the current overlay state, and the two list
caches are never falsy. `EventLoop.ReachableInv` proves that the invariant
holds for the initial widget and after any stream of events. Two things
follow. The only event that can throw is a
NEWS_FEED with a nullish payload. OPEN and CLOSE alternate in the log.

## Model

| member | source | states |
|---|---|---|
| TouchOverlay.Init | modules/MMM-TouchOverlay/MMM-TouchOverlay.js:13-22 | A fresh widget is closed with null content type and data, both list caches are `[]`, the weather cache is `null`, and nothing has been sent. |
| TouchOverlay.OpenOverlay | modules/MMM-TouchOverlay/MMM-TouchOverlay.js:136-148 | On an open overlay it changes nothing and sends nothing. On a closed one the overlay becomes open with the given type and data, and exactly one TOUCH_OVERLAY_OPEN with payload `{type, data}` is appended. The feeds are untouched. |
| TouchOverlay.CloseOverlay | modules/MMM-TouchOverlay/MMM-TouchOverlay.js:150-168 | On a closed overlay it changes nothing and sends nothing. On an open one the overlay resets to closed/null/null and TOUCH_OVERLAY_CLOSE `{}` is appended first. SLIDESHOW_RESUME `{}` follows it if and only if the previous content type was "photo". |
| TouchOverlay.NotificationReceived | modules/MMM-TouchOverlay/MMM-TouchOverlay.js:88-104 | Throws exactly for NEWS_FEED with a null or undefined payload. It never touches the overlay or the log. NEWS_FEED sets only `newsItems`, to a truthy `payload.items` or else `[]`. CALENDAR_EVENTS sets only `calendarEvents`, to a truthy payload or else `[]`. WEATHER_UPDATED sets only `weatherData`, to the payload. Every other name changes nothing. |
| TouchOverlay.NewsfeedTap | modules/MMM-TouchOverlay/MMM-TouchOverlay.js:217-221 | Throws exactly when `newsItems` is nullish. On an open overlay, or with an empty array, the widget is unchanged. For an array on a closed overlay, it opens exactly when the array is non-empty. A tap that changes anything shows type "news" with data `{items: newsItems, currentIndex: 0}` and appends exactly one TOUCH_OVERLAY_OPEN with that type and data. |
| TouchOverlay.WeatherTap | modules/MMM-TouchOverlay/MMM-TouchOverlay.js:223-227 | On an open overlay, or with falsy `weatherData`, the widget is unchanged. On a closed overlay with truthy data it opens with type "weather" and the cached data unchanged, and appends exactly one TOUCH_OVERLAY_OPEN with that type and data. |
| TouchOverlay.CalendarTap | modules/MMM-TouchOverlay/MMM-TouchOverlay.js:229-233 | Throws exactly when `calendarEvents` is nullish. On an open overlay, or with an empty array, the widget is unchanged. For an array on a closed overlay, it opens exactly when the array is non-empty. A tap that changes anything shows type "calendar" with the cached events unchanged and appends exactly one TOUCH_OVERLAY_OPEN with that type and data. |
| TouchOverlay.KeyDown | modules/MMM-TouchOverlay/MMM-TouchOverlay.js:128-134 | Any key but Escape, or Escape on a closed overlay, changes nothing. Escape behaves exactly as `closeOverlay`. |
| TouchOverlay.RenderContent | modules/MMM-TouchOverlay/MMM-TouchOverlay.js:195-214 | Without a body element nothing is rendered. Otherwise "news", "weather", "calendar" and "photo" each select their own view (in both directions), and every other content type, null included, selects the unknown-content view. |
| JsValues.Truthy | modules/MMM-TouchOverlay/MMM-TouchOverlay.js:224 | A value is truthy exactly when it is not one of JavaScript's falsy values `undefined`, `null`, `false`, `0` and `""`; every array and object, even an empty one, is truthy. |
| JsValues.Or | modules/MMM-TouchOverlay/MMM-TouchOverlay.js:95-98 | `a \|\| b` is `a` when `a` is truthy and `b` otherwise, so with a truthy right operand such as `[]` the result is never falsy. |
| JsValues.Get | modules/MMM-TouchOverlay/MMM-TouchOverlay.js:95 | Property access throws a TypeError exactly on null and undefined. An object yields its own property or undefined, and strings and arrays expose their length. |
| JsValues.HasElements | modules/MMM-TouchOverlay/MMM-TouchOverlay.js:218 | `x.length > 0` throws exactly on a nullish `x`. It is true for arrays and strings exactly when they are non-empty. |
| OverlayProperties.CloseIdempotent | modules/MMM-TouchOverlay/MMM-TouchOverlay.js:150-151 | Closing twice equals closing once. |
| OverlayProperties.OpenWhileOpenKeepsFirst | modules/MMM-TouchOverlay/MMM-TouchOverlay.js:136-137 | A second open, with any arguments, leaves the first open's result unchanged. |
| OverlayProperties.OpenCloseRoundTrip | modules/MMM-TouchOverlay/MMM-TouchOverlay.js:136-168 | Opening a closed overlay and closing it restores the overlay and the feeds. The log gains OPEN `{type, data}`, CLOSE `{}`, and RESUME `{}` only for a photo. |
| OverlayProperties.EscapeIsClose | modules/MMM-TouchOverlay/MMM-TouchOverlay.js:129-133 | The Escape listener behaves exactly like `closeOverlay`; its own `isOpen` test is redundant. |
| OverlayProperties.NotificationIdempotent | modules/MMM-TouchOverlay/MMM-TouchOverlay.js:88-104 | Delivering the same notification twice leaves the widget as one delivery does. |
| OverlayProperties.NewsfeedTapIdempotent | modules/MMM-TouchOverlay/MMM-TouchOverlay.js:217-221 | A second news tap after the first changes nothing further. |
| OverlayProperties.WeatherTapIdempotent | modules/MMM-TouchOverlay/MMM-TouchOverlay.js:223-227 | A second weather tap after the first changes nothing further. |
| OverlayProperties.CalendarTapIdempotent | modules/MMM-TouchOverlay/MMM-TouchOverlay.js:229-233 | A second calendar tap after the first changes nothing further. |
| OverlayProperties.TapRendersMatchingView | modules/MMM-TouchOverlay/MMM-TouchOverlay.js:198-233 | A tap that opens the overlay makes `renderContent` select the news, weather or calendar view respectively. |
| NotificationLog.Replay | modules/MMM-TouchOverlay/MMM-TouchOverlay.js:136-168 | Replaying the outgoing log never yields a closed overlay with content. A pending RESUME only follows a CLOSE, and only while closed. |
| NotificationLog.ReplayCounts | modules/MMM-TouchOverlay/MMM-TouchOverlay.js:147-166 | In a replayable log, OPENs equal CLOSEs plus one exactly while open, and RESUMEs never outnumber CLOSEs. |
| NotificationLog.ReplayPrefix | modules/MMM-TouchOverlay/MMM-TouchOverlay.js:137-151 | Every prefix of a replayable log replays, so the alternation holds throughout the history. |
| EventLoop.Step | modules/MMM-TouchOverlay/MMM-TouchOverlay.js:106-134 | Dispatching an event to its handler only appends to the log. Only notifications and the news and calendar taps can throw. |
| EventLoop.InitInv | modules/MMM-TouchOverlay/MMM-TouchOverlay.js:13-22 | The fresh widget satisfies the invariant. |
| EventLoop.StepInv | modules/MMM-TouchOverlay/MMM-TouchOverlay.js:88-233 | Every handler preserves the invariant: the log replays to the current overlay, and the list caches stay truthy. |
| EventLoop.OpenInv | modules/MMM-TouchOverlay/MMM-TouchOverlay.js:136-148 | `openOverlay` preserves the invariant. |
| EventLoop.CloseInv | modules/MMM-TouchOverlay/MMM-TouchOverlay.js:150-168 | `closeOverlay` preserves the invariant, whether or not it sends RESUME. |
| EventLoop.NotifyInv | modules/MMM-TouchOverlay/MMM-TouchOverlay.js:94-99 | Storing a feed keeps both list caches truthy, because `x \|\| []` is never falsy. |
| EventLoop.RunInv | modules/MMM-TouchOverlay/MMM-TouchOverlay.js:88-233 | The invariant survives any stream of events. |
| EventLoop.ReachableInv | modules/MMM-TouchOverlay/MMM-TouchOverlay.js:13-22 | Every widget reachable from a fresh one satisfies the invariant. |
| EventLoop.OnlyNullNewsFeedThrows | modules/MMM-TouchOverlay/MMM-TouchOverlay.js:94-96 | In a reachable widget, an event throws if and only if it is NEWS_FEED with a null or undefined payload. No tap ever throws. |
| EventLoop.ClosedMeansEmpty | modules/MMM-TouchOverlay/MMM-TouchOverlay.js:155-159 | A closed reachable overlay has null content type and null data. |
| EventLoop.OpenCloseBalance | modules/MMM-TouchOverlay/MMM-TouchOverlay.js:147-166 | A reachable widget has sent one more OPEN than CLOSE exactly while open, and no more RESUMEs than CLOSEs. |
| EventLoop.RunExtendsLog | modules/MMM-TouchOverlay/MMM-TouchOverlay.js:147-166 | A stream of events only appends to the notification log. |

## Left out

- `getDom`, `showOverlay`, `hideOverlay` and the four placeholder render bodies: DOM construction, CSS classes, `requestAnimationFrame` and the `setTimeout` animation delay are presentation. `RenderContent` returns which view would be rendered instead of HTML.
- `attachTouchHandlers` and `attachKeyboardHandler`: the listener wiring depends on which page elements `document.querySelector` finds. Events are delivered to the handlers directly (`EventLoop.Event`). A listener attached twice amounts to a handler applied twice, which the idempotence lemmas cover.
- `toggleUI`: the toggle button calls a method that is not part of this model, and it is not defined in the widget's source file.
- `Module.register`, `start`, `getStyles`, `Log` and `sendNotification` are host-framework globals. `sendNotification` is an append to `Module.sent`.
- Numbers are integers. NaN, `-0` and fractional values are not modelled; `backdropOpacity` and the pixel sizes are presentation only.
- JsValues.IsPositive: `length > 0` holds for a number or boolean `length`; a `length` that is a string, array or object is treated as not positive, whereas JavaScript would convert it to a number first. Only a feed object that carries its own `length` property can reach this case.
- JsValues.Get: a string's `length` is its count of Unicode scalar values, whereas JavaScript counts UTF-16 code units, so "😀" has length 1 here and 2 in JavaScript. The widget only tests `length > 0`, where the two agree.
- JsValues.Get: arrays and strings expose only `length`. Index properties and named own properties on arrays are not modelled, so for example `"ab"[0]` is `undefined` here but `"a"` in JavaScript. Objects are compared structurally rather than by reference.
- TouchOverlay.NewsfeedTap and TouchOverlay.CalendarTap: the open-exactly-when-non-empty clause is stated for array caches only. A string or an object with its own `length` follows `JsValues.HasElements` and is not restated per handler.
- EventLoop.Run: when a handler throws, the widget is left unchanged and the stream continues. What the host does with the exception is outside this file.
- The date grouping, event formatting, weather icons, URL parsing, news navigation, inactivity timer, slideshow pause and UI-state persistence that the test files exercise do not appear in the widget's source file, so they are not part of this model.
