/**
 The widget driven by a stream of events from its host page: notifications
 from other widgets, taps on the news, weather and calendar widgets, key
 presses, clicks on the close button or backdrop, and direct `openOverlay`
 calls. An event whose handler throws leaves the widget as it was.
 */
module EventLoop {
  import opened JsValues
  import opened TouchOverlay
  import opened NotificationLog

  datatype Event =
    | Notify(name: string, payload: Value)
    | NewsfeedTapped
    | WeatherTapped
    | CalendarTapped
    | KeyPressed(key: string)
    | CloseClicked
    | OpenCalled(contentType: Value, data: Value)

  /** The handler an event reaches. */
  function Step(m: Module, e: Event): (r: Result<Module>)
    ensures r.Success? ==> |r.value.sent| >= |m.sent| && r.value.sent[..|m.sent|] == m.sent
    ensures r.Failure? ==> e.Notify? || e.NewsfeedTapped? || e.CalendarTapped?
  {
    match e
    case Notify(name, payload) => NotificationReceived(m, name, payload)
    case NewsfeedTapped => NewsfeedTap(m)
    case WeatherTapped => Success(WeatherTap(m))
    case CalendarTapped => CalendarTap(m)
    case KeyPressed(key) => Success(KeyDown(m, key))
    case CloseClicked => Success(CloseOverlay(m))
    case OpenCalled(t, d) => Success(OpenOverlay(m, t, d))
  }

  /** The widget after one event; a thrown TypeError changes nothing. */
  function Next(m: Module, e: Event): Module {
    match Step(m, e)
    case Success(r) => r
    case Failure(_) => m
  }

  /** The widget after a whole stream of events. */
  function Run(m: Module, es: seq<Event>): Module
    decreases |es|
  {
    if es == [] then m else Run(Next(m, es[0]), es[1..])
  }

  /** What holds of every widget the host can produce from a fresh one: the
      notification log replays to exactly the current overlay, and the two
      list caches are never falsy, so their `length` can always be read. */
  predicate Inv(m: Module) {
    && Replay(m.sent) == Some(Phase(m.overlay, false))
    && Truthy(m.newsItems)
    && Truthy(m.calendarEvents)
  }

  lemma InitInv()
    ensures Inv(Init())
  {
  }

  /** Every handler keeps the invariant. */
  lemma StepInv(m: Module, e: Event)
    requires Inv(m)
    ensures Inv(Next(m, e))
  {
    match e
    case OpenCalled(t, d) =>
      OpenInv(m, t, d);
    case NewsfeedTapped =>
      OpenInv(m, Str("news"), NewsDetailData(m.newsItems));
    case CalendarTapped =>
      OpenInv(m, Str("calendar"), m.calendarEvents);
    case WeatherTapped =>
      OpenInv(m, Str("weather"), m.weatherData);
    case CloseClicked =>
      CloseInv(m);
    case KeyPressed(key) =>
      CloseInv(m);
    case Notify(name, payload) =>
      NotifyInv(m, name, payload);
  }

  /** `openOverlay` keeps the invariant. */
  lemma OpenInv(m: Module, t: Value, d: Value)
    requires Inv(m)
    ensures Inv(OpenOverlay(m, t, d))
  {
    if !m.overlay.isOpen {
      ReplaySnoc(m.sent, Notification(OpenName, OpenPayload(t, d)));
    }
  }

  /** Storing a feed keeps the invariant: `x || []` is never falsy. */
  lemma NotifyInv(m: Module, name: string, payload: Value)
    requires Inv(m)
    ensures NotificationReceived(m, name, payload).Success? ==> Inv(NotificationReceived(m, name, payload).value)
  {
  }

  /** `closeOverlay` keeps the invariant, with or without the RESUME. */
  lemma CloseInv(m: Module)
    requires Inv(m)
    ensures Inv(CloseOverlay(m))
  {
    if m.overlay.isOpen {
      var close := Notification(CloseName, EmptyPayload);
      ReplaySnoc(m.sent, close);
      if m.overlay.contentType == Photo {
        var resume := Notification(ResumeName, EmptyPayload);
        ReplaySnoc(m.sent + [close], resume);
        assert m.sent + [close] + [resume] == m.sent + [close, resume];
      }
    }
  }

  /** The invariant holds after any stream of events. */
  lemma {:induction false} RunInv(m: Module, es: seq<Event>)
    requires Inv(m)
    ensures Inv(Run(m, es))
    decreases |es|
  {
    if es != [] {
      StepInv(m, es[0]);
      RunInv(Next(m, es[0]), es[1..]);
    }
  }

  /** Every widget reachable from a fresh one satisfies the invariant. */
  lemma ReachableInv(es: seq<Event>)
    ensures Inv(Run(Init(), es))
  {
    InitInv();
    RunInv(Init(), es);
  }

  /** In a reachable widget the only event that throws is NEWS_FEED with a
      `null` or `undefined` payload; in particular no tap ever throws. */
  lemma OnlyNullNewsFeedThrows(m: Module, e: Event)
    requires Inv(m)
    ensures Step(m, e).Failure? <==> e.Notify? && e.name == NewsFeed && Nullish(e.payload)
  {
  }

  /** A closed reachable overlay holds no content type and no data. */
  lemma ClosedMeansEmpty(m: Module)
    requires Inv(m)
    ensures !m.overlay.isOpen ==> m.overlay.contentType == Null && m.overlay.data == Null
  {
  }

  /** In a reachable widget the sent OPENs and CLOSEs alternate: one more
      OPEN than CLOSE exactly while the overlay is open, and no more RESUMEs
      than CLOSEs. */
  lemma OpenCloseBalance(m: Module)
    requires Inv(m)
    ensures Count(m.sent, OpenName) == Count(m.sent, CloseName) + (if m.overlay.isOpen then 1 else 0)
    ensures Count(m.sent, ResumeName) <= Count(m.sent, CloseName)
  {
    ReplayCounts(m.sent);
  }

  /** Events only ever append to the log. */
  lemma {:induction false} RunExtendsLog(m: Module, es: seq<Event>)
    ensures |Run(m, es).sent| >= |m.sent|
    ensures Run(m, es).sent[..|m.sent|] == m.sent
    decreases |es|
  {
    if es != [] {
      var n := Next(m, es[0]);
      RunExtendsLog(n, es[1..]);
      assert Run(m, es).sent[..|n.sent|] == n.sent;
      assert n.sent[..|m.sent|] == m.sent;
    }
  }
}
