/**
 The TouchOverlay widget as a pure transition system: the overlay state, the
 three cached feeds, and the notifications the widget has sent so far.
 Every handler of the widget becomes a function from the module record to
 the next module record; `sendNotification` becomes an append to `sent`.
 */
module TouchOverlay {
  import opened JsValues

  const OpenName := "TOUCH_OVERLAY_OPEN"
  const CloseName := "TOUCH_OVERLAY_CLOSE"
  const ResumeName := "SLIDESHOW_RESUME"

  const NewsFeed := "NEWS_FEED"
  const CalendarEvents := "CALENDAR_EVENTS"
  const WeatherUpdated := "WEATHER_UPDATED"
  const DomCreated := "MODULE_DOM_CREATED"

  const Photo: Value := Str("photo")

  /** One call of `sendNotification(name, payload)`. */
  datatype Notification = Notification(name: string, payload: Value)

  /** `overlayState`: whether the overlay is shown, and what it shows. */
  datatype OverlayState = OverlayState(isOpen: bool, contentType: Value, data: Value)

  /** The state the overlay starts in and returns to on close. */
  const Closed := OverlayState(false, Null, Null)

  /** The widget: its overlay, the three cached feeds and the log of
      notifications it has sent. */
  datatype Module = Module(
    overlay: OverlayState,
    newsItems: Value,
    calendarEvents: Value,
    weatherData: Value,
    sent: seq<Notification>)

  /** The two widgets hold the same three cached feeds (overlay and log aside). */
  predicate SameFeeds(a: Module, b: Module) {
    a.newsItems == b.newsItems && a.calendarEvents == b.calendarEvents && a.weatherData == b.weatherData
  }

  /** What a freshly registered widget holds. */
  function Init(): (m: Module)
    ensures !m.overlay.isOpen && m.overlay.contentType == Null && m.overlay.data == Null
    ensures m.newsItems == EmptyArray && m.calendarEvents == EmptyArray
    ensures m.weatherData == Null
    ensures m.sent == []
  {
    Module(Closed, EmptyArray, EmptyArray, Null, [])
  }

  /** The payload of TOUCH_OVERLAY_OPEN: `{ type, data }`. */
  function OpenPayload(contentType: Value, data: Value): Value {
    Obj(map["type" := contentType, "data" := data])
  }

  /** The empty payload `{}` of TOUCH_OVERLAY_CLOSE and SLIDESHOW_RESUME. */
  const EmptyPayload: Value := Obj(map[])

  /** `openOverlay(contentType, data)`. */
  function OpenOverlay(m: Module, contentType: Value, data: Value): (r: Module)
    // already open: nothing changes and nothing is sent
    ensures m.overlay.isOpen ==> r == m
    // closed: the overlay shows the new content and exactly one OPEN goes out
    ensures !m.overlay.isOpen ==>
              && r.overlay.isOpen
              && r.overlay.contentType == contentType
              && r.overlay.data == data
              && r.sent == m.sent + [Notification(OpenName, OpenPayload(contentType, data))]
    ensures SameFeeds(r, m)
    ensures r.overlay.isOpen
  {
    if m.overlay.isOpen then m
    else m.(overlay := OverlayState(true, contentType, data),
            sent := m.sent + [Notification(OpenName, OpenPayload(contentType, data))])
  }

  /** `closeOverlay()`. */
  function CloseOverlay(m: Module): (r: Module)
    // already closed: nothing changes and nothing is sent
    ensures !m.overlay.isOpen ==> r == m
    // open: the overlay is reset and CLOSE goes out, then RESUME exactly when a photo was shown
    ensures m.overlay.isOpen ==>
              && r.overlay == Closed
              && r.sent == m.sent + [Notification(CloseName, EmptyPayload)]
                           + (if m.overlay.contentType == Photo then [Notification(ResumeName, EmptyPayload)] else [])
    ensures SameFeeds(r, m)
    ensures !r.overlay.isOpen
  {
    if !m.overlay.isOpen then m
    else
      var wasPhoto := m.overlay.contentType == Photo;
      var closed := m.sent + [Notification(CloseName, EmptyPayload)];
      m.(overlay := Closed,
         sent := if wasPhoto then closed + [Notification(ResumeName, EmptyPayload)] else closed)
  }

  /** `notificationReceived(notification, payload)`: updates the cache the
      notification names and nothing else; NEWS_FEED with a nullish payload
      throws when reading `payload.items`. */
  function NotificationReceived(m: Module, name: string, payload: Value): (r: Result<Module>)
    ensures r.Failure? <==> name == "NEWS_FEED" && (payload.Null? || payload.Undefined?)
    ensures r.Success? ==> r.value.overlay == m.overlay && r.value.sent == m.sent
    ensures name == "NEWS_FEED" && r.Success? ==>
              && r.value.calendarEvents == m.calendarEvents
              && r.value.weatherData == m.weatherData
              && (payload.Obj? && "items" in payload.props && Truthy(payload.props["items"])
                  ==> r.value.newsItems == payload.props["items"])
              && ((payload.Obj? && "items" in payload.props && Truthy(payload.props["items"]))
                  || r.value.newsItems == Arr([]))
    ensures name == "CALENDAR_EVENTS" ==>
              && r.Success?
              && r.value.newsItems == m.newsItems
              && r.value.weatherData == m.weatherData
              && r.value.calendarEvents == (if Truthy(payload) then payload else Arr([]))
    ensures name == "WEATHER_UPDATED" ==>
              && r.Success?
              && r.value.newsItems == m.newsItems
              && r.value.calendarEvents == m.calendarEvents
              && r.value.weatherData == payload
    ensures name !in {"NEWS_FEED", "CALENDAR_EVENTS", "WEATHER_UPDATED"} ==> r == Success(m)
  {
    if name == DomCreated then
      // the handlers are attached to the page here; that wiring is not state
      Success(m)
    else if name == NewsFeed then
      match Get(payload, "items")
      case Failure(e) => Failure(e)
      case Success(items) => Success(m.(newsItems := Or(items, EmptyArray)))
    else if name == CalendarEvents then
      Success(m.(calendarEvents := Or(payload, EmptyArray)))
    else if name == WeatherUpdated then
      Success(m.(weatherData := payload))
    else
      Success(m)
  }

  /** The `{ items, currentIndex: 0 }` object the news detail opens with. */
  function NewsDetailData(items: Value): Value {
    Obj(map["items" := items, "currentIndex" := Num(0)])
  }

  /** `handleNewsfeedTap`: opens the news view when there are news items. */
  function NewsfeedTap(m: Module): (r: Result<Module>)
    ensures r.Failure? <==> Nullish(m.newsItems)
    // an open overlay stays as it is
    ensures r.Success? && m.overlay.isOpen ==> r.value == m
    // a tap that changes anything opens the news view and sends exactly one OPEN
    ensures r.Success? && r.value != m ==>
              && r.value.overlay == OverlayState(true, Str("news"), NewsDetailData(m.newsItems))
              && r.value.sent == m.sent + [Notification(OpenName, OpenPayload(Str("news"), NewsDetailData(m.newsItems)))]
    ensures m.newsItems.Arr? ==>
              && r.Success?
              && (|m.newsItems.elems| == 0 ==> r.value == m)
              && (!m.overlay.isOpen ==> (r.value.overlay.isOpen <==> |m.newsItems.elems| > 0))
    ensures r.Success? ==> SameFeeds(r.value, m)
  {
    match HasElements(m.newsItems)
    case Failure(e) => Failure(e)
    case Success(nonEmpty) =>
      if nonEmpty then Success(OpenOverlay(m, Str("news"), NewsDetailData(m.newsItems)))
      else Success(m)
  }

  /** `handleWeatherTap`: opens the weather view when weather data is present. */
  function WeatherTap(m: Module): (r: Module)
    // an open overlay stays as it is, and so does a widget without weather data
    ensures m.overlay.isOpen || !Truthy(m.weatherData) ==> r == m
    // a closed overlay opens on the cached data, with exactly one OPEN sent
    ensures !m.overlay.isOpen && Truthy(m.weatherData) ==>
              && r.overlay == OverlayState(true, Str("weather"), m.weatherData)
              && r.sent == m.sent + [Notification(OpenName, OpenPayload(Str("weather"), m.weatherData))]
    ensures SameFeeds(r, m)
  {
    if Truthy(m.weatherData) then OpenOverlay(m, Str("weather"), m.weatherData) else m
  }

  /** `handleCalendarTap`: opens the calendar view when there are events. */
  function CalendarTap(m: Module): (r: Result<Module>)
    ensures r.Failure? <==> Nullish(m.calendarEvents)
    // an open overlay stays as it is
    ensures r.Success? && m.overlay.isOpen ==> r.value == m
    // a tap that changes anything opens the calendar view and sends exactly one OPEN
    ensures r.Success? && r.value != m ==>
              && r.value.overlay == OverlayState(true, Str("calendar"), m.calendarEvents)
              && r.value.sent == m.sent + [Notification(OpenName, OpenPayload(Str("calendar"), m.calendarEvents))]
    ensures m.calendarEvents.Arr? ==>
              && r.Success?
              && (|m.calendarEvents.elems| == 0 ==> r.value == m)
              && (!m.overlay.isOpen ==> (r.value.overlay.isOpen <==> |m.calendarEvents.elems| > 0))
    ensures r.Success? ==> SameFeeds(r.value, m)
  {
    match HasElements(m.calendarEvents)
    case Failure(e) => Failure(e)
    case Success(nonEmpty) =>
      if nonEmpty then Success(OpenOverlay(m, Str("calendar"), m.calendarEvents))
      else Success(m)
  }

  /** The keydown listener: Escape closes an open overlay; any other key, or
      Escape on a closed overlay, does nothing. */
  function KeyDown(m: Module, key: string): (r: Module)
    ensures key != "Escape" || !m.overlay.isOpen ==> r == m
    ensures key == "Escape" ==> r == CloseOverlay(m)
  {
    if key == "Escape" && m.overlay.isOpen then CloseOverlay(m) else m
  }

  /** The detail view `renderContent` fills the overlay body with. */
  datatype View = NewsDetail | WeatherDetail | CalendarDetail | PhotoViewer | UnknownContent

  /** `renderContent()`: nothing without a body element, otherwise the view
      the content type selects, with every unrecognised type (including
      `null`) falling to "Unknown content type". */
  function RenderContent(hasBody: bool, contentType: Value): (r: Option<View>)
    ensures r.None? <==> !hasBody
    ensures hasBody ==>
              && (r == Some(NewsDetail) <==> contentType == Str("news"))
              && (r == Some(WeatherDetail) <==> contentType == Str("weather"))
              && (r == Some(CalendarDetail) <==> contentType == Str("calendar"))
              && (r == Some(PhotoViewer) <==> contentType == Str("photo"))
              && (r == Some(UnknownContent) <==>
                    contentType !in {Str("news"), Str("weather"), Str("calendar"), Str("photo")})
  {
    if !hasBody then None
    else if contentType == Str("news") then Some(NewsDetail)
    else if contentType == Str("weather") then Some(WeatherDetail)
    else if contentType == Str("calendar") then Some(CalendarDetail)
    else if contentType == Photo then Some(PhotoViewer)
    else Some(UnknownContent)
  }
}
