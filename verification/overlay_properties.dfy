/**
 Properties that relate several calls of the widget's handlers: idempotence
 of close and of the tap handlers, the open/close round trip, the
 redundancy of the Escape guard, and which view a tap ends up rendering.
 */
module OverlayProperties {
  import opened JsValues
  import opened TouchOverlay

  /** Closing twice is the same as closing once. */
  lemma CloseIdempotent(m: Module)
    ensures CloseOverlay(CloseOverlay(m)) == CloseOverlay(m)
  {
  }

  /** Once open, a second `openOverlay` with any arguments changes nothing:
      the first content stays and no second OPEN is sent. */
  lemma OpenWhileOpenKeepsFirst(m: Module, t: Value, d: Value, t2: Value, d2: Value)
    ensures OpenOverlay(OpenOverlay(m, t, d), t2, d2) == OpenOverlay(m, t, d)
  {
  }

  /** Opening a closed overlay and closing it again restores the overlay and
      the feeds; the log gains OPEN, CLOSE and, for a photo only, RESUME. */
  lemma OpenCloseRoundTrip(m: Module, t: Value, d: Value)
    requires m.overlay == Closed
    ensures CloseOverlay(OpenOverlay(m, t, d)).overlay == m.overlay
    ensures SameFeeds(CloseOverlay(OpenOverlay(m, t, d)), m)
    ensures CloseOverlay(OpenOverlay(m, t, d)).sent ==
              m.sent + [Notification(OpenName, OpenPayload(t, d)), Notification(CloseName, EmptyPayload)]
              + (if t == Str("photo") then [Notification(ResumeName, EmptyPayload)] else [])
  {
    var o := OpenOverlay(m, t, d);
    assert o.sent == m.sent + [Notification(OpenName, OpenPayload(t, d))];
    if t == Photo {
      assert CloseOverlay(o).sent == o.sent + [Notification(CloseName, EmptyPayload), Notification(ResumeName, EmptyPayload)];
    } else {
      assert CloseOverlay(o).sent == o.sent + [Notification(CloseName, EmptyPayload)];
    }
  }

  /** The `isOpen` test in the Escape listener is redundant: Escape behaves
      exactly like `closeOverlay`, which already ignores a closed overlay. */
  lemma EscapeIsClose(m: Module)
    ensures KeyDown(m, "Escape") == CloseOverlay(m)
  {
  }

  /** A repeated NEWS_FEED, CALENDAR_EVENTS or WEATHER_UPDATED leaves the
      widget as the first delivery did. */
  lemma NotificationIdempotent(m: Module, name: string, payload: Value)
    requires NotificationReceived(m, name, payload).Success?
    ensures NotificationReceived(NotificationReceived(m, name, payload).value, name, payload)
            == NotificationReceived(m, name, payload)
  {
  }

  /** Tapping the news feed twice (a second listener, say) is the same as
      tapping once. */
  lemma NewsfeedTapIdempotent(m: Module)
    requires NewsfeedTap(m).Success?
    ensures NewsfeedTap(NewsfeedTap(m).value) == NewsfeedTap(m)
  {
  }

  /** Tapping the calendar twice is the same as tapping once. */
  lemma CalendarTapIdempotent(m: Module)
    requires CalendarTap(m).Success?
    ensures CalendarTap(CalendarTap(m).value) == CalendarTap(m)
  {
  }

  /** Tapping the weather twice is the same as tapping once. */
  lemma WeatherTapIdempotent(m: Module)
    ensures WeatherTap(WeatherTap(m)) == WeatherTap(m)
  {
  }

  /** A tap that opens the overlay renders the matching detail view. */
  lemma TapRendersMatchingView(m: Module)
    requires !m.overlay.isOpen
    ensures NewsfeedTap(m).Success? && NewsfeedTap(m).value.overlay.isOpen ==>
              RenderContent(true, NewsfeedTap(m).value.overlay.contentType) == Some(NewsDetail)
    ensures WeatherTap(m).overlay.isOpen ==>
              RenderContent(true, WeatherTap(m).overlay.contentType) == Some(WeatherDetail)
    ensures CalendarTap(m).Success? && CalendarTap(m).value.overlay.isOpen ==>
              RenderContent(true, CalendarTap(m).value.overlay.contentType) == Some(CalendarDetail)
  {
  }
}
