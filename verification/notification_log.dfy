/**
 An independent reading of the widget's outgoing notifications: replaying
 the log of TOUCH_OVERLAY_OPEN, TOUCH_OVERLAY_CLOSE and SLIDESHOW_RESUME
 rebuilds the overlay state, and rejects any log in which an OPEN arrives
 while open, a CLOSE while closed, or a RESUME anywhere but right after the
 CLOSE of a photo.
 */
module NotificationLog {
  import opened JsValues
  import opened TouchOverlay

  /** What a reader of the log knows: the overlay, and whether the CLOSE just
      read was of a photo, so that a RESUME must follow. */
  datatype Phase = Phase(overlay: OverlayState, resumeDue: bool)

  const Start := Phase(Closed, false)

  /** One notification read against the phase before it; `None` when the
      notification could not have been sent in that phase. */
  function Apply(p: Phase, n: Notification): Option<Phase> {
    if n.name == OpenName then
      if p.resumeDue || p.overlay.isOpen then None
      else if n.payload.Obj? && n.payload.props.Keys == {"type", "data"} then
        Some(Phase(OverlayState(true, n.payload.props["type"], n.payload.props["data"]), false))
      else None
    else if n.name == CloseName then
      if p.resumeDue || !p.overlay.isOpen || n.payload != EmptyPayload then None
      else Some(Phase(Closed, p.overlay.contentType == Photo))
    else if n.name == ResumeName then
      if p.resumeDue && n.payload == EmptyPayload then Some(Phase(p.overlay, false)) else None
    else None
  }

  /** The phase after reading the whole log from the start. */
  function Replay(log: seq<Notification>): (r: Option<Phase>)
    ensures r.Some? && !r.value.overlay.isOpen ==> r.value.overlay == Closed
    ensures r.Some? && r.value.resumeDue ==> r.value.overlay == Closed
    ensures r.Some? && r.value.resumeDue ==> |log| > 0 && log[|log| - 1].name == CloseName
  {
    if log == [] then Some(Start)
    else
      match Replay(log[..|log| - 1])
      case None => None
      case Some(p) => Apply(p, log[|log| - 1])
  }

  /** Replaying one more notification. */
  lemma ReplaySnoc(log: seq<Notification>, n: Notification)
    ensures Replay(log + [n]) == (if Replay(log).None? then None else Apply(Replay(log).value, n))
  {
    assert (log + [n])[..|log|] == log;
  }

  /** How many notifications of the log carry the given name. */
  function Count(log: seq<Notification>, name: string): (k: nat)
    ensures k <= |log|
  {
    if log == [] then 0
    else Count(log[..|log| - 1], name) + (if log[|log| - 1].name == name then 1 else 0)
  }

  /** A replayable log pairs every CLOSE with an earlier OPEN, has one more
      OPEN than CLOSE exactly while the overlay is open, and never holds
      more RESUMEs than CLOSEs. */
  lemma {:induction false} ReplayCounts(log: seq<Notification>)
    requires Replay(log).Some?
    ensures Count(log, OpenName) == Count(log, CloseName) + (if Replay(log).value.overlay.isOpen then 1 else 0)
    ensures Count(log, ResumeName) + (if Replay(log).value.resumeDue then 1 else 0) <= Count(log, CloseName)
  {
    if log != [] {
      var init := log[..|log| - 1];
      ReplayCounts(init);
    }
  }

  /** Every prefix of a replayable log replays too: the alternation of OPEN
      and CLOSE holds at every point of the history, not only at its end. */
  lemma {:induction false} ReplayPrefix(log: seq<Notification>, k: nat)
    requires k <= |log|
    requires Replay(log).Some?
    ensures Replay(log[..k]).Some?
  {
    if k < |log| {
      var init := log[..|log| - 1];
      assert init[..k] == log[..k];
      ReplayPrefix(init, k);
    } else {
      assert log[..k] == log;
    }
  }
}
