/** The slider widget that reports grabs, releases and leaves of its handle
    (`ScaleSlider`). The handlers only decide which event to emit; the base
    slider always receives the touch afterwards. */
module Sliders {

  datatype Point = Point(x: real, y: real)

  /** A touch: its identity, position, and the clock readings of its start
      and end (`time_end` is -1 while the touch is still down). */
  datatype Touch = Touch(id: nat, pos: Point, timeStart: real, timeEnd: real)

  /** Geometry of the slider's handle (`self.children[0]`). */
  datatype Handle = Handle(centerX: real, centerY: real, width: real, height: real)

  /** The events a touch handler emits, in order. */
  datatype Call =
    | OnGrab(touch: Touch)
    | OnUngrab(touch: Touch)
    | OnLeave(touch: Touch)
    | BaseTouchDown(touch: Touch)
    | BaseTouchUp(touch: Touch)
    | BaseTouchMove(touch: Touch)

  const DefaultTolerance: real := 1.0

  function Abs(x: real): real { if x < 0.0 then -x else x }

  /** `is_touch_on_handle`: the touch lies in the handle's box scaled by
      `tolerance`, borders included. */
  predicate IsTouchOnHandle(h: Handle, p: Point, tolerance: real)
  {
    var rx := h.width * 0.5 * tolerance;
    var ry := h.height * 0.5 * tolerance;
    (h.centerX - rx) <= p.x <= (h.centerX + rx) && (h.centerY - ry) <= p.y <= h.centerY + ry
  }

  /** The hit test is a distance test on each axis. */
  lemma OnHandleIsDistance(h: Handle, p: Point, tolerance: real)
    ensures IsTouchOnHandle(h, p, tolerance) <==>
            Abs(p.x - h.centerX) <= 0.5 * h.width * tolerance
            && Abs(p.y - h.centerY) <= 0.5 * h.height * tolerance
  {
  }

  /** `on_touch_down`: a grab is reported only for a touch on the handle. */
  function OnTouchDown(h: Handle, t: Touch): (calls: seq<Call>)
    ensures |calls| >= 1 && calls[|calls| - 1] == BaseTouchDown(t)
    ensures OnGrab(t) in calls <==> IsTouchOnHandle(h, t.pos, DefaultTolerance)
    ensures forall c :: c in calls ==> c == OnGrab(t) || c == BaseTouchDown(t)
  {
    (if IsTouchOnHandle(h, t.pos, DefaultTolerance) then [OnGrab(t)] else []) + [BaseTouchDown(t)]
  }

  /** `on_touch_up`: a release is reported only for a touch on the handle. */
  function OnTouchUp(h: Handle, t: Touch): (calls: seq<Call>)
    ensures |calls| >= 1 && calls[|calls| - 1] == BaseTouchUp(t)
    ensures OnUngrab(t) in calls <==> IsTouchOnHandle(h, t.pos, DefaultTolerance)
    ensures forall c :: c in calls ==> c == OnUngrab(t) || c == BaseTouchUp(t)
  {
    (if IsTouchOnHandle(h, t.pos, DefaultTolerance) then [OnUngrab(t)] else []) + [BaseTouchUp(t)]
  }

  /** `on_touch_move`: a leave is reported when the touch is left or right of
      the handle's width; the vertical position plays no part. */
  function OnTouchMove(h: Handle, t: Touch): (calls: seq<Call>)
    ensures |calls| >= 1 && calls[|calls| - 1] == BaseTouchMove(t)
    ensures OnLeave(t) in calls <==> Abs(t.pos.x - h.centerX) > h.width * 0.5
    ensures forall c :: c in calls ==> c == OnLeave(t) || c == BaseTouchMove(t)
  {
    var rx := h.width * 0.5;
    (if !((h.centerX - rx) <= t.pos.x <= (h.centerX + rx)) then [OnLeave(t)] else []) + [BaseTouchMove(t)]
  }

  /** A touch that is on the handle is never reported as leaving it while it
      stays there. */
  lemma OnHandleDoesNotLeave(h: Handle, t: Touch)
    requires IsTouchOnHandle(h, t.pos, DefaultTolerance)
    ensures OnLeave(t) !in OnTouchMove(h, t)
  {
  }
}
