/** The target's side of the wire: the TAP controller of clause 6 of IEEE Std 1149.1-2013. */
module Tap {
  datatype Tap =
    | TestLogicReset | RunTestIdle
    | SelectScan(ir: bool) | Capture(ir: bool) | Shift(ir: bool) | Exit1(ir: bool)
    | Pause(ir: bool) | Exit2(ir: bool) | Update(ir: bool)

  function TapNext(t: Tap, tms: bool): Tap {
    match t
    case TestLogicReset => if tms then TestLogicReset else RunTestIdle
    case RunTestIdle => if tms then SelectScan(false) else RunTestIdle
    case SelectScan(ir) =>
      if !tms then Capture(ir) else if ir then TestLogicReset else SelectScan(true)
    case Capture(ir) => if tms then Exit1(ir) else Shift(ir)
    case Shift(ir) => if tms then Exit1(ir) else Shift(ir)
    case Exit1(ir) => if tms then Update(ir) else Pause(ir)
    case Pause(ir) => if tms then Exit2(ir) else Pause(ir)
    case Exit2(ir) => if tms then Update(ir) else Shift(ir)
    case Update(_) => if tms then SelectScan(false) else RunTestIdle
  }

  /** What the selected register sees: a capture or one shifted bit on a rising edge of TCK, an update on
      the falling edge that follows entry to Update-xR. */
  datatype Event = Captured(ir: bool) | Shifted(ir: bool, bit: bool) | Updated(ir: bool)

  function Events(t: Tap, tms: bool, tdi: bool): seq<Event> {
    (match t
     case Capture(ir) => [Captured(ir)]
     case Shift(ir) => [Shifted(ir, tdi)]
     case _ => [])
    + (match TapNext(t, tms) case Update(ir) => [Updated(ir)] case _ => [])
  }
}
