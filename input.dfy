/**
 * The part of the Linux input subsystem's vocabulary that the GunCon 2 drivers use:
 * key and absolute-axis codes, the events a driver reports, and the capabilities
 * a driver declares for an input device before registering it.
 */
module Input {

  /** Key codes reported or declared by the two drivers (names of linux/input-event-codes.h). */
  datatype Key =
    | BtnLeft | BtnRight | BtnMiddle
    | BtnA | BtnB | BtnC
    | BtnTL | BtnTR
    | BtnStart | BtnSelect
    | BtnDpadUp | BtnDpadDown | BtnDpadLeft | BtnDpadRight

  /** Absolute axis codes reported or declared by the two drivers. */
  datatype Axis = AbsX | AbsY | AbsHat0X | AbsHat0Y

  /**
   * One call into the input core: `input_report_key` (which passes `!!value`, so the
   * driver's integer argument becomes pressed/released), `input_report_abs`, or
   * `input_sync`, which closes the batch of events that the consumer sees together.
   */
  datatype Event =
    | KeyEvent(key: Key, pressed: bool)
    | AbsEvent(axis: Axis, value: int)
    | Sync

  /** The declared range of an absolute axis (`input_set_abs_params` minimum and maximum). */
  datatype Range = Range(min: int, max: int)

  /** What a driver declares for one input device with `input_set_capability`. */
  datatype Capabilities = Capabilities(keys: set<Key>, axes: map<Axis, Range>)

  /** The device declares the event's code; an absolute value must also lie in the declared range. */
  predicate Declares(caps: Capabilities, e: Event)
  {
    match e
    case KeyEvent(k, _) => k in caps.keys
    case AbsEvent(a, v) => a in caps.axes && caps.axes[a].min <= v <= caps.axes[a].max
    case Sync => true
  }

  /** A batch as the consumer sees it: some reports, closed by exactly one sync, which is the last event. */
  predicate IsBatch(events: seq<Event>)
  {
    && |events| > 0
    && events[|events| - 1] == Sync
    && forall i :: 0 <= i < |events| - 1 ==> events[i] != Sync
  }

  /** `key` is reported somewhere in `events`. */
  predicate Reports(events: seq<Event>, key: Key)
  {
    exists i :: 0 <= i < |events| && events[i].KeyEvent? && events[i].key == key
  }
}
