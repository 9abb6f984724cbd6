/**
 * The USB side shared by both drivers: kernel error numbers, how the interrupt
 * handler classifies the status of a completed URB, and the setup packet of a
 * control transfer.
 */
module Usb {
  import opened Input

  // Linux error numbers (asm-generic/errno-base.h and asm-generic/errno.h). Kernel
  // functions return them negated; only their distinctness matters to the model.
  const EPERM := 1
  const ENOENT := 2
  const EIO := 5
  const ENOMEM := 12
  const EPIPE := 32
  const ETIME := 62
  const ECONNRESET := 104
  const ESHUTDOWN := 108

  /** The URB statuses with which the handler returns at once: the URB is unlinked, shut down or timed out. */
  const TerminalStatuses: set<int> := {-ETIME, -ECONNRESET, -ENOENT, -ESHUTDOWN, -EPIPE}

  /** What the `switch (urb->status)` at the top of `guncon2_usb_irq` decides. */
  datatype StatusAction =
    | Decode     // status 0: look at the report, then resubmit
    | Abandon    // terminal status: return without resubmitting
    | Resubmit   // any other error: skip the report, resubmit

  function Classify(status: int): (a: StatusAction)
    ensures a == Decode <==> status == 0
    ensures a == Abandon <==> status in TerminalStatuses
  {
    if status == 0 then Decode
    else if status == -ETIME then Abandon
    else if status == -ECONNRESET || status == -ENOENT || status == -ESHUTDOWN || status == -EPIPE then Abandon
    else Resubmit
  }

  /** The observable result of one run of the interrupt handler. */
  datatype Completion = Completion(events: seq<Event>, resubmit: bool)

  /** The arguments of `usb_control_msg`: the setup packet, the data stage and the timeout. */
  datatype ControlRequest = ControlRequest(
    request: bv8,          // bRequest
    requestType: bv8,      // bmRequestType
    value: bv16,           // wValue
    index: bv16,           // wIndex
    data: seq<bv8>,        // data stage, its length is wLength
    timeoutMs: nat)

  // bmRequestType fields (section 9.3 of the USB 2.0 specification).
  predicate HostToDevice(requestType: bv8) { requestType & 0x80 == 0 }
  predicate ClassRequest(requestType: bv8) { (requestType >> 5) & 0x3 == 1 }
  predicate ToInterface(requestType: bv8) { requestType & 0x1F == 1 }

  // HID class requests (section 7.2 of the Device Class Definition for HID 1.11).
  const HidSetReport: bv8 := 0x09
  const HidOutputReport: bv16 := 0x02

  /** SET_REPORT carries the report type in the high byte of wValue and the report ID in the low byte. */
  function ReportType(value: bv16): bv16 { value >> 8 }
  function ReportId(value: bv16): bv16 { value & 0xFF }

  /** A class request to an interface, host to device, asking the device to set report `id` of type `kind`. */
  predicate IsHidSetReport(r: ControlRequest, kind: bv16, id: bv16)
  {
    && r.request == HidSetReport
    && HostToDevice(r.requestType) && ClassRequest(r.requestType) && ToInterface(r.requestType)
    && ReportType(r.value) == kind && ReportId(r.value) == id
  }
}
