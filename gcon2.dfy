/**
 * gcon2.c: the variant that registers two input devices per gun, an aim device
 * (absolute X/Y and three mouse buttons) and a joystick device (d-pad and buttons).
 * Each is backed by its own `struct guncon2` instance, modelled by `Device`; both
 * instances run the same interrupt handler, which reports the whole frame to its
 * own input device.
 */
module Gcon2 {
  import opened Input
  import opened Usb
  import opened Report
  import Session

  // The button masks GUNCON2_* of the 16-bit button word.
  const DpadLeftMask: bv16 := 1 << 15
  const DpadRightMask: bv16 := 1 << 13
  const DpadUpMask: bv16 := 1 << 12
  const DpadDownMask: bv16 := 1 << 14
  const TriggerMask: bv16 := 1 << 5
  const ButtonAMask: bv16 := 1 << 11
  const ButtonBMask: bv16 := 1 << 10
  const ButtonCMask: bv16 := 1 << 9
  const StartMask: bv16 := 1 << 7
  const SelectMask: bv16 := 1 << 6

  // Default calibration: used only as the declared ranges of the aim device's axes.
  const AbsXMin := 155
  const AbsXMax := 725
  const AbsYMin := 5
  const AbsYMax := 239

  /** What probe declares for the aim device. */
  const AimCapabilities := Capabilities(
    {BtnLeft, BtnRight, BtnMiddle},
    map[AbsX := Range(AbsXMin, AbsXMax), AbsY := Range(AbsYMin, AbsYMax)])

  /** What probe declares for the joystick device. */
  const JoyCapabilities := Capabilities(
    {BtnDpadUp, BtnDpadDown, BtnDpadLeft, BtnDpadRight, BtnA, BtnB, BtnC, BtnStart, BtnSelect},
    map[])

  /**
   * The mode command of open: SET_REPORT with bRequest 0x09, bmRequestType 0x21 and
   * wValue 0x200, payload six zeroed bytes with the last set to 1, timeout 100000.
   */
  const ModeCommand := ControlRequest(0x09, 0x21, 0x200, 0, [0, 0, 0, 0, 0, 1], 100000)

  /** The aim X coordinate, `(data[3] << 8) | data[2]` into an unsigned short. */
  function AimX(data: seq<bv8>): (x: int)
    requires |data| >= 4
    ensures x == data[2] as int + 256 * data[3] as int
    ensures 0 <= x < 0x1_0000
  {
    (((data[3] as bv16) << 8) | data[2] as bv16) as int
  }

  /** `((data[0] << 8) | data[1]) ^ 0xffff`: the button word, inverted so that a held button reads 1. */
  function Buttons(data: seq<bv8>): bv16
    requires |data| >= 2
  {
    (((data[0] as bv16) << 8) | data[1] as bv16) ^ 0xFFFF
  }

  /** Testing a mask against the inverted word is testing the hardware bit for 0. */
  lemma MaskedButtonIsHeld(data: seq<bv8>)
    requires |data| >= 2
    ensures (Buttons(data) & DpadUpMask != 0) == Held(data, DpadUpBit)
    ensures (Buttons(data) & DpadDownMask != 0) == Held(data, DpadDownBit)
    ensures (Buttons(data) & DpadLeftMask != 0) == Held(data, DpadLeftBit)
    ensures (Buttons(data) & DpadRightMask != 0) == Held(data, DpadRightBit)
    ensures (Buttons(data) & ButtonAMask != 0) == Held(data, ButtonABit)
    ensures (Buttons(data) & ButtonBMask != 0) == Held(data, ButtonBBit)
    ensures (Buttons(data) & ButtonCMask != 0) == Held(data, ButtonCBit)
    ensures (Buttons(data) & StartMask != 0) == Held(data, StartBit)
    ensures (Buttons(data) & SelectMask != 0) == Held(data, SelectBit)
    ensures (Buttons(data) & TriggerMask != 0) == Held(data, TriggerBit)
  {
  }

  /** The events of one decoded report, in the order the handler reports them. */
  function Frame(data: seq<bv8>): (events: seq<Event>)
    requires |data| >= ReportLength
    ensures |events| == 15
    ensures events[0] == AbsEvent(AbsX, data[2] as int + 256 * data[3] as int)
    ensures events[1] == AbsEvent(AbsY, data[4] as int)
    ensures events[2] == KeyEvent(BtnDpadUp, Held(data, DpadUpBit))
    ensures events[3] == KeyEvent(BtnDpadDown, Held(data, DpadDownBit))
    ensures events[4] == KeyEvent(BtnDpadLeft, Held(data, DpadLeftBit))
    ensures events[5] == KeyEvent(BtnDpadRight, Held(data, DpadRightBit))
    ensures events[6] == KeyEvent(BtnA, Held(data, ButtonABit))
    ensures events[7] == KeyEvent(BtnB, Held(data, ButtonBBit))
    ensures events[8] == KeyEvent(BtnC, Held(data, ButtonCBit))
    ensures events[9] == KeyEvent(BtnStart, Held(data, StartBit))
    ensures events[10] == KeyEvent(BtnSelect, Held(data, SelectBit))
    ensures events[11] == KeyEvent(BtnLeft, Held(data, TriggerBit))
    ensures events[12] == KeyEvent(BtnRight, Held(data, ButtonABit))
    ensures events[13] == KeyEvent(BtnMiddle, Held(data, ButtonCBit))
    ensures events[14] == Sync
    ensures IsBatch(events)
  {
    MaskedButtonIsHeld(data);
    var buttons := Buttons(data);
    [ AbsEvent(AbsX, AimX(data)),
      AbsEvent(AbsY, data[4] as int),
      // joystick
      KeyEvent(BtnDpadUp, buttons & DpadUpMask != 0),
      KeyEvent(BtnDpadDown, buttons & DpadDownMask != 0),
      KeyEvent(BtnDpadLeft, buttons & DpadLeftMask != 0),
      KeyEvent(BtnDpadRight, buttons & DpadRightMask != 0),
      KeyEvent(BtnA, buttons & ButtonAMask != 0),
      KeyEvent(BtnB, buttons & ButtonBMask != 0),
      KeyEvent(BtnC, buttons & ButtonCMask != 0),
      KeyEvent(BtnStart, buttons & StartMask != 0),
      KeyEvent(BtnSelect, buttons & SelectMask != 0),
      // mouse
      KeyEvent(BtnLeft, buttons & TriggerMask != 0),
      KeyEvent(BtnRight, buttons & ButtonAMask != 0),
      KeyEvent(BtnMiddle, buttons & ButtonCMask != 0),
      Sync ]
  }

  /**
   * `guncon2_usb_irq`: the events reported and whether the URB is resubmitted, given the
   * URB status, the number of bytes received and the transfer buffer.
   */
  function UsbIrq(status: int, actualLength: nat, data: seq<bv8>): (r: Completion)
    requires actualLength <= |data|
    ensures r.resubmit <==> status !in TerminalStatuses
    ensures r.events != [] <==> status == 0 && actualLength == ReportLength
    ensures r.events != [] ==> r.events == Frame(data) && IsBatch(r.events)
  {
    match Classify(status)
    case Abandon => Completion([], false)
    case Resubmit => Completion([], true)
    case Decode =>
      if actualLength == ReportLength then Completion(Frame(data), true) else Completion([], true)
  }

  /**
   * The mouse buttons mirror gun buttons: left is the trigger, right is A, middle is C.
   * They depend on nothing else, so B (and every other button) never moves a mouse button.
   */
  lemma MouseButtonsMirrorGunButtons(data: seq<bv8>, other: seq<bv8>)
    requires |data| >= ReportLength && |other| >= ReportLength
    ensures Frame(data)[11] == KeyEvent(BtnLeft, Held(data, TriggerBit))
    ensures Frame(data)[12] == KeyEvent(BtnRight, Frame(data)[6].pressed)
    ensures Frame(data)[13] == KeyEvent(BtnMiddle, Frame(data)[8].pressed)
    ensures Held(data, TriggerBit) == Held(other, TriggerBit)
         && Held(data, ButtonABit) == Held(other, ButtonABit)
         && Held(data, ButtonCBit) == Held(other, ButtonCBit)
        ==> Frame(data)[11..14] == Frame(other)[11..14]
  {
  }

  /** Each event of a frame is meant for exactly one of the two devices; the aim position is not clamped to the declared range. */
  lemma FrameSplitsBetweenDevices(data: seq<bv8>)
    requires |data| >= ReportLength
    ensures forall i :: 0 <= i < |Frame(data)| - 1 ==>
      (Frame(data)[i].KeyEvent? ==> (Frame(data)[i].key in AimCapabilities.keys) != (Frame(data)[i].key in JoyCapabilities.keys))
      && (Frame(data)[i].AbsEvent? ==> Frame(data)[i].axis in AimCapabilities.axes && Frame(data)[i].axis !in JoyCapabilities.axes)
  {
  }

  /** A report of all-ones position bytes yields X = 65535, far above the declared maximum 725: the handler does not clamp. */
  lemma AimNotClampedToCalibration()
    ensures Frame([0xFF, 0xFF, 0xFF, 0xFF, 0xFF, 0]) [0] == AbsEvent(AbsX, 0xFFFF)
    ensures !Declares(AimCapabilities, AbsEvent(AbsX, 0xFFFF))
  {
  }

  /** The mode command is the HID SET_REPORT request for output report 0. */
  lemma ModeCommandIsSetOutputReport()
    ensures IsHidSetReport(ModeCommand, HidOutputReport, 0)
    ensures ModeCommand.data == [0, 0, 0, 0, 0, 1]
  {
  }

  /** One `struct guncon2` of gcon2.c: the state its open, close and power hooks change. */
  class Device {
    var isOpen: bool
    var urbSubmitted: bool
    var mutexHeld: bool
    /** The events this instance has reported to its input device. */
    ghost var events: seq<Event>
    /** The control transfers this instance has sent to the gun. */
    ghost var controlRequests: seq<ControlRequest>

    function State(): Session.Instance
      reads this
    {
      Session.Instance(isOpen, urbSubmitted, mutexHeld)
    }

    ghost predicate Valid()
      reads this
    {
      Session.StreamOnlyWhenOpen(State())
    }

    /** The instance as probe leaves it. */
    constructor ()
      ensures Valid() && State() == Session.Probed
      ensures events == [] && controlRequests == []
    {
      isOpen, urbSubmitted, mutexHeld := false, false, false;
      events, controlRequests := [], [];
    }

    /** `guncon2_open`: send the mode command, then submit the URB. `allocOk` and `submitOk` are the results of `kzalloc` and `usb_submit_urb`. */
    method Open(allocOk: bool, submitOk: bool) returns (ret: int)
      requires Valid() && !mutexHeld
      modifies this
      ensures Valid()
      ensures Session.Step(State(), ret) == Session.OpenWithModeCommand(old(State()), allocOk, submitOk)
      ensures ret == (if !allocOk then -ENOMEM else if !submitOk then -EIO else 0)
      ensures ret == 0 ==> isOpen && urbSubmitted
      ensures ret != 0 ==> isOpen == old(isOpen)
      ensures mutexHeld <==> !allocOk
      ensures controlRequests == old(controlRequests) + (if allocOk then [ModeCommand] else [])
      ensures events == old(events)
    {
      mutexHeld := true;
      if !allocOk {
        ret := -ENOMEM;
        return;
      }
      // the result of usb_control_msg is ignored
      controlRequests := controlRequests + [ModeCommand];
      if !submitOk {
        ret := -EIO;
      } else {
        urbSubmitted := true;
        ret := 0;
        isOpen := true;
      }
      mutexHeld := false;
    }

    /** `guncon2_close`: kill the URB unconditionally and mark the device closed. */
    method Close()
      requires Valid() && !mutexHeld
      modifies this
      ensures Valid()
      ensures State() == Session.Close(old(State()))
      ensures !isOpen && !urbSubmitted && !mutexHeld
      ensures events == old(events) && controlRequests == old(controlRequests)
    {
      mutexHeld := true;
      urbSubmitted := false;
      isOpen := false;
      mutexHeld := false;
    }

    /** `guncon2_suspend`: kill the URB if the device is open; always succeeds. */
    method Suspend() returns (ret: int)
      requires Valid() && !mutexHeld
      modifies this
      ensures Valid()
      ensures Session.Step(State(), ret) == Session.Suspend(old(State()))
      ensures ret == 0 && isOpen == old(isOpen) && !mutexHeld
      ensures old(isOpen) ==> !urbSubmitted
      ensures !old(isOpen) ==> urbSubmitted == old(urbSubmitted)
      ensures events == old(events) && controlRequests == old(controlRequests)
    {
      mutexHeld := true;
      if isOpen {
        urbSubmitted := false;
      }
      mutexHeld := false;
      ret := 0;
    }

    /** `guncon2_resume`: resubmit the URB if the device is open; -EIO if that fails. */
    method Resume(submitOk: bool) returns (ret: int)
      requires Valid() && !mutexHeld
      modifies this
      ensures Valid()
      ensures Session.Step(State(), ret) == Session.Resume(old(State()), submitOk)
      ensures ret == (if isOpen && !submitOk then -EIO else 0)
      ensures isOpen == old(isOpen) && !mutexHeld
      ensures urbSubmitted == (old(urbSubmitted) || (isOpen && submitOk))
      ensures events == old(events) && controlRequests == old(controlRequests)
    {
      mutexHeld := true;
      ret := 0;
      if isOpen {
        if submitOk {
          urbSubmitted := true;
        } else {
          ret := -EIO;
        }
      }
      mutexHeld := false;
    }

    /** `guncon2_pre_reset`: take the lock, kill the URB and return still holding the lock. */
    method PreReset() returns (ret: int)
      requires Valid() && !mutexHeld
      modifies this
      ensures Valid()
      ensures Session.Step(State(), ret) == Session.PreReset(old(State()))
      ensures ret == 0 && mutexHeld && !urbSubmitted && isOpen == old(isOpen)
      ensures events == old(events) && controlRequests == old(controlRequests)
    {
      mutexHeld := true;
      urbSubmitted := false;
      ret := 0;
    }

    /** `guncon2_post_reset`: resubmit the URB if the device is open, then release the lock taken by pre_reset. */
    method PostReset(submitOk: bool) returns (ret: int)
      requires Valid() && mutexHeld
      modifies this
      ensures Valid()
      ensures Session.Step(State(), ret) == Session.PostReset(old(State()), submitOk)
      ensures ret == (if isOpen && !submitOk then -EIO else 0)
      ensures isOpen == old(isOpen) && !mutexHeld
      ensures urbSubmitted == (old(urbSubmitted) || (isOpen && submitOk))
      ensures events == old(events) && controlRequests == old(controlRequests)
    {
      ret := 0;
      if isOpen {
        if submitOk {
          urbSubmitted := true;
        } else {
          ret := -EIO;
        }
      }
      mutexHeld := false;
    }

    /** `guncon2_reset_resume`: the same as resume. */
    method ResetResume(submitOk: bool) returns (ret: int)
      requires Valid() && !mutexHeld
      modifies this
      ensures Valid()
      ensures Session.Step(State(), ret) == Session.Resume(old(State()), submitOk)
      ensures events == old(events) && controlRequests == old(controlRequests)
    {
      ret := Resume(submitOk);
    }

    /**
     * The URB completes with `status` and `actualLength` bytes in `data`: the handler reports
     * the frame to this instance's input device and resubmits; `submitOk` is the result of
     * that resubmission.
     */
    method Complete(status: int, actualLength: nat, data: seq<bv8>, submitOk: bool)
      requires Valid() && urbSubmitted && actualLength <= |data|
      modifies this
      ensures Valid()
      ensures State() == Session.Complete(old(State()), status, submitOk)
      ensures events == old(events) + UsbIrq(status, actualLength, data).events
      ensures urbSubmitted == (UsbIrq(status, actualLength, data).resubmit && submitOk)
      ensures controlRequests == old(controlRequests)
    {
      var outcome := UsbIrq(status, actualLength, data);
      events := events + outcome.events;
      urbSubmitted := outcome.resubmit && submitOk;
    }
  }
}
