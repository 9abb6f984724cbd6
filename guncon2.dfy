/**
 * guncon2.c: the variant that registers one joystick device per gun, reporting the
 * trigger, a d-pad hat and five buttons. It reads each button with a per-byte test,
 * `!(data[i] & BIT(k))`, where gcon2.c masks an inverted 16-bit word; the lemmas
 * below show that the two read the same bits.
 */
module Guncon2 {
  import opened Input
  import opened Usb
  import opened Report
  import Session
  import Gcon2

  /** What probe declares: BTN_TR (the off-screen reload trigger) is declared too, and the hat axes range over -1..1. */
  const Capabilities := Input.Capabilities(
    {BtnTL, BtnTR, BtnA, BtnB, BtnC, BtnStart, BtnSelect},
    map[AbsHat0X := Range(-1, 1), AbsHat0Y := Range(-1, 1)])

  /** `!(b & BIT(k))`: bit `k` of byte `b` is clear. */
  predicate BitClear(b: bv8, k: nat)
    requires k < 8
  {
    b & (1 << k) == 0
  }

  function Indicator(b: bool): int { if b then 1 else 0 }

  /**
   * One hat axis as the handler builds it in a `signed char` starting at 0: minus one when
   * the negative direction is held, plus one when the positive direction is held. Opposite
   * directions cancel, and the value always lies in the declared range -1..1, so the
   * `signed char` never overflows.
   */
  function Hat(negative: bool, positive: bool): (h: int)
    ensures h == Indicator(positive) - Indicator(negative)
    ensures -1 <= h <= 1
    ensures h == 0 <==> negative == positive
  {
    var h := 0;
    var h := if negative then h - 1 else h;
    if positive then h + 1 else h
  }

  /** The events of one decoded report, in the order the handler reports them. X and Y are computed by the handler but never reported. */
  function Frame(data: seq<bv8>): (events: seq<Event>)
    requires |data| >= ReportLength
    ensures |events| == 9
    ensures events[0] == KeyEvent(BtnTL, Held(data, TriggerBit))
    ensures events[1] == AbsEvent(AbsHat0X, Indicator(Held(data, DpadRightBit)) - Indicator(Held(data, DpadLeftBit)))
    ensures events[2] == AbsEvent(AbsHat0Y, Indicator(Held(data, DpadDownBit)) - Indicator(Held(data, DpadUpBit)))
    ensures events[3] == KeyEvent(BtnA, Held(data, ButtonABit))
    ensures events[4] == KeyEvent(BtnB, Held(data, ButtonBBit))
    ensures events[5] == KeyEvent(BtnC, Held(data, ButtonCBit))
    ensures events[6] == KeyEvent(BtnStart, Held(data, StartBit))
    ensures events[7] == KeyEvent(BtnSelect, Held(data, SelectBit))
    ensures IsBatch(events)
  {
    var trigger := BitClear(data[1], 5);
    var hatX := Hat(BitClear(data[0], 7), BitClear(data[0], 5));
    var hatY := Hat(BitClear(data[0], 4), BitClear(data[0], 6));
    [ KeyEvent(BtnTL, trigger),
      AbsEvent(AbsHat0X, hatX),
      AbsEvent(AbsHat0Y, hatY),
      KeyEvent(BtnA, BitClear(data[0], 3)),
      KeyEvent(BtnB, BitClear(data[0], 2)),
      KeyEvent(BtnC, BitClear(data[0], 1)),
      KeyEvent(BtnStart, BitClear(data[1], 7)),
      KeyEvent(BtnSelect, BitClear(data[1], 6)),
      Sync ]
  }

  /** Every event of a frame is declared by the device, within its declared range; BTN_TR, X and Y are not among them. */
  lemma FrameIsDeclared(data: seq<bv8>)
    requires |data| >= ReportLength
    ensures forall i :: 0 <= i < |Frame(data)| ==> Declares(Capabilities, Frame(data)[i])
    ensures !Reports(Frame(data), BtnTR)
    ensures forall i :: 0 <= i < |Frame(data)| && Frame(data)[i].AbsEvent? ==>
      Frame(data)[i].axis != AbsX && Frame(data)[i].axis != AbsY
  {
    var events := Frame(data);
    forall i | 0 <= i < |events|
      ensures Declares(Capabilities, events[i])
      ensures events[i].KeyEvent? ==> events[i].key != BtnTR
      ensures events[i].AbsEvent? ==> events[i].axis != AbsX && events[i].axis != AbsY
    {
      assert i in {0, 1, 2, 3, 4, 5, 6, 7, 8};
    }
  }

  /**
   * `guncon2_usb_irq`: the events reported and whether the URB is resubmitted. Every event
   * is one the device declares, within its declared range, and BTN_TR is never reported.
   */
  function UsbIrq(status: int, actualLength: nat, data: seq<bv8>): (r: Completion)
    requires actualLength <= |data|
    ensures r.resubmit <==> status !in TerminalStatuses
    ensures r.events != [] <==> status == 0 && actualLength == ReportLength
    ensures r.events != [] ==> r.events == Frame(data) && IsBatch(r.events)
    ensures forall i :: 0 <= i < |r.events| ==> Declares(Capabilities, r.events[i])
    ensures !Reports(r.events, BtnTR)
    ensures forall i :: 0 <= i < |r.events| && r.events[i].AbsEvent? ==>
      r.events[i].axis != AbsX && r.events[i].axis != AbsY
  {
    match Classify(status)
    case Abandon => Completion([], false)
    case Resubmit => Completion([], true)
    case Decode =>
      if actualLength == ReportLength then
        FrameIsDeclared(data);
        Completion(Frame(data), true)
      else Completion([], true)
  }

  /** Each per-byte test of this file is the mask test of gcon2.c on its inverted button word. */
  lemma ByteTestsMatchInvertedWord(data: seq<bv8>)
    requires |data| >= 2
    ensures BitClear(data[0], 7) == (Gcon2.Buttons(data) & Gcon2.DpadLeftMask != 0)
    ensures BitClear(data[0], 5) == (Gcon2.Buttons(data) & Gcon2.DpadRightMask != 0)
    ensures BitClear(data[0], 4) == (Gcon2.Buttons(data) & Gcon2.DpadUpMask != 0)
    ensures BitClear(data[0], 6) == (Gcon2.Buttons(data) & Gcon2.DpadDownMask != 0)
    ensures BitClear(data[0], 3) == (Gcon2.Buttons(data) & Gcon2.ButtonAMask != 0)
    ensures BitClear(data[0], 2) == (Gcon2.Buttons(data) & Gcon2.ButtonBMask != 0)
    ensures BitClear(data[0], 1) == (Gcon2.Buttons(data) & Gcon2.ButtonCMask != 0)
    ensures BitClear(data[1], 7) == (Gcon2.Buttons(data) & Gcon2.StartMask != 0)
    ensures BitClear(data[1], 6) == (Gcon2.Buttons(data) & Gcon2.SelectMask != 0)
    ensures BitClear(data[1], 5) == (Gcon2.Buttons(data) & Gcon2.TriggerMask != 0)
  {
  }

  /**
   * For the same report, the two drivers agree: this file's trigger is gcon2.c's left mouse
   * button, its hat is gcon2.c's d-pad keys folded into -1..1, and its A, B, C, START and
   * SELECT are gcon2.c's.
   */
  lemma FrameAgreesWithGcon2(data: seq<bv8>)
    requires |data| >= ReportLength
    ensures Frame(data)[0].pressed == Gcon2.Frame(data)[11].pressed
    ensures Frame(data)[1].value
         == Indicator(Gcon2.Frame(data)[5].pressed) - Indicator(Gcon2.Frame(data)[4].pressed)
    ensures Frame(data)[2].value
         == Indicator(Gcon2.Frame(data)[3].pressed) - Indicator(Gcon2.Frame(data)[2].pressed)
    ensures forall i :: 3 <= i < 8 ==> Frame(data)[i] == Gcon2.Frame(data)[i + 3]
  {
  }

  /** One `struct guncon2` of guncon2.c: the state its open, close and power hooks change. */
  class Device {
    var isOpen: bool
    var urbSubmitted: bool
    var mutexHeld: bool
    /** The events this instance has reported to its input device. */
    ghost var events: seq<Event>

    function State(): Session.Instance
      reads this
    {
      Session.Instance(isOpen, urbSubmitted, mutexHeld)
    }

    ghost predicate Valid()
      reads this
    {
      Session.StreamOnlyWhenOpen(State())
    }

    /** The instance as probe leaves it. */
    constructor ()
      ensures Valid() && State() == Session.Probed && events == []
    {
      isOpen, urbSubmitted, mutexHeld := false, false, false;
      events := [];
    }

    /** `guncon2_open`: submit the URB; no mode command is sent. `submitOk` is the result of `usb_submit_urb`. */
    method Open(submitOk: bool) returns (ret: int)
      requires Valid() && !mutexHeld
      modifies this
      ensures Valid()
      ensures Session.Step(State(), ret) == Session.Open(old(State()), submitOk)
      ensures ret == (if submitOk then 0 else -EIO)
      ensures ret == 0 ==> isOpen && urbSubmitted
      ensures ret != 0 ==> isOpen == old(isOpen)
      ensures !mutexHeld && events == old(events)
    {
      mutexHeld := true;
      if !submitOk {
        ret := -EIO;
      } else {
        urbSubmitted := true;
        ret := 0;
        isOpen := true;
      }
      mutexHeld := false;
    }

    /** `guncon2_close`: kill the URB unconditionally and mark the device closed. */
    method Close()
      requires Valid() && !mutexHeld
      modifies this
      ensures Valid()
      ensures State() == Session.Close(old(State()))
      ensures !isOpen && !urbSubmitted && !mutexHeld && events == old(events)
    {
      mutexHeld := true;
      urbSubmitted := false;
      isOpen := false;
      mutexHeld := false;
    }

    /** `guncon2_suspend`: kill the URB if the device is open; always succeeds. */
    method Suspend() returns (ret: int)
      requires Valid() && !mutexHeld
      modifies this
      ensures Valid()
      ensures Session.Step(State(), ret) == Session.Suspend(old(State()))
      ensures ret == 0 && isOpen == old(isOpen) && !mutexHeld
      ensures old(isOpen) ==> !urbSubmitted
      ensures !old(isOpen) ==> urbSubmitted == old(urbSubmitted)
      ensures events == old(events)
    {
      mutexHeld := true;
      if isOpen {
        urbSubmitted := false;
      }
      mutexHeld := false;
      ret := 0;
    }

    /** `guncon2_resume`: resubmit the URB if the device is open; -EIO if that fails. */
    method Resume(submitOk: bool) returns (ret: int)
      requires Valid() && !mutexHeld
      modifies this
      ensures Valid()
      ensures Session.Step(State(), ret) == Session.Resume(old(State()), submitOk)
      ensures ret == (if isOpen && !submitOk then -EIO else 0)
      ensures isOpen == old(isOpen) && !mutexHeld
      ensures urbSubmitted == (old(urbSubmitted) || (isOpen && submitOk))
      ensures events == old(events)
    {
      mutexHeld := true;
      ret := 0;
      if isOpen {
        if submitOk {
          urbSubmitted := true;
        } else {
          ret := -EIO;
        }
      }
      mutexHeld := false;
    }

    /** `guncon2_pre_reset`: take the lock, kill the URB and return still holding the lock. */
    method PreReset() returns (ret: int)
      requires Valid() && !mutexHeld
      modifies this
      ensures Valid()
      ensures Session.Step(State(), ret) == Session.PreReset(old(State()))
      ensures ret == 0 && mutexHeld && !urbSubmitted && isOpen == old(isOpen)
      ensures events == old(events)
    {
      mutexHeld := true;
      urbSubmitted := false;
      ret := 0;
    }

    /** `guncon2_post_reset`: resubmit the URB if the device is open, then release the lock taken by pre_reset. */
    method PostReset(submitOk: bool) returns (ret: int)
      requires Valid() && mutexHeld
      modifies this
      ensures Valid()
      ensures Session.Step(State(), ret) == Session.PostReset(old(State()), submitOk)
      ensures ret == (if isOpen && !submitOk then -EIO else 0)
      ensures isOpen == old(isOpen) && !mutexHeld
      ensures urbSubmitted == (old(urbSubmitted) || (isOpen && submitOk))
      ensures events == old(events)
    {
      ret := 0;
      if isOpen {
        if submitOk {
          urbSubmitted := true;
        } else {
          ret := -EIO;
        }
      }
      mutexHeld := false;
    }

    /** `guncon2_reset_resume`: the same as resume. */
    method ResetResume(submitOk: bool) returns (ret: int)
      requires Valid() && !mutexHeld
      modifies this
      ensures Valid()
      ensures Session.Step(State(), ret) == Session.Resume(old(State()), submitOk)
      ensures events == old(events)
    {
      ret := Resume(submitOk);
    }

    /** The URB completes: the handler reports the frame to the joystick device and resubmits; `submitOk` is the result of that resubmission. */
    method Complete(status: int, actualLength: nat, data: seq<bv8>, submitOk: bool)
      requires Valid() && urbSubmitted && actualLength <= |data|
      modifies this
      ensures Valid()
      ensures State() == Session.Complete(old(State()), status, submitOk)
      ensures events == old(events) + UsbIrq(status, actualLength, data).events
      ensures urbSubmitted == (UsbIrq(status, actualLength, data).resubmit && submitOk)
    {
      var outcome := UsbIrq(status, actualLength, data);
      events := events + outcome.events;
      urbSubmitted := outcome.resubmit && submitOk;
    }
  }
}
