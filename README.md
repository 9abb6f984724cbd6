# GunCon 2 USB light gun drivers, modelled in Dafny

This project models the core of two variants of a Linux driver for the Namco GunCon 2 USB light gun:

- **gcon2.c** registers two input devices per gun: an aim device (absolute X/Y and three mouse buttons) and a joystick device (d-pad and buttons).
- **guncon2.c** registers a single joystick device (trigger, d-pad hat, five buttons).

Each variant has two parts:

1. **The interrupt-report handler `guncon2_usb_irq`.** It works in three steps:
   - It classifies the URB status: decode, stop without resubmitting, or resubmit without decoding.
   - It decodes the fixed 6-byte report. The buttons are active-low bits in bytes 0–1. X is a little-endian 16-bit value in bytes 2–3. Y is byte 4.
   - It reports a fixed, ordered list of input events closed by one `input_sync`.

   The handler is a pure function (`Gcon2.UsbIrq`, `Guncon2.UsbIrq`). It maps the status, the received length and the transfer buffer to the events and a resubmit flag.
2. **The per-instance session and power state.** This is the `is_open` flag, whether the URB is submitted, and whether `pm_mutex` is held. The operations are open, close, suspend, resume, pre_reset, post_reset and reset_resume.
   - Each file's `struct guncon2` is a class (`Gcon2.Device`, `Guncon2.Device`) whose methods update those fields.
   - The results of `kzalloc` and `usb_submit_urb` are method parameters.
   - Each method is proved against the pure step functions of module `Session`. The hooks are the same code in both files except open.
   - `Session.Run` replays any sequence of calls. The lemmas about it state what holds however the calls interleave.

Modules:

- `Input`: event vocabulary and declared capabilities.
- `Usb`: error numbers, URB status classification, control-request setup packet, HID SET_REPORT fields.
- `Report`: report layout and the reference bit reader `Held`.
- `Session`, `Gcon2`, `Guncon2`: described above.

The two files test the buttons differently:

- gcon2.c masks the inverted 16-bit word `((data[0] << 8) | data[1]) ^ 0xffff`.
- guncon2.c tests single bytes with `!(data[i] & BIT(k))`.

Both are proved equal to one reference, `Report.Held`: a button is held when its hardware bit is 0. That proves the two files read the same bits.

The drivers do not do the following, and neither does the model:

- There is no reference count. Each `struct guncon2` has its own URB, and close always kills it.
- There is no validity filter, last-known-position cache or offscreen debounce.
- X and Y are reported unclamped. The calibration constants only set the declared axis ranges.
- The mouse mapping is left = trigger, right = A, middle = C.
- guncon2.c never reports X, Y or BTN_TR.

## Model

| member | source | states |
|---|---|---|
| Usb.Classify | gcon2.c:70-93 | status 0 decodes; exactly the statuses -ETIME, -ECONNRESET, -ENOENT, -ESHUTDOWN, -EPIPE abandon the URB; every other status resubmits without decoding (guncon2.c:42-64 is the same switch) |
| Gcon2.AimX | gcon2.c:98 | X is `data[2] + 256 * data[3]`, in 0..65535 |
| Gcon2.MaskedButtonIsHeld | gcon2.c:105-120 | for each of the ten masks, the mask test on the inverted word is true exactly when that button's hardware bit is 0 |
| Gcon2.Frame | gcon2.c:95-123 | a decoded frame is exactly: ABS_X = data[2] + 256·data[3], ABS_Y = data[4], the nine joystick keys and three mouse keys in source order, each pressed iff its hardware bit is 0, then one sync closing the batch |
| Gcon2.UsbIrq | gcon2.c:63-132 | resubmit iff the status is not terminal; events are produced iff status is 0 and exactly 6 bytes arrived, and then they are the frame, closed by exactly one sync |
| Gcon2.MouseButtonsMirrorGunButtons | gcon2.c:118-120 | BTN_LEFT is the trigger, BTN_RIGHT equals BTN_A, BTN_MIDDLE equals BTN_C; two reports that agree on trigger, A and C give the same mouse buttons, so B moves none |
| Gcon2.FrameSplitsBetweenDevices | gcon2.c:295-325 | every non-sync event of a frame is declared by exactly one of the aim and joystick devices; all axes belong to the aim device |
| Gcon2.AimNotClampedToCalibration | gcon2.c:95-102 | a report with all-ones position bytes reports X = 65535, outside the declared range 155..725: the handler does not clamp |
| Gcon2.ModeCommandIsSetOutputReport | gcon2.c:146-149 | the mode command is a host-to-device class request to the interface, HID SET_REPORT for output report 0, payload [0,0,0,0,0,1] |
| Gcon2.Device.constructor | gcon2.c:210-230 | a probed instance is closed, its URB not submitted, its mutex free, nothing reported or sent |
| Gcon2.Device.Open | gcon2.c:134-168 | allocation failure returns -ENOMEM with is_open unchanged and the mutex still held; otherwise the mode command is sent (its result ignored), submit success opens the device and returns 0, submit failure returns -EIO with is_open unchanged, and the mutex is released |
| Gcon2.Device.Close | gcon2.c:170-177 | the URB is killed, the device is closed, the mutex is released, whatever the state before |
| Gcon2.Device.Suspend | gcon2.c:342-354 | returns 0, kills the URB only if the device is open, never changes is_open |
| Gcon2.Device.Resume | gcon2.c:356-369 | resubmits only if the device is open; -EIO on submit failure, else 0; is_open unchanged |
| Gcon2.Device.PreReset | gcon2.c:371-378 | kills the URB and returns 0 with the mutex held |
| Gcon2.Device.PostReset | gcon2.c:380-393 | requires the mutex held by pre_reset; resubmits only if open, -EIO on failure, releases the mutex |
| Gcon2.Device.ResetResume | gcon2.c:395-398 | behaves exactly as resume |
| Gcon2.Device.Complete | gcon2.c:63-132 | the instance's input device receives exactly the handler's events; the URB stays in flight only if the handler resubmits and the resubmission succeeds |
| Guncon2.Hat | guncon2.c:75-88 | a hat axis is [positive held] − [negative held]: always in -1..1, 0 exactly when both or neither direction is held |
| Guncon2.Frame | guncon2.c:66-98 | a decoded frame is exactly: BTN_TL = trigger held, HAT0X = right − left, HAT0Y = down − up, A, B, C, START, SELECT each pressed iff their hardware bit is 0, then one sync |
| Guncon2.FrameIsDeclared | guncon2.c:212-225 | every event of a frame is declared by the device and within its declared range (the hats in -1..1); BTN_TR, ABS_X and ABS_Y are never reported |
| Guncon2.UsbIrq | guncon2.c:32-107 | same status handling as gcon2.c; a decoded frame is closed by exactly one sync, every event is declared, BTN_TR is never reported and X, Y are never reported |
| Guncon2.ByteTestsMatchInvertedWord | guncon2.c:70-95 | each per-byte test `!(data[i] & BIT(k))` equals the matching mask test of gcon2.c on its inverted word (e.g. bit 7 of data[0] and GUNCON2_DPAD_LEFT) |
| Guncon2.FrameAgreesWithGcon2 | guncon2.c:66-97 | for the same report, BTN_TL here equals BTN_LEFT of gcon2.c, the hats are gcon2.c's d-pad keys folded into -1..1, and A, B, C, START, SELECT equal gcon2.c's |
| Guncon2.Device.constructor | guncon2.c:169-176 | a probed instance is closed, its URB not submitted, its mutex free, nothing reported |
| Guncon2.Device.Open | guncon2.c:109-129 | submit success opens the device and returns 0, failure returns -EIO with is_open unchanged; the mutex is always released |
| Guncon2.Device.Close | guncon2.c:131-139 | the URB is killed, the device is closed, the mutex is released |
| Guncon2.Device.Suspend | guncon2.c:241-252 | returns 0, kills the URB only if open, never changes is_open |
| Guncon2.Device.Resume | guncon2.c:254-267 | resubmits only if open; -EIO on submit failure, else 0 |
| Guncon2.Device.PreReset | guncon2.c:269-276 | kills the URB and returns 0 with the mutex held |
| Guncon2.Device.PostReset | guncon2.c:278-291 | resubmits only if open, -EIO on failure, releases the mutex taken by pre_reset |
| Guncon2.Device.ResetResume | guncon2.c:293-296 | behaves exactly as resume |
| Guncon2.Device.Complete | guncon2.c:32-107 | the joystick device receives exactly the handler's events; the URB stays in flight only if resubmitted successfully |
| Session.ApplyKeepsStreamOnlyWhenOpen | gcon2.c:134-177 | no single call (open, close, a power hook, a completion) leaves a URB in flight on a closed device |
| Session.RunKeepsStreamOnlyWhenOpen | gcon2.c:342-398 | for every sequence of opens, closes, power hooks and completions, a closed device never has its URB in flight |
| Session.LockFreeOutsideReset | guncon2.c:109-139 | with an open that always unlocks (guncon2.c, or gcon2.c corrected), after any sequence of calls without pre_reset the mutex is free; when a sequence cannot run to the end, the first call that cannot run is one that does not take the mutex (a post_reset, or a completion with no URB in flight), so no call that takes it is ever blocked |
| Session.AllocFailureBlocksNextCall | gcon2.c:140-144 | after gcon2.c's open fails to allocate, it has returned -ENOMEM with the mutex held, so the next call that takes the mutex can never run |
| Session.ResetRestoresStream | gcon2.c:371-393 | pre_reset followed by post_reset frees the mutex, leaves is_open alone and leaves the URB in flight exactly when the device is open and resubmission succeeds |
| Session.SuspendResumeRestoresStream | gcon2.c:342-369 | suspend then resume puts an open device's URB back in flight when resubmission succeeds and leaves a closed device untouched |
| Session.CloseIdempotent | gcon2.c:170-177 | closing twice is the same as closing once |

## Left out

- Probe and disconnect are not modelled: endpoint discovery, devm allocation, URB filling, path strings, and device registration. The only parts of probe kept are the declared capabilities and axis ranges, as constants, and the state probe leaves behind, as the class constructors. Three quirks of gcon2.c's probe are noted here but not modelled:
  - both URBs are filled with the second `xfer_buf` (gcon2.c:223, 233, 258-264);
  - the interface data is overwritten, so the power hooks reach only the aim instance (gcon2.c:220, 230);
  - the free action is registered twice for the aim instance (gcon2.c:241, 253).
- The kernel and USB calls are abstract:
  - The results of `usb_submit_urb` and `kzalloc` are method parameters.
  - `usb_kill_urb` clears the "URB in flight" flag.
  - `input_report_*` and `input_sync` append to a ghost event log.
  - `usb_control_msg` appends its arguments to a ghost log. Its result is ignored, as in the source.
  - A failed submission leaves the in-flight flag as it was.
- The input core is not part of this model. It drops events a device did not declare and applies fuzz and flat filtering. The model states which device declares each event, not what the consumer finally receives.
- Concurrency between the interrupt handler and open, close and the power hooks is left out.
  - `pm_mutex` is a boolean. A call that takes it requires it free, because a sequential caller would block forever.
  - A completion can only happen while the URB is in flight.
- The `-EPERM` check after resubmission (gcon2.c:128, guncon2.c:103) is left out because it only affects logging. All `dev_dbg`/`dev_err` output is left out too.
- The module device tables and `usb_driver` registration are left out (gcon2.c:400-422, guncon2.c:298-321).
- The Linux error numbers and input event codes come from headers. linux/input-event-codes.h and asm-generic/errno.h are not part of this model. Only the errors' distinctness matters.
- `Session.Enabled` lets post_reset run whenever the mutex is held. It does not check that a pre_reset came first. The USB core always pairs them, so no "reset in progress" state is kept. As a result, in a `Session.Run` trace a post_reset alone can release the mutex that gcon2.c's failed open leaked.
- Gcon2.Device.Open: keeps the as-written `-ENOMEM` path that leaves the mutex held. The corrected open is used only by the call-sequence lemmas (see Findings).

## Findings

| source | as written | input that shows it | evidently intended | confidence | as-written member | corrected member |
|---|---|---|---|---|---|---|
| gcon2.c:140-144 | open takes `pm_mutex` and returns `-ENOMEM` when `kzalloc` fails, without `mutex_unlock` | `kzalloc(6, GFP_KERNEL)` returns NULL during open; every later open, close, suspend, resume or pre_reset of that instance then blocks forever | release `pm_mutex` before returning `-ENOMEM`, as the `-EIO` path does through `out:` (gcon2.c:165-166) | high; not executed | Session.AllocFailureBlocksNextCall | Session.LockFreeOutsideReset |
