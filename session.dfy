/**
 * The per-instance session and power state of `struct guncon2`, as pure functions.
 * Both drivers keep the same three facts about an instance: whether its input device
 * is open (`is_open`), whether its interrupt URB is submitted, and whether `pm_mutex`
 * is held. The hooks of the two files differ only in open, so the functions below are
 * the specification that the `Device` classes of both files are proved against.
 *
 * `mutex_lock` on a held mutex blocks; a hook that takes the lock therefore requires
 * it free, and a sequence of calls in which one would block is refused by `Run`.
 */
module Session {
  import opened Usb

  datatype Option<T> = None | Some(value: T)

  datatype Instance = Instance(isOpen: bool, urbSubmitted: bool, mutexHeld: bool)

  /** The instance after probe: zero-filled, mutex initialised, URB filled but not submitted. */
  const Probed := Instance(false, false, false)

  /** The report stream runs only while the device is open. */
  predicate StreamOnlyWhenOpen(s: Instance)
  {
    s.urbSubmitted ==> s.isOpen
  }

  /** The instance after a hook, and the hook's return value. */
  datatype Step = Step(next: Instance, ret: int)

  /** `guncon2_open` of guncon2.c, and the part of gcon2.c's open after the mode command. */
  function Open(s: Instance, submitOk: bool): Step
    requires !s.mutexHeld
  {
    if submitOk then Step(s.(isOpen := true, urbSubmitted := true), 0) else Step(s, -EIO)
  }

  /** `guncon2_open` of gcon2.c as written: when the mode buffer cannot be allocated it returns with the lock held. */
  function OpenWithModeCommand(s: Instance, allocOk: bool, submitOk: bool): Step
    requires !s.mutexHeld
  {
    if !allocOk then Step(s.(mutexHeld := true), -ENOMEM) else Open(s, submitOk)
  }

  /** `guncon2_open` of gcon2.c with the lock released on the allocation failure path too. */
  function OpenWithModeCommandFixed(s: Instance, allocOk: bool, submitOk: bool): Step
    requires !s.mutexHeld
  {
    if !allocOk then Step(s, -ENOMEM) else Open(s, submitOk)
  }

  /** `guncon2_close`: kill the URB and mark the device closed. */
  function Close(s: Instance): Instance
    requires !s.mutexHeld
  {
    s.(isOpen := false, urbSubmitted := false)
  }

  /** `guncon2_suspend`: kill the URB of an open device; report success. */
  function Suspend(s: Instance): Step
    requires !s.mutexHeld
  {
    Step(if s.isOpen then s.(urbSubmitted := false) else s, 0)
  }

  /** The restart shared by resume and post_reset: resubmit the URB of an open device, -EIO if that fails. */
  function Restart(s: Instance, submitOk: bool): Step
  {
    if !s.isOpen then Step(s, 0)
    else if submitOk then Step(s.(urbSubmitted := true), 0)
    else Step(s, -EIO)
  }

  /** `guncon2_resume`, which `guncon2_reset_resume` calls. */
  function Resume(s: Instance, submitOk: bool): Step
    requires !s.mutexHeld
  {
    Restart(s, submitOk)
  }

  /** `guncon2_pre_reset`: take the lock, kill the URB, and return keeping the lock. */
  function PreReset(s: Instance): Step
    requires !s.mutexHeld
  {
    Step(s.(urbSubmitted := false, mutexHeld := true), 0)
  }

  /** `guncon2_post_reset`: restart as resume does, then release the lock taken by pre_reset. */
  function PostReset(s: Instance, submitOk: bool): Step
    requires s.mutexHeld
  {
    var r := Restart(s, submitOk);
    Step(r.next.(mutexHeld := false), r.ret)
  }

  /** The URB completes and the interrupt handler runs: it resubmits unless the status is terminal. */
  function Complete(s: Instance, status: int, submitOk: bool): Instance
    requires s.urbSubmitted
  {
    if Classify(status) == Abandon then s.(urbSubmitted := false) else s.(urbSubmitted := submitOk)
  }

  /** Which open a sequence of calls runs. */
  datatype Driver = Gcon2AsWritten | Gcon2Corrected | Guncon2

  /**
   * A call into the instance, with the results of the USB and allocation calls it makes.
   * `allocOk` matters only to gcon2.c; reset_resume is the call ResumeCall.
   */
  datatype Call =
    | OpenCall(allocOk: bool, submitOk: bool)
    | CloseCall
    | SuspendCall
    | ResumeCall(submitOk: bool)
    | PreResetCall
    | PostResetCall(submitOk: bool)
    | CompleteCall(status: int, submitOk: bool)

  /** The call begins with `mutex_lock(&guncon2->pm_mutex)`. */
  predicate TakesLock(c: Call)
  {
    !c.PostResetCall? && !c.CompleteCall?
  }

  /** The call can run: the lock is free for a call that takes it, held for post_reset, the URB in flight for a completion. */
  predicate Enabled(s: Instance, c: Call)
  {
    match c
    case PostResetCall(_) => s.mutexHeld
    case CompleteCall(_, _) => s.urbSubmitted
    case _ => !s.mutexHeld
  }

  function Apply(d: Driver, s: Instance, c: Call): Instance
    requires Enabled(s, c)
  {
    match c
    case OpenCall(allocOk, submitOk) =>
      (match d
       case Gcon2AsWritten => OpenWithModeCommand(s, allocOk, submitOk).next
       case Gcon2Corrected => OpenWithModeCommandFixed(s, allocOk, submitOk).next
       case Guncon2 => Open(s, submitOk).next)
    case CloseCall => Close(s)
    case SuspendCall => Suspend(s).next
    case ResumeCall(submitOk) => Resume(s, submitOk).next
    case PreResetCall => PreReset(s).next
    case PostResetCall(submitOk) => PostReset(s, submitOk).next
    case CompleteCall(status, submitOk) => Complete(s, status, submitOk)
  }

  /**
   * The instance after `calls`, one at a time; None when a call cannot run: a call that takes
   * the lock finds it held (it would block), post_reset finds it free, or a completion
   * arrives with no URB in flight.
   */
  function Run(d: Driver, s: Instance, calls: seq<Call>): Option<Instance>
    decreases |calls|
  {
    if calls == [] then Some(s)
    else if !Enabled(s, calls[0]) then None
    else Run(d, Apply(d, s, calls[0]), calls[1..])
  }

  /** Every call keeps the stream stopped while the device is closed. */
  lemma ApplyKeepsStreamOnlyWhenOpen(d: Driver, s: Instance, c: Call)
    requires StreamOnlyWhenOpen(s) && Enabled(s, c)
    ensures StreamOnlyWhenOpen(Apply(d, s, c))
  {
  }

  /** However open, close, the power hooks and completions interleave, a closed device has no URB in flight. */
  lemma {:induction false} RunKeepsStreamOnlyWhenOpen(d: Driver, s: Instance, calls: seq<Call>)
    requires StreamOnlyWhenOpen(s)
    ensures Run(d, s, calls).Some? ==> StreamOnlyWhenOpen(Run(d, s, calls).value)
    decreases |calls|
  {
    if calls != [] && Enabled(s, calls[0]) {
      ApplyKeepsStreamOnlyWhenOpen(d, s, calls[0]);
      RunKeepsStreamOnlyWhenOpen(d, Apply(d, s, calls[0]), calls[1..]);
    }
  }

  predicate NoPreReset(calls: seq<Call>)
  {
    forall i :: 0 <= i < |calls| ==> !calls[i].PreResetCall?
  }

  /**
   * With an open that always releases the lock (guncon2.c, or gcon2.c corrected), and no
   * reset in progress, the lock is free after every sequence of calls; when a sequence
   * stops, the first call that cannot run is one that does not take the lock (a post_reset
   * without a reset, or a completion with no URB in flight), so no call that takes the lock
   * is ever blocked.
   */
  lemma {:induction false} LockFreeOutsideReset(d: Driver, s: Instance, calls: seq<Call>)
    requires d != Gcon2AsWritten && !s.mutexHeld && NoPreReset(calls)
    ensures Run(d, s, calls).Some? ==> !Run(d, s, calls).value.mutexHeld
    ensures Run(d, s, calls).None? ==>
      exists i :: 0 <= i < |calls| && Run(d, s, calls[..i]).Some?
        && !Enabled(Run(d, s, calls[..i]).value, calls[i]) && !TakesLock(calls[i])
    decreases |calls|
  {
    if calls == [] {
    } else if !Enabled(s, calls[0]) {
      assert calls[..0] == [];
      assert Run(d, s, calls[..0]) == Some(s);
    } else {
      var rest := calls[1..];
      var next := Apply(d, s, calls[0]);
      assert NoPreReset(rest) by {
        forall i | 0 <= i < |rest| ensures !rest[i].PreResetCall? {
          assert rest[i] == calls[i + 1];
        }
      }
      LockFreeOutsideReset(d, next, rest);
      if Run(d, s, calls).None? {
        var j :| 0 <= j < |rest| && Run(d, next, rest[..j]).Some?
          && !Enabled(Run(d, next, rest[..j]).value, rest[j]) && !TakesLock(rest[j]);
        var prefix := calls[..j + 1];
        assert prefix[0] == calls[0] && prefix[1..] == rest[..j];
        assert Run(d, s, prefix) == Run(d, next, rest[..j]);
        assert calls[j + 1] == rest[j];
      }
    }
  }

  /**
   * gcon2.c as written: after an open whose allocation fails, the lock stays held, so the
   * next call that takes it (close, another open, suspend, resume, pre_reset) never runs.
   */
  lemma AllocFailureBlocksNextCall(s: Instance, submitOk: bool, c: Call)
    requires !s.mutexHeld && TakesLock(c)
    ensures OpenWithModeCommand(s, false, submitOk) == Step(s.(mutexHeld := true), -ENOMEM)
    ensures Run(Gcon2AsWritten, s, [OpenCall(false, submitOk), c]).None?
  {
    var calls := [OpenCall(false, submitOk), c];
    assert calls[1..] == [c];
  }

  /** A reset (pre_reset, then post_reset) returns the lock and restarts the URB exactly when the device is open and the resubmission succeeds. */
  lemma ResetRestoresStream(d: Driver, s: Instance, submitOk: bool)
    requires !s.mutexHeld
    ensures Run(d, s, [PreResetCall, PostResetCall(submitOk)])
         == Some(s.(urbSubmitted := s.isOpen && submitOk))
  {
    var calls := [PreResetCall, PostResetCall(submitOk)];
    var held := Apply(d, s, PreResetCall);
    assert calls[1..] == [PostResetCall(submitOk)];
    assert Run(d, held, [PostResetCall(submitOk)]) == Run(d, Apply(d, held, PostResetCall(submitOk)), []);
  }

  /** Suspend and then resume leaves an open device streaming again when the resubmission succeeds, and a closed one untouched. */
  lemma SuspendResumeRestoresStream(d: Driver, s: Instance, submitOk: bool)
    requires !s.mutexHeld
    ensures Run(d, s, [SuspendCall, ResumeCall(submitOk)])
         == Some(if s.isOpen then s.(urbSubmitted := submitOk) else s)
  {
    var calls := [SuspendCall, ResumeCall(submitOk)];
    var suspended := Apply(d, s, SuspendCall);
    assert calls[1..] == [ResumeCall(submitOk)];
    assert Run(d, suspended, [ResumeCall(submitOk)]) == Run(d, Apply(d, suspended, ResumeCall(submitOk)), []);
  }

  /** Close is idempotent. */
  lemma CloseIdempotent(s: Instance)
    requires !s.mutexHeld
    ensures Close(Close(s)) == Close(s)
  {
  }
}
