/**
 * The WebRTC signalling goroutines as a transition system: any number of goroutines that send or
 * shut down through the controller's mutex, the receive loop, the forwarder and the poller, coupled
 * by three unbuffered channels. Goroutine 0 is the receive loop's; the others are peer-connection
 * callbacks and the caller of connect.
 */
module Signalling {
  import opened Limits
  import opened Wrappers

  datatype Op = Send | Close

  /** A goroutine inside sendSigMsg or closeSendCh. */
  datatype Caller =
    | Idle
    | Waiting(op: Op)
    | Locked(op: Op)
    | Sending
    | ClosingCh
    | SettingFlag
    | Unlocking(op: Op)

  datatype RecvLoop = RecvRanging | Handling | Answering | Shutting | RecvReturned | RecvFailed

  datatype Forwarder = FwdReceiving | Posting(tries: nat) | ClosingStop(gaveUp: bool) | FwdExited(gaveUp: bool)

  /** A batch says of each message whether it is a device message. */
  datatype Poller = Polling | Delivering(batch: seq<bool>) | Selecting | ClosingSink | PollExited

  /** `quota` is how many calls the callbacks have yet to make. */
  datatype State = State(
    callers: seq<Caller>, quota: nat, mtx: Option<nat>, sendChClosed: bool,
    sendClosed: bool, recvClosed: bool, stopClosed: bool,
    recv: RecvLoop, fwd: Forwarder, poll: Poller, errCount: nat)

  ghost function Init(n: nat, quota: nat): State {
    State(seq(n + 1, _ => Idle), quota, None, false, false, false, false,
          RecvRanging, FwdReceiving, Polling, 0)
  }

  datatype Step =
    | Call(i: nat, op: Op)
    | Lock(i: nat)
    | CheckFlag(i: nat)
    | CloseSendCh(i: nat)
    | SetFlag(i: nat)
    | Unlock(i: nat)
    | Forward(i: nat)
    | PostOk
    | PostFails
    | GiveUp
    | SendChDrained
    | CloseStop
    | PollOk(batch: seq<bool>)
    | PollFails
    | Deliver
    | Skip
    | BatchDone
    | StopSeen
    | TimerFires
    | CloseSink
    | Handled
    | Answer
    | HandlingFails
    | Answered
    | RecvChClosed
    | ShutDown

  ghost predicate Enabled(s: State, step: Step) {
    match step
    case Call(i, op) => 0 < i < |s.callers| && s.callers[i].Idle? && 0 < s.quota
    case Lock(i) => i < |s.callers| && s.callers[i].Waiting? && s.mtx.None?
    case CheckFlag(i) => i < |s.callers| && s.callers[i].Locked?
    case CloseSendCh(i) => i < |s.callers| && s.callers[i].ClosingCh?
    case SetFlag(i) => i < |s.callers| && s.callers[i].SettingFlag?
    case Unlock(i) => i < |s.callers| && s.callers[i].Unlocking?
    case Forward(i) => i < |s.callers| && s.callers[i].Sending? && s.fwd.FwdReceiving? && !s.sendClosed
    case PostOk => s.fwd.Posting? && s.fwd.tries < MAX_CONSECUTIVE_ERRORS
    case PostFails => s.fwd.Posting? && s.fwd.tries < MAX_CONSECUTIVE_ERRORS
    case GiveUp => s.fwd.Posting? && s.fwd.tries >= MAX_CONSECUTIVE_ERRORS
    case SendChDrained => s.fwd.FwdReceiving? && s.sendClosed
    case CloseStop => s.fwd.ClosingStop?
    case PollOk(_) => s.poll.Polling?
    case PollFails => s.poll.Polling?
    case Deliver => s.poll.Delivering? && s.poll.batch != [] && s.poll.batch[0] && s.recv.RecvRanging? && !s.recvClosed
    case Skip => s.poll.Delivering? && s.poll.batch != [] && !s.poll.batch[0]
    case BatchDone => s.poll.Delivering? && s.poll.batch == []
    case StopSeen => s.poll.Selecting? && s.stopClosed
    case TimerFires => s.poll.Selecting?
    case CloseSink => s.poll.ClosingSink?
    case Handled => s.recv.Handling?
    case Answer => s.recv.Handling? && 0 < |s.callers| && s.callers[0].Idle?
    case HandlingFails => s.recv.Handling?
    case Answered => s.recv.Answering? && 0 < |s.callers| && s.callers[0].Idle?
    case RecvChClosed => s.recv.RecvRanging? && s.recvClosed && 0 < |s.callers| && s.callers[0].Idle?
    case ShutDown => s.recv.Shutting? && 0 < |s.callers| && s.callers[0].Idle?
  }

  ghost function Apply(s: State, step: Step): State
    requires Enabled(s, step)
  {
    match step
    case Call(i, op) => s.(callers := s.callers[i := Waiting(op)], quota := s.quota - 1)
    case Lock(i) => s.(callers := s.callers[i := Locked(s.callers[i].op)], mtx := Some(i))
    case CheckFlag(i) => s.(callers := s.callers[i := Checked(s.callers[i].op, s.sendChClosed)])
    case CloseSendCh(i) => s.(callers := s.callers[i := SettingFlag], sendClosed := true)
    case SetFlag(i) => s.(callers := s.callers[i := Unlocking(Close)], sendChClosed := true)
    case Unlock(i) => s.(callers := s.callers[i := Idle], mtx := None)
    case Forward(i) => s.(callers := s.callers[i := Unlocking(Send)], fwd := Posting(0))
    case PostOk => s.(fwd := FwdReceiving)
    case PostFails => s.(fwd := Posting(s.fwd.tries + 1))
    case GiveUp => s.(fwd := ClosingStop(true))
    case SendChDrained => s.(fwd := ClosingStop(false))
    case CloseStop => s.(fwd := FwdExited(s.fwd.gaveUp), stopClosed := true)
    case PollOk(batch) => s.(poll := Delivering(batch), errCount := 0)
    case PollFails =>
      s.(errCount := s.errCount + 1,
         poll := if s.errCount + 1 >= MAX_CONSECUTIVE_ERRORS then ClosingSink else Selecting)
    case Deliver => s.(poll := Delivering(s.poll.batch[1..]), recv := Handling)
    case Skip => s.(poll := Delivering(s.poll.batch[1..]))
    case BatchDone => s.(poll := Selecting)
    case StopSeen => s.(poll := ClosingSink)
    case TimerFires => s.(poll := Polling)
    case CloseSink => s.(poll := PollExited, recvClosed := true)
    case Handled => s.(recv := RecvRanging)
    case Answer => s.(recv := Answering, callers := s.callers[0 := Waiting(Send)])
    case HandlingFails => s.(recv := RecvFailed)
    case Answered => s.(recv := RecvRanging)
    case RecvChClosed => s.(recv := Shutting, callers := s.callers[0 := Waiting(Close)])
    case ShutDown => s.(recv := RecvReturned)
  }

  /** What a goroutine holding the mutex does next after reading the flag. */
  function Checked(op: Op, closed: bool): Caller {
    if closed then Unlocking(op) else if op.Send? then Sending else ClosingCh
  }

  /** A goroutine is at a send on, or a second close of, a closed channel. */
  ghost predicate Panics(s: State) {
    || (exists i :: 0 <= i < |s.callers| && (s.callers[i].Sending? || s.callers[i].ClosingCh?) && s.sendClosed)
    || (s.fwd.ClosingStop? && s.stopClosed)
    || (s.poll.ClosingSink? && s.recvClosed)
    || (s.poll.Delivering? && s.poll.batch != [] && s.recvClosed)
  }

  ghost predicate IsRun(s: State, steps: seq<Step>)
    decreases |steps|
  {
    steps == [] || (Enabled(s, steps[0]) && IsRun(Apply(s, steps[0]), steps[1..]))
  }

  ghost function After(s: State, steps: seq<Step>): State
    requires IsRun(s, steps)
    decreases |steps|
  {
    if steps == [] then s else After(Apply(s, steps[0]), steps[1..])
  }

  // What every interleaving keeps.

  ghost predicate HoldsLock(c: Caller) {
    c.Locked? || c.Sending? || c.ClosingCh? || c.SettingFlag? || c.Unlocking?
  }

  /** The mutex is held by the one goroutine in the critical section, and the flag follows the channel. */
  ghost predicate Locking(s: State) {
    && (forall i: nat :: i < |s.callers| && HoldsLock(s.callers[i]) ==> s.mtx == Some(i))
    && (s.mtx.Some? ==> s.mtx.value < |s.callers| && HoldsLock(s.callers[s.mtx.value]))
    && (forall i: nat :: i < |s.callers| && (s.callers[i].Sending? || s.callers[i].ClosingCh?) ==> !s.sendClosed)
    && (forall i: nat :: i < |s.callers| && s.callers[i].SettingFlag? ==> s.sendClosed)
    && (forall i: nat :: i < |s.callers| && s.callers[i] == Unlocking(Close) ==> s.sendChClosed)
    && (s.sendChClosed ==> s.sendClosed)
    && (s.sendClosed && !s.sendChClosed ==> s.mtx.Some? && s.callers[s.mtx.value].SettingFlag?)
  }

  /** The goroutine is inside sendSigMsg, or inside closeSendCh. */
  ghost predicate Doing(c: Caller, op: Op) {
    match c
    case Idle => false
    case Waiting(o) => o == op
    case Locked(o) => o == op
    case Sending => op.Send?
    case ClosingCh => op.Close?
    case SettingFlag => op.Close?
    case Unlocking(o) => o == op
  }

  /** Where the receive loop stands decides what goroutine 0 is doing. */
  ghost predicate RecvCalls(s: State) {
    && 0 < |s.callers|
    && (s.recv.Answering? ==> s.callers[0].Idle? || Doing(s.callers[0], Send))
    && (s.recv.Shutting? ==> (s.callers[0].Idle? && s.sendChClosed) || Doing(s.callers[0], Close))
    && (!s.recv.Answering? && !s.recv.Shutting? ==> s.callers[0] == Idle)
  }

  ghost predicate Channels(s: State) {
    && (s.stopClosed <==> s.fwd.FwdExited?)
    && (s.recvClosed <==> s.poll.PollExited?)
    && (s.fwd.Posting? ==> s.fwd.tries <= MAX_CONSECUTIVE_ERRORS)
    && (s.fwd == ClosingStop(false) || s.fwd == FwdExited(false) ==> s.sendClosed)
    && (s.recv.Shutting? || s.recv.RecvReturned? ==> s.recvClosed)
    && (s.recv.RecvReturned? ==> s.sendChClosed)
  }

  ghost predicate Inv(s: State) {
    Locking(s) && RecvCalls(s) && Channels(s)
  }

  lemma InvInit(n: nat, quota: nat)
    ensures Inv(Init(n, quota))
  {
  }

  ghost predicate ByCaller(step: Step) {
    step.Call? || step.Lock? || step.CheckFlag? || step.CloseSendCh? || step.SetFlag? || step.Unlock? || step.Forward?
  }

  ghost predicate ByRecvLoop(step: Step) {
    step.Handled? || step.Answer? || step.HandlingFails? || step.Answered? || step.RecvChClosed? || step.ShutDown?
  }

  lemma InvStep(s: State, step: Step)
    requires Inv(s) && Enabled(s, step)
    ensures Inv(Apply(s, step))
  {
    if ByCaller(step) {
      CallerStep(s, step);
    } else if ByRecvLoop(step) {
      RecvStep(s, step);
    } else {
      TransportStep(s, step);
    }
  }

  lemma CallerStep(s: State, step: Step)
    requires Inv(s) && Enabled(s, step) && ByCaller(step)
    ensures Inv(Apply(s, step))
  {
  }

  lemma RecvStep(s: State, step: Step)
    requires Inv(s) && Enabled(s, step) && ByRecvLoop(step)
    ensures Inv(Apply(s, step))
  {
    RecvLeavesOthers(s, step);
    var s' := Apply(s, step);
    assert forall i: nat :: 0 < i < |s.callers| ==> s'.callers[i] == s.callers[i];
  }

  /** The receive loop touches nobody but its own goroutine, which it only sets waiting. */
  lemma RecvLeavesOthers(s: State, step: Step)
    requires Inv(s) && Enabled(s, step) && ByRecvLoop(step)
    ensures var s' := Apply(s, step);
            && s'.mtx == s.mtx && s'.sendChClosed == s.sendChClosed && s'.sendClosed == s.sendClosed
            && s'.fwd == s.fwd && s'.poll == s.poll && s'.stopClosed == s.stopClosed && s'.recvClosed == s.recvClosed
            && (s'.callers == s.callers || (s.callers[0].Idle? && s'.callers == s.callers[0 := s'.callers[0]] && s'.callers[0].Waiting?))
  {
  }

  lemma TransportStep(s: State, step: Step)
    requires Inv(s) && Enabled(s, step) && !ByCaller(step) && !ByRecvLoop(step)
    ensures Inv(Apply(s, step))
  {
    TransportLeavesCallers(s, step);
  }

  /** The forwarder and the poller touch no caller, and of the receive loop only wake it. */
  lemma TransportLeavesCallers(s: State, step: Step)
    requires Enabled(s, step) && !ByCaller(step) && !ByRecvLoop(step)
    ensures var s' := Apply(s, step);
            && s'.callers == s.callers && s'.mtx == s.mtx
            && s'.sendChClosed == s.sendChClosed && s'.sendClosed == s.sendClosed
            && (s'.recv == s.recv || (s.recv.RecvRanging? && s'.recv.Handling?))
  {
  }

  lemma {:induction false} RunKeeps(s: State, steps: seq<Step>)
    requires Inv(s) && IsRun(s, steps)
    ensures Inv(After(s, steps))
    decreases |steps|
  {
    if steps == [] {
    } else {
      InvStep(s, steps[0]);
      RunKeeps(Apply(s, steps[0]), steps[1..]);
    }
  }

  /**
   * Channel safety in every interleaving: nothing is sent on a closed channel, none of the three is
   * closed twice, and whenever the mutex is free the flag says whether SendCh is closed.
   */
  lemma ChannelSafety(n: nat, quota: nat, steps: seq<Step>)
    requires IsRun(Init(n, quota), steps)
    ensures var s := After(Init(n, quota), steps);
            !Panics(s) && (s.mtx.None? ==> (s.sendChClosed <==> s.sendClosed))
  {
    InvInit(n, quota);
    RunKeeps(Init(n, quota), steps);
  }
}
