/** When the signalling goroutines all come to an end, and when they do not. */
module Shutdown {
  import opened Limits
  import opened Wrappers
  import opened Signalling

  /** Forwarder, poller and receive loop have returned, and nobody is inside the controller. */
  ghost predicate AllEnded(s: State) {
    && s.fwd.FwdExited? && s.poll.PollExited? && (s.recv.RecvReturned? || s.recv.RecvFailed?)
    && forall i :: 0 <= i < |s.callers| ==> s.callers[i].Idle?
  }

  /** Nothing can happen any more but new callbacks. */
  ghost predicate Halted(s: State) {
    forall step :: Enabled(s, step) ==> step.Call?
  }

  ghost predicate SomeoneSending(s: State) {
    exists i :: 0 <= i < |s.callers| && s.callers[i].Sending?
  }

  /** The poller is at a device message that the receive loop, having left on an error, will not take. */
  ghost predicate PollerStuck(s: State) {
    s.recv.RecvFailed? && s.poll.Delivering? && s.poll.batch != [] && s.poll.batch[0]
  }

  /**
   * The exact condition: where everything has come to a halt, everything has ended unless a
   * goroutine is left sending, with the mutex held, after the forwarder gave up; or the poller is
   * left with a message for a receive loop that failed; or that loop failed and nothing has told the
   * forwarder to stop.
   */
  lemma HaltedMeansEnded(s: State)
    requires Inv(s) && Halted(s)
    ensures AllEnded(s) <==> !SomeoneSending(s) && !PollerStuck(s) && s.fwd.FwdExited?
    ensures SomeoneSending(s) ==> s.fwd == FwdExited(true)
    ensures !s.fwd.FwdExited? ==> s.recv.RecvFailed? && !s.sendClosed
  {
    ForwarderHalted(s);
    PollerHalted(s);
    assert !Enabled(s, Handled);
    assert !Enabled(s, Answered);
    assert !Enabled(s, ShutDown);
    assert !Enabled(s, RecvChClosed);
    assert !Enabled(s, Deliver);
    if i: nat :| i < |s.callers| && s.callers[i].Sending? {
      assert !Enabled(s, Forward(i));
    } else {
      CallersHalted(s);
    }
  }

  lemma CallersHalted(s: State)
    requires Inv(s) && Halted(s) && !SomeoneSending(s)
    ensures forall i :: 0 <= i < |s.callers| ==> s.callers[i].Idle?
  {
    forall i: nat | i < |s.callers|
      ensures !HoldsLock(s.callers[i])
    {
      assert !Enabled(s, CheckFlag(i));
      assert !Enabled(s, CloseSendCh(i));
      assert !Enabled(s, SetFlag(i));
      assert !Enabled(s, Unlock(i));
    }
    forall i: nat | i < |s.callers|
      ensures s.callers[i].Idle?
    {
      assert !Enabled(s, Lock(i));
    }
  }

  lemma ForwarderHalted(s: State)
    requires Inv(s) && Halted(s)
    ensures s.fwd.FwdExited? || (s.fwd.FwdReceiving? && !s.sendClosed)
  {
    assert !Enabled(s, PostOk);
    assert !Enabled(s, GiveUp);
    assert !Enabled(s, SendChDrained);
    assert !Enabled(s, CloseStop);
  }

  lemma PollerHalted(s: State)
    requires Inv(s) && Halted(s)
    ensures s.poll.PollExited? || (s.poll.Delivering? && s.poll.batch != [] && s.poll.batch[0])
  {
    assert !Enabled(s, PollFails);
    assert !Enabled(s, Skip);
    assert !Enabled(s, BatchDone);
    assert !Enabled(s, TimerFires);
    assert !Enabled(s, CloseSink);
  }

  // A run in which shutdown hangs.

  lemma {:induction false} Extend(s: State, steps: seq<Step>, step: Step)
    requires IsRun(s, steps) && Enabled(After(s, steps), step)
    ensures IsRun(s, steps + [step]) && After(s, steps + [step]) == Apply(After(s, steps), step)
    decreases |steps|
  {
    if steps == [] {
      assert [] + [step] == [step];
      assert [step][1..] == [];
    } else {
      Extend(Apply(s, steps[0]), steps[1..], step);
      assert (steps + [step])[1..] == steps[1..] + [step];
    }
  }

  lemma FailedPosts(s: State, steps: seq<Step>, k: nat) returns (longer: seq<Step>)
    requires IsRun(s, steps) && After(s, steps).fwd == Posting(0) && k <= MAX_CONSECUTIVE_ERRORS
    ensures IsRun(s, longer) && After(s, longer) == After(s, steps).(fwd := Posting(k))
  {
    longer := steps;
    for i := 0 to k
      invariant IsRun(s, longer) && After(s, longer) == After(s, steps).(fwd := Posting(i))
    {
      Extend(s, longer, PostFails);
      longer := longer + [PostFails];
    }
  }

  /** Goroutine 1 sends one message, up to having handed it to the forwarder and unlocked. */
  lemma OneSend(quota: nat) returns (steps: seq<Step>)
    requires 0 < quota
    ensures var s0 := Init(1, quota);
            IsRun(s0, steps) && After(s0, steps) == s0.(quota := quota - 1, fwd := Posting(0))
  {
    var s0 := Init(1, quota);
    steps := [];
    Extend(s0, steps, Call(1, Send));
    steps := steps + [Call(1, Send)];
    Extend(s0, steps, Lock(1));
    steps := steps + [Lock(1)];
    Extend(s0, steps, CheckFlag(1));
    steps := steps + [CheckFlag(1)];
    Extend(s0, steps, Forward(1));
    steps := steps + [Forward(1)];
    Extend(s0, steps, Unlock(1));
    steps := steps + [Unlock(1)];
    assert After(s0, steps).callers == [Idle, Idle];
    assert s0.callers == [Idle, Idle];
  }

  /** The forwarder gives up; the next sender finds nobody to take its message. */
  lemma NextSend(s0: State, steps: seq<Step>) returns (longer: seq<Step>)
    requires IsRun(s0, steps)
    requires var s := After(s0, steps);
             s.fwd == Posting(MAX_CONSECUTIVE_ERRORS) && s.callers == [Idle, Idle] && s.quota == 1 && s.mtx.None? && !s.sendChClosed
    ensures IsRun(s0, longer)
    ensures After(s0, longer) ==
              After(s0, steps).(fwd := FwdExited(true), stopClosed := true, quota := 0, mtx := Some(1), callers := [Idle, Sending])
  {
    longer := steps;
    Extend(s0, longer, GiveUp);
    longer := longer + [GiveUp];
    Extend(s0, longer, CloseStop);
    longer := longer + [CloseStop];
    Extend(s0, longer, Call(1, Send));
    longer := longer + [Call(1, Send)];
    Extend(s0, longer, Lock(1));
    longer := longer + [Lock(1)];
    Extend(s0, longer, CheckFlag(1));
    longer := longer + [CheckFlag(1)];
    assert After(s0, longer).callers == [Idle, Sending];
  }

  /** The poller is told to stop, and the receive loop then waits for the mutex. */
  lemma PollerStops(s0: State, steps: seq<Step>) returns (longer: seq<Step>)
    requires IsRun(s0, steps)
    requires var s := After(s0, steps);
             s.stopClosed && s.poll.Polling? && s.recv.RecvRanging? && s.callers == [Idle, Sending]
    ensures IsRun(s0, longer)
    ensures After(s0, longer) ==
              After(s0, steps).(poll := PollExited, errCount := 0, recvClosed := true, recv := Shutting, callers := [Waiting(Close), Sending])
  {
    longer := steps;
    Extend(s0, longer, PollOk([]));
    longer := longer + [PollOk([])];
    Extend(s0, longer, BatchDone);
    longer := longer + [BatchDone];
    Extend(s0, longer, StopSeen);
    longer := longer + [StopSeen];
    Extend(s0, longer, CloseSink);
    longer := longer + [CloseSink];
    Extend(s0, longer, RecvChClosed);
    longer := longer + [RecvChClosed];
    assert After(s0, longer).callers == [Waiting(Close), Sending];
  }

  lemma NobodyCanMove(s: State)
    requires s.callers == [Waiting(Close), Sending] && s.mtx == Some(1)
    requires s.fwd.FwdExited? && s.poll.PollExited? && s.recv.Shutting?
    ensures Halted(s) && SomeoneSending(s)
  {
    assert s.callers[1].Sending?;
  }

  /** Ten failed posts in a row, and the next sender holds the mutex forever. */
  lemma ShutdownCanHang() returns (steps: seq<Step>)
    ensures IsRun(Init(1, 2), steps)
    ensures var s := After(Init(1, 2), steps);
            Halted(s) && !AllEnded(s) && !s.recv.RecvFailed? && s.fwd == FwdExited(true) && SomeoneSending(s)
  {
    var s0 := Init(1, 2);
    assert s0.callers == [Idle, Idle];
    steps := OneSend(2);
    steps := FailedPosts(s0, steps, MAX_CONSECUTIVE_ERRORS);
    steps := NextSend(s0, steps);
    steps := PollerStops(s0, steps);
    NobodyCanMove(After(s0, steps));
  }

  // Runs in which the receive loop fails.

  /** The receive loop fails on the first message of a batch. */
  lemma FirstMessageFails(batch: seq<bool>) returns (steps: seq<Step>)
    requires batch != [] && batch[0]
    ensures var s0 := Init(1, 1);
            IsRun(s0, steps) && After(s0, steps) == s0.(poll := Delivering(batch[1..]), recv := RecvFailed)
  {
    var s0 := Init(1, 1);
    steps := [];
    Extend(s0, steps, PollOk(batch));
    steps := steps + [PollOk(batch)];
    Extend(s0, steps, Deliver);
    steps := steps + [Deliver];
    Extend(s0, steps, HandlingFails);
    steps := steps + [HandlingFails];
  }

  /** Goroutine 1 closes SendCh, from start to end. */
  lemma CloseCompletes(s0: State, steps: seq<Step>) returns (longer: seq<Step>)
    requires IsRun(s0, steps)
    requires var s := After(s0, steps);
             s.callers == [Idle, Idle] && s.quota == 1 && s.mtx.None? && !s.sendChClosed
    ensures IsRun(s0, longer)
    ensures After(s0, longer) == After(s0, steps).(quota := 0, sendClosed := true, sendChClosed := true)
  {
    longer := steps;
    Extend(s0, longer, Call(1, Close));
    longer := longer + [Call(1, Close)];
    Extend(s0, longer, Lock(1));
    longer := longer + [Lock(1)];
    Extend(s0, longer, CheckFlag(1));
    longer := longer + [CheckFlag(1)];
    Extend(s0, longer, CloseSendCh(1));
    longer := longer + [CloseSendCh(1)];
    Extend(s0, longer, SetFlag(1));
    longer := longer + [SetFlag(1)];
    Extend(s0, longer, Unlock(1));
    longer := longer + [Unlock(1)];
    assert After(s0, longer).callers == [Idle, Idle];
  }

  /** The forwarder sees SendCh closed and closes the stop channel. */
  lemma ForwarderDrains(s0: State, steps: seq<Step>) returns (longer: seq<Step>)
    requires IsRun(s0, steps)
    requires After(s0, steps).fwd.FwdReceiving? && After(s0, steps).sendClosed
    ensures IsRun(s0, longer)
    ensures After(s0, longer) == After(s0, steps).(fwd := FwdExited(false), stopClosed := true)
  {
    longer := steps;
    Extend(s0, longer, SendChDrained);
    longer := longer + [SendChDrained];
    Extend(s0, longer, CloseStop);
    longer := longer + [CloseStop];
  }

  /** The receive loop fails, SendCh is closed, and the poller is left with a message forever. */
  lemma ReceiveErrorCanHang() returns (steps: seq<Step>)
    ensures IsRun(Init(1, 1), steps)
    ensures var s := After(Init(1, 1), steps);
            Halted(s) && !AllEnded(s) && PollerStuck(s) && s.sendClosed && s.stopClosed
  {
    var s0 := Init(1, 1);
    assert s0.callers == [Idle, Idle];
    steps := FirstMessageFails([true, true]);
    assert [true, true][1..] == [true];
    steps := CloseCompletes(s0, steps);
    steps := ForwarderDrains(s0, steps);
    PollerAlone(After(s0, steps));
  }

  /** The receive loop fails, and with no message left everything else still ends. */
  lemma ReceiveErrorCanEnd() returns (steps: seq<Step>)
    ensures IsRun(Init(1, 1), steps)
    ensures var s := After(Init(1, 1), steps);
            Halted(s) && AllEnded(s) && s.recv.RecvFailed?
  {
    var s0 := Init(1, 1);
    assert s0.callers == [Idle, Idle];
    steps := FirstMessageFails([true]);
    steps := CloseCompletes(s0, steps);
    steps := ForwarderDrains(s0, steps);
    Extend(s0, steps, BatchDone);
    steps := steps + [BatchDone];
    Extend(s0, steps, StopSeen);
    steps := steps + [StopSeen];
    Extend(s0, steps, CloseSink);
    steps := steps + [CloseSink];
    NobodyLeft(After(s0, steps));
  }

  lemma PollerAlone(s: State)
    requires s.callers == [Idle, Idle] && s.quota == 0 && s.fwd.FwdExited?
    requires s.recv.RecvFailed? && s.poll == Delivering([true])
    ensures Halted(s)
  {
  }

  lemma NobodyLeft(s: State)
    requires s.callers == [Idle, Idle] && s.quota == 0 && s.fwd.FwdExited?
    requires s.recv.RecvFailed? && s.poll.PollExited?
    ensures Halted(s) && AllEnded(s)
  {
  }
}
