/** Every request made of the ADB forwarder is served: to stop, to become ready, to end the control loop. */
module AdbHistory {
  import opened AdbForwarder
  import opened AdbCustody

  /** Which requests the steps of a run made, and whether Run returned. */
  datatype History = History(stop: bool, ready: bool, control: bool, runEnds: bool)

  const NOTHING_YET := History(false, false, false, false)

  /** The data channel closing asks for both; an opened one that starts the accept loop is ready. */
  function Observe(h: History, step: Step): History {
    match step
    case StopCalled(_, _) => h.(stop := true)
    case DataChannelCloses(_) => h.(stop := true, ready := true)
    case StopCommand => h.(stop := true, control := true)
    case Spawn(_) => h.(ready := true)
    case RunEnds => h.(runEnds := true)
    case _ => h
  }

  function ObserveAll(h: History, steps: seq<Step>): History
    decreases |steps|
  {
    if steps == [] then h else ObserveAll(Observe(h, steps[0]), steps[1..])
  }

  /** What the goroutine will do when StopForwarding returns, if it is in there. */
  function Afterwards(c: Caller): Then {
    match c
    case StopWaiting(_, t) => t
    case StopDc(t) => t
    case StopListener(t) => t
    case StopConn(t) => t
    case _ => ThenNothing
  }

  ghost predicate SomeoneStopping(cs: seq<Caller>) {
    exists i :: 0 <= i < |cs| && cs[i].StopWaiting?
  }

  ghost predicate SomeoneReadying(cs: seq<Caller>) {
    exists i :: 0 <= i < |cs| && Readying(cs[i])
  }

  ghost predicate SomeoneClosingReady(cs: seq<Caller>) {
    exists i :: 0 <= i < |cs| && cs[i].ClosingReady?
  }

  ghost predicate SomeoneEndingControl(cs: seq<Caller>) {
    exists i :: 0 <= i < |cs| && EndingControl(cs[i])
  }

  ghost predicate StopServed(st: Fwd, cs: seq<Caller>, h: History) {
    (h.stop <==> Over(st) || SomeoneStopping(cs))
  }

  ghost predicate ReadyServed(cs: seq<Caller>, flag: bool, closes: nat, h: History) {
    && (h.ready <==> flag || SomeoneReadying(cs))
    && (flag <==> closes == 1 || SomeoneClosingReady(cs))
  }

  ghost predicate ControlServed(cs: seq<Caller>, controlOpen: bool, control: Control, h: History) {
    && (h.control <==> !controlOpen || SomeoneEndingControl(cs))
    && (h.runEnds <==> control.RunReturned?)
  }

  ghost predicate Served(s: State, h: History) {
    && StopServed(s.core.st, s.callers, h)
    && ReadyServed(s.callers, s.readyFlag, s.readyCloses, h)
    && ControlServed(s.callers, s.controlOpen, s.control, h)
  }

  // Steps of the accept loop change none of this.

  lemma LoopServes(s: State, h: History, step: Step)
    requires Inv(s) && Served(s, h) && Enabled(s, step) && ByLoop(step)
    ensures Served(Apply(s, step), Observe(h, step))
  {
    LoopLeaves(s, step);
    LoopMoves(s, step);
  }

  /** The goroutine a step belongs to. */
  function Actor(step: Step): nat {
    match step
    case DataChannelOpens(i) => i
    case DataChannelCloses(i) => i
    case StopCalled(i, _) => i
    case SwapToReady(i) => i
    case Spawn(i) => i
    case SwapReadyFlag(i) => i
    case CloseReady(i) => i
    case EnterStop(i) => i
    case CloseDc(i) => i
    case CloseListener(i) => i
    case CloseRegistered(i) => i
    case CloseControl(i) => i
    case StatusQuery(i) => i
    case _ => 0
  }

  /** A step of another goroutine changes the caller that takes it and no other. */
  lemma OneCaller(s: State, step: Step)
    requires Enabled(s, step) && !ByLoop(step)
    ensures var cs := Apply(s, step).callers;
            |cs| == |s.callers| && forall j :: 0 <= j < |cs| && j != Actor(step) ==> cs[j] == s.callers[j]
  {
  }

  /** What a step means for the caller that takes it. */
  lemma StopShape(s: State, h: History, step: Step)
    requires (forall i :: 0 <= i < |s.callers| && s.callers[i].StopWaiting? ==> Over(s.callers[i].target)) && Enabled(s, step) && !ByLoop(step)
    ensures var s' := Apply(s, step);
            var h' := Observe(h, step);
            var i := Actor(step);
            && (h.stop ==> h'.stop) && (Over(s.core.st) ==> Over(s'.core.st))
            && (h'.stop && !h.stop ==> i < |s.callers| && s'.callers[i].StopWaiting?)
            && (Over(s'.core.st) && !Over(s.core.st) ==> i < |s.callers| && s.callers[i].StopWaiting?)
            && (i < |s.callers| && s'.callers[i].StopWaiting? && !s.callers[i].StopWaiting? ==> h'.stop)
            && (i < |s.callers| && s.callers[i].StopWaiting? && !s'.callers[i].StopWaiting? ==> Over(s'.core.st))
  {
  }

  lemma StopStep(s: State, h: History, step: Step)
    requires Inv(s) && StopServed(s.core.st, s.callers, h) && Enabled(s, step) && !ByLoop(step)
    ensures StopServed(Apply(s, step).core.st, Apply(s, step).callers, Observe(h, step))
  {
    OneCaller(s, step);
    StopShape(s, h, step);
    var cs := Apply(s, step).callers;
    if i :| 0 <= i < |s.callers| && s.callers[i].StopWaiting? {
      assert i != Actor(step) ==> cs[i].StopWaiting?;
    }
  }

  ghost predicate Readying(c: Caller) {
    c.ReadySwap? || Afterwards(c).ThenReadyCh?
  }

  lemma ReadyShape(s: State, h: History, step: Step)
    requires Enabled(s, step) && !ByLoop(step)
    ensures var s' := Apply(s, step);
            var h' := Observe(h, step);
            var i := Actor(step);
            && (h.ready ==> h'.ready) && (s.readyFlag ==> s'.readyFlag)
            && (h'.ready && !h.ready ==> i < |s.callers| && Readying(s'.callers[i]))
            && (s'.readyFlag && !s.readyFlag ==> i < |s.callers| && Readying(s.callers[i]) && s'.callers[i].ClosingReady?)
            && (i < |s.callers| && Readying(s'.callers[i]) && !Readying(s.callers[i]) ==> h'.ready)
            && (i < |s.callers| && Readying(s.callers[i]) && !Readying(s'.callers[i]) ==> s'.readyFlag)
            && (s'.readyCloses != s.readyCloses ==> i < |s.callers| && s.callers[i].ClosingReady?)
            && (i < |s.callers| && s.callers[i].ClosingReady? && !s'.callers[i].ClosingReady? ==> s'.readyCloses == s.readyCloses + 1)
            && (i < |s.callers| && s'.callers[i].ClosingReady? && !s.callers[i].ClosingReady? ==> s'.readyFlag)
  {
  }

  lemma ReadyStep(s: State, h: History, step: Step)
    requires Inv(s) && ReadyServed(s.callers, s.readyFlag, s.readyCloses, h) && Enabled(s, step) && !ByLoop(step)
    ensures ReadyServed(Apply(s, step).callers, Apply(s, step).readyFlag, Apply(s, step).readyCloses, Observe(h, step))
  {
    OneCaller(s, step);
    ReadyShape(s, h, step);
    InvStep(s, step);
    var cs := Apply(s, step).callers;
    if i :| 0 <= i < |s.callers| && Readying(s.callers[i]) {
      assert i != Actor(step) ==> Readying(cs[i]);
    }
    if i :| 0 <= i < |s.callers| && s.callers[i].ClosingReady? {
      assert i != Actor(step) ==> cs[i].ClosingReady?;
    }
  }

  ghost predicate EndingControl(c: Caller) {
    c.ClosingControl? || Afterwards(c).ThenControl?
  }

  lemma ControlShape(s: State, h: History, step: Step)
    requires Enabled(s, step) && !ByLoop(step)
    ensures var s' := Apply(s, step);
            var h' := Observe(h, step);
            var i := Actor(step);
            && (h.control ==> h'.control) && (!s.controlOpen ==> !s'.controlOpen)
            && (h'.control && !h.control ==> i < |s.callers| && EndingControl(s'.callers[i]))
            && (!s'.controlOpen && s.controlOpen ==> i < |s.callers| && EndingControl(s.callers[i]))
            && (i < |s.callers| && EndingControl(s'.callers[i]) && !EndingControl(s.callers[i]) ==> h'.control)
            && (i < |s.callers| && EndingControl(s.callers[i]) && !EndingControl(s'.callers[i]) ==> !s'.controlOpen)
  {
  }

  lemma RunShape(s: State, h: History, step: Step)
    requires Enabled(s, step) && !ByLoop(step) && (h.runEnds <==> s.control.RunReturned?)
    ensures Observe(h, step).runEnds <==> Apply(s, step).control.RunReturned?
  {
  }

  lemma ControlStep(s: State, h: History, step: Step)
    requires Inv(s) && ControlServed(s.callers, s.controlOpen, s.control, h) && Enabled(s, step) && !ByLoop(step)
    ensures ControlServed(Apply(s, step).callers, Apply(s, step).controlOpen, Apply(s, step).control, Observe(h, step))
  {
    OneCaller(s, step);
    ControlShape(s, h, step);
    RunShape(s, h, step);
    var cs := Apply(s, step).callers;
    if i :| 0 <= i < |s.callers| && EndingControl(s.callers[i]) {
      assert i != Actor(step) ==> EndingControl(cs[i]);
    }
  }

  lemma {:induction false} RunServes(s: State, h: History, steps: seq<Step>)
    requires Inv(s) && Served(s, h) && IsRun(s, steps)
    ensures Inv(After(s, steps)) && Served(After(s, steps), ObserveAll(h, steps))
    decreases |steps|
  {
    if steps == [] {
    } else {
      InvStep(s, steps[0]);
      if ByLoop(steps[0]) {
        LoopServes(s, h, steps[0]);
      } else {
        StopStep(s, h, steps[0]);
        ReadyStep(s, h, steps[0]);
        ControlStep(s, h, steps[0]);
      }
      RunServes(Apply(s, steps[0]), Observe(h, steps[0]), steps[1..]);
    }
  }

  /**
   * No request is lost and none is made up: in every run the forwarder is Stopped or Failed, or a
   * goroutine is about to make it so, exactly when a stop was asked for; readyCh has been closed, or is
   * about to be, exactly when the accept loop was started or the data channel closed; and the control
   * socket is closed, or about to be, exactly when the stop command came.
   */
  lemma RequestsAreServed(n: nat, steps: seq<Step>)
    requires IsRun(Init(n), steps)
    ensures Served(After(Init(n), steps), ObserveAll(NOTHING_YET, steps))
  {
    InvInit(n);
    RunServes(Init(n), NOTHING_YET, steps);
  }

  /** Where every goroutine is done with its callback, the state answers the requests exactly. */
  lemma QuietMeansServed(n: nat, steps: seq<Step>)
    requires IsRun(Init(n), steps)
    requires forall i :: 0 <= i < |After(Init(n), steps).callers| ==> After(Init(n), steps).callers[i].Idle?
    ensures var s := After(Init(n), steps);
            var h := ObserveAll(NOTHING_YET, steps);
            && (Over(s.core.st) <==> h.stop)
            && s.readyCloses == (if h.ready then 1 else 0)
            && (s.controlOpen <==> !h.control)
            && (s.control.RunReturned? <==> h.runEnds)
  {
    RequestsAreServed(n, steps);
    InvInit(n);
    RunServes(Init(n), NOTHING_YET, steps);
  }
}
