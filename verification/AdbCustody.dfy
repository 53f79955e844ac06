/** Who owns each socket and channel of the ADB forwarder, in every interleaving. */
module AdbCustody {
  import opened Wrappers
  import opened AdbForwarder

  ghost predicate InStop(c: Caller) {
    c.StopDc? || c.StopListener? || c.StopConn?
  }

  /** The mutex is held by the goroutine inside StopForwarding, which has closed what it has passed. */
  ghost predicate Locking(core: Core, mtx: Option<nat>, callers: seq<Caller>) {
    && (forall i: nat :: i < |callers| && InStop(callers[i]) ==> mtx == Some(i))
    && (forall i: nat :: i < |callers| && callers[i].StopWaiting? ==> Over(callers[i].target))
    && (mtx.Some? ==> mtx.value < |callers| && InStop(callers[mtx.value]) && Over(core.st))
    && (Over(core.st) ==> StoppedAsFar(core, if mtx.Some? then callers[mtx.value] else Idle))
  }

  /** In a final state everything is closed but what the goroutine `c` inside StopForwarding has still to close. */
  ghost predicate StoppedAsFar(core: Core, c: Caller) {
    && (!c.StopDc? ==> !core.dcOpen)
    && (!c.StopDc? && !c.StopListener? ==> !core.listenerOpen)
    && (!InStop(c) && core.conn.Some? ==> core.conn.value < |core.conns| && !core.conns[core.conn.value])
  }

  /** The Initializing-to-Ready swap succeeds at most once, so there is at most one accept loop. */
  ghost predicate OneLoop(st: Fwd, callers: seq<Caller>, loops: seq<Loop>) {
    && |loops| <= 1
    && (forall i: nat :: i < |callers| && callers[i].Spawning? ==> loops == [] && !st.Initializing?)
    && (forall i: nat, j: nat :: i < |callers| && j < |callers| && callers[i].Spawning? && callers[j].Spawning? ==> i == j)
    && (st.Initializing? ==> loops == [])
    && (st.Connected? ==> |loops| == 1 && (loops[0].Serving? || loops[0].ClosingServed? || loops[0].Rearming?))
  }

  /** The connection the accept loop has in its hands. */
  ghost predicate InHand(core: Core, loop: Loop, c: nat) {
    match loop
    case Registering(d) => c == d && core.conn != Some(d)
    case Dropping(d) => c == d && core.conn != Some(d)
    case Serving(d) => c == d && core.conn == Some(d)
    case ClosingServed(d) => c == d && core.conn == Some(d)
    case _ => false
  }

  /**
   * Every accepted connection that is open is either the accept loop's unregistered local, or is
   * f.conn and served by that loop.
   */
  ghost predicate Custody(core: Core, loops: seq<Loop>) {
    && (core.conn.Some? ==> core.conn.value < |core.conns|)
    && (forall c: nat :: c < |core.conns| && core.conns[c] ==> loops != [] && InHand(core, loops[0], c))
    && (loops != [] && HasConn(loops[0]) ==> loops[0].c < |core.conns| && InHand(core, loops[0], loops[0].c))
    && (loops != [] && loops[0].Dropping? ==> Over(core.st))
    && (loops != [] && loops[0].LoopReturned? ==> !core.listenerOpen)
  }

  ghost predicate HasConn(loop: Loop) {
    loop.Registering? || loop.Dropping? || loop.Serving? || loop.ClosingServed?
  }

  /** readyCh is closed by the one goroutine that won the flag. */
  ghost predicate ReadyChannel(callers: seq<Caller>, flag: bool, closes: nat) {
    && closes <= 1
    && (!flag ==> closes == 0)
    && (forall i: nat :: i < |callers| && callers[i].ClosingReady? ==> flag && closes == 0)
    && (forall i: nat, j: nat :: i < |callers| && j < |callers| && callers[i].ClosingReady? && callers[j].ClosingReady? ==> i == j)
  }

  /** The control socket is closed only behind a finished StopForwarding. */
  ghost predicate ControlSocket(st: Fwd, callers: seq<Caller>, controlOpen: bool, control: Control) {
    && (!controlOpen ==> Over(st))
    && (forall i: nat :: i < |callers| && (InStop(callers[i]) || callers[i].ClosingControl?) ==> Over(st))
    && (control.RunReturned? ==> !controlOpen)
  }

  ghost predicate Inv(s: State) {
    && Locking(s.core, s.mtx, s.callers)
    && OneLoop(s.core.st, s.callers, s.loops)
    && Custody(s.core, s.loops)
    && ReadyChannel(s.callers, s.readyFlag, s.readyCloses)
    && ControlSocket(s.core.st, s.callers, s.controlOpen, s.control)
  }

  lemma InvInit(n: nat)
    ensures Inv(Init(n))
  {
  }

  // The accept loop's steps.

  /** What a step of the accept loop leaves alone. */
  lemma LoopLeaves(s: State, step: Step)
    requires |s.loops| <= 1 && Enabled(s, step) && ByLoop(step)
    ensures var s' := ApplyLoop(s, step);
            && s'.mtx == s.mtx && s'.callers == s.callers
            && s'.readyFlag == s.readyFlag && s'.readyCloses == s.readyCloses
            && s'.controlOpen == s.controlOpen && s'.control == s.control
            && |s'.loops| == |s.loops| == 1
            && s'.core.dcOpen == s.core.dcOpen && (s'.core.listenerOpen ==> s.core.listenerOpen)
            && (forall c: nat :: c < |s.core.conns| && !s.core.conns[c] ==> c < |s'.core.conns| && !s'.core.conns[c])
  {
  }

  /** How a step of the accept loop moves the state. */
  lemma LoopMoves(s: State, step: Step)
    requires OneLoop(s.core.st, s.callers, s.loops) && Enabled(s, step) && ByLoop(step)
    ensures var s' := ApplyLoop(s, step);
            && |s'.loops| == 1
            && (s'.core.st != s.core.st ==> s.mtx.None? && !Over(s.core.st) && !Over(s'.core.st) && !s.core.st.Initializing? && !s'.core.st.Initializing?)
            && (s'.core.conn != s.core.conn ==> s.core.st.Ready?)
            && (s'.core.st.Connected? ==> s'.loops[0].Serving? || s'.loops[0].ClosingServed? || s'.loops[0].Rearming?)
  {
  }

  lemma LoopKeepsCustody(s: State, step: Step)
    requires Locking(s.core, s.mtx, s.callers) && OneLoop(s.core.st, s.callers, s.loops) && Custody(s.core, s.loops)
    requires Enabled(s, step) && ByLoop(step)
    ensures Custody(ApplyLoop(s, step).core, ApplyLoop(s, step).loops)
  {
    if step.Accept? || step.SetConnection? || step.Drop? || step.CloseServed? {
      ConnKeepsCustody(s, step);
    } else {
      MoveKeepsCustody(s, step);
    }
  }

  lemma ConnKeepsCustody(s: State, step: Step)
    requires |s.loops| <= 1 && Custody(s.core, s.loops) && Enabled(s, step)
    requires step.Accept? || step.SetConnection? || step.Drop? || step.CloseServed?
    requires s.loops != [] && s.core.st.Connected? ==> s.loops[0].Serving? || s.loops[0].ClosingServed? || s.loops[0].Rearming?
    requires s.core.st.Initializing? ==> s.loops == []
    ensures Custody(ApplyLoop(s, step).core, ApplyLoop(s, step).loops)
  {
  }

  lemma MoveKeepsCustody(s: State, step: Step)
    requires |s.loops| <= 1 && Custody(s.core, s.loops) && Enabled(s, step) && ByLoop(step)
    requires s.loops != [] && s.loops[0].Checking? && s.mtx.None? ==> s.core.st.Ready? || !s.core.listenerOpen
    requires !step.Accept? && !step.SetConnection? && !step.Drop? && !step.CloseServed?
    ensures Custody(ApplyLoop(s, step).core, ApplyLoop(s, step).loops)
  {
  }

  lemma LoopStep(s: State, step: Step)
    requires Inv(s) && Enabled(s, step) && ByLoop(step)
    ensures Inv(ApplyLoop(s, step))
  {
    LoopLeaves(s, step);
    LoopMoves(s, step);
    LoopKeepsCustody(s, step);
  }

  // The steps of StopForwarding.

  lemma StopKeepsLocking(s: State, step: Step)
    requires Inv(s) && Enabled(s, step) && ByStop(step)
    ensures Locking(ApplyStop(s, step).core, ApplyStop(s, step).mtx, ApplyStop(s, step).callers)
  {
    if step.EnterStop? {
      EnterKeepsLocking(s, step.i);
    } else {
      CloseKeepsLocking(s, step);
    }
  }

  lemma EnterKeepsLocking(s: State, i: nat)
    requires Inv(s) && Enabled(s, EnterStop(i))
    ensures var s' := ApplyStop(s, EnterStop(i));
            Locking(s'.core, s'.mtx, s'.callers)
  {
  }

  lemma CloseKeepsLocking(s: State, step: Step)
    requires Inv(s) && Enabled(s, step) && ByStop(step) && !step.EnterStop?
    ensures Locking(ApplyStop(s, step).core, ApplyStop(s, step).mtx, ApplyStop(s, step).callers)
  {
  }

  /** What the steps of StopForwarding do to the connections and to the other goroutines. */
  lemma StopShape(s: State, step: Step)
    requires Inv(s) && Enabled(s, step) && ByStop(step)
    ensures var s' := ApplyStop(s, step);
            && s'.loops == s.loops && s'.core.conn == s.core.conn
            && |s'.core.conns| == |s.core.conns|
            && (forall c: nat :: c < |s.core.conns| && s'.core.conns[c] ==> s.core.conns[c])
            && (s'.core.st == s.core.st || Over(s'.core.st))
            && (Over(s.core.st) ==> Over(s'.core.st))
            && s'.readyFlag == s.readyFlag && s'.readyCloses == s.readyCloses
            && s'.controlOpen == s.controlOpen && s'.control == s.control
            && s'.callers == s.callers[step.i := s'.callers[step.i]]
            && !s'.callers[step.i].Spawning? && !s'.callers[step.i].ClosingReady?
            && (InStop(s'.callers[step.i]) || s'.callers[step.i].ClosingControl? ==> Over(s'.core.st))
  {
  }

  lemma StopStep(s: State, step: Step)
    requires Inv(s) && Enabled(s, step) && ByStop(step)
    ensures Inv(ApplyStop(s, step))
  {
    StopKeepsLocking(s, step);
    StopShape(s, step);
  }

  // The callbacks and the control loop.

  ghost predicate ByOpen(step: Step) {
    step.SwapToReady? || step.Spawn?
  }

  lemma OpenStep(s: State, step: Step)
    requires Inv(s) && Enabled(s, step) && ByOpen(step)
    ensures Inv(ApplyCallback(s, step))
  {
    OpenKeepsSockets(s, step);
    OpenKeepsRest(s, step);
  }

  lemma OpenKeepsSockets(s: State, step: Step)
    requires Inv(s) && Enabled(s, step) && ByOpen(step)
    ensures var s' := ApplyCallback(s, step);
            Locking(s'.core, s'.mtx, s'.callers) && Custody(s'.core, s'.loops)
  {
  }

  lemma OpenKeepsRest(s: State, step: Step)
    requires Inv(s) && Enabled(s, step) && ByOpen(step)
    ensures var s' := ApplyCallback(s, step);
            && OneLoop(s'.core.st, s'.callers, s'.loops)
            && ReadyChannel(s'.callers, s'.readyFlag, s'.readyCloses)
            && ControlSocket(s'.core.st, s'.callers, s'.controlOpen, s'.control)
  {
  }

  /** The remaining steps leave the sockets, the mutex and the accept loop alone. */
  lemma QuietShape(s: State, step: Step)
    requires Enabled(s, step) && !ByLoop(step) && !ByStop(step) && !ByOpen(step)
    ensures var s' := ApplyCallback(s, step);
            && s'.core == s.core && s'.mtx == s.mtx && s'.loops == s.loops && |s'.callers| == |s.callers|
            && forall i: nat :: i < |s.callers| ==>
                 && InStop(s'.callers[i]) == InStop(s.callers[i])
                 && (InStop(s.callers[i]) ==> s'.callers[i] == s.callers[i])
                 && (s'.callers[i].StopWaiting? && s'.callers[i] != s.callers[i] ==> Over(s'.callers[i].target))
                 && (s'.callers[i].Spawning? ==> s.callers[i].Spawning?)
                 && (s'.callers[i].ClosingControl? ==> s.callers[i].ClosingControl?)
  {
  }

  lemma QuietChannels(s: State, step: Step)
    requires Inv(s) && Enabled(s, step) && !ByLoop(step) && !ByStop(step) && !ByOpen(step)
    ensures var s' := ApplyCallback(s, step);
            && ReadyChannel(s'.callers, s'.readyFlag, s'.readyCloses)
            && (!s'.controlOpen ==> Over(s.core.st)) && (s'.control.RunReturned? ==> !s'.controlOpen)
  {
  }

  lemma InvStep(s: State, step: Step)
    requires Inv(s) && Enabled(s, step)
    ensures Inv(Apply(s, step))
  {
    if ByLoop(step) {
      LoopStep(s, step);
    } else if ByStop(step) {
      StopStep(s, step);
    } else if ByOpen(step) {
      OpenStep(s, step);
    } else {
      QuietShape(s, step);
      QuietChannels(s, step);
    }
  }
}
