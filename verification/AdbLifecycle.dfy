/** The lifecycle of the ADB forwarder over whole runs. */
module AdbLifecycle {
  import opened AdbForwarder
  import opened AdbCustody

  lemma {:induction false} RunKeeps(s: State, steps: seq<Step>)
    requires Inv(s) && IsRun(s, steps)
    ensures Inv(After(s, steps))
    decreases |steps|
  {
    if steps == [] {
    } else {
      InvStep(s, steps[0]);
      RunKeeps(Apply(s, steps[0]), steps[1..]);
    }
  }

  /**
   * Connection custody: in every reachable state at most one accepted connection is open, and it is
   * f.conn under the single accept loop or that loop's unregistered local; the state is Connected
   * only while that loop is on the registered connection; whenever the mutex is
   * free in a final state the data channel, the listener and f.conn are closed; and once the accept
   * loop has returned, the listener and every connection are.
   */
  lemma ConnectionCustody(n: nat, steps: seq<Step>)
    requires IsRun(Init(n), steps)
    ensures var s := After(Init(n), steps);
            && |s.loops| <= 1
            && (forall c: nat :: c < |s.core.conns| && s.core.conns[c] ==> |s.loops| == 1 && InHand(s.core, s.loops[0], c))
            && (forall c: nat, d: nat :: c < |s.core.conns| && d < |s.core.conns| && s.core.conns[c] && s.core.conns[d] ==> c == d)
            && (s.core.st.Connected? ==> |s.loops| == 1 && (s.loops[0].Serving? || s.loops[0].ClosingServed? || s.loops[0].Rearming?))
            && (Over(s.core.st) && s.mtx.None? ==> StoppedAsFar(s.core, Idle))
            && (s.loops != [] && s.loops[0].LoopReturned? ==>
                  !s.core.listenerOpen && forall c :: 0 <= c < |s.core.conns| ==> !s.core.conns[c])
  {
    InvInit(n);
    RunKeeps(Init(n), steps);
    var s := After(Init(n), steps);
    assert forall c: nat :: c < |s.core.conns| && s.core.conns[c] ==> InHand(s.core, s.loops[0], c);
  }

  /** readyCh is closed at most once, and never by a goroutine that finds it closed. */
  lemma ReadyChannelSafety(n: nat, steps: seq<Step>)
    requires IsRun(Init(n), steps)
    ensures var s := After(Init(n), steps);
            && s.readyCloses <= 1
            && (forall i :: 0 <= i < |s.callers| && s.callers[i].ClosingReady? ==> s.readyCloses == 0)
  {
    InvInit(n);
    RunKeeps(Init(n), steps);
  }

  /** The control loop returns, and its socket is closed, only when the forwarder is Stopped or Failed. */
  lemma RunReturnsOnlyWhenOver(n: nat, steps: seq<Step>)
    requires IsRun(Init(n), steps)
    ensures var s := After(Init(n), steps);
            s.control.RunReturned? ==> !s.controlOpen && Over(s.core.st)
  {
    InvInit(n);
    RunKeeps(Init(n), steps);
  }

  // How the state moves.

  /** One step moves the state along the arrows of the machine only. */
  lemma StateArrows(s: State, step: Step)
    requires Inv(s) && Enabled(s, step)
    ensures var t := Apply(s, step).core.st;
            || t == s.core.st
            || (s.core.st.Initializing? && t.Ready? && step.SwapToReady?)
            || (s.core.st.Ready? && t.Connected?)
            || (s.core.st.Connected? && t.Ready?)
            || Over(t)
    ensures Over(s.core.st) ==> Over(Apply(s, step).core.st)
  {
    if ByStop(step) {
      StopShape(s, step);
    } else if !ByLoop(step) && !ByOpen(step) {
      QuietShape(s, step);
    }
  }

  /** Stopped and Failed are never left, other than for one another. */
  lemma {:induction false} OverForever(s: State, steps: seq<Step>)
    requires Inv(s) && IsRun(s, steps) && Over(s.core.st)
    ensures Over(After(s, steps).core.st)
    decreases |steps|
  {
    if steps == [] {
    } else {
      InvStep(s, steps[0]);
      StateArrows(s, steps[0]);
      OverForever(Apply(s, steps[0]), steps[1..]);
    }
  }

  /** How often the Initializing-to-Ready swap succeeds in a run. */
  ghost function Opens(s: State, steps: seq<Step>): nat
    requires IsRun(s, steps)
    decreases |steps|
  {
    if steps == [] then 0
    else (if steps[0].SwapToReady? && s.core.st.Initializing? then 1 else 0) + Opens(Apply(s, steps[0]), steps[1..])
  }

  lemma {:induction false} OpensAtMostOnce(s: State, steps: seq<Step>)
    requires Inv(s) && IsRun(s, steps)
    ensures Opens(s, steps) <= (if s.core.st.Initializing? then 1 else 0)
    decreases |steps|
  {
    if steps == [] {
    } else {
      InvStep(s, steps[0]);
      StateArrows(s, steps[0]);
      OpensAtMostOnce(Apply(s, steps[0]), steps[1..]);
    }
  }

  // Winding down.

  ghost predicate SomeoneSpawning(s: State) {
    exists i :: 0 <= i < |s.callers| && s.callers[i].Spawning?
  }

  function LoopRank(loop: Loop): nat {
    match loop
    case Serving(_) => 5
    case ClosingServed(_) => 4
    case Rearming => 3
    case Registering(_) => 3
    case Dropping(_) => 2
    case Accepting => 2
    case Leaving => 1
    case Checking => 1
    case LoopReturned => 0
  }

  ghost function Rank(s: State): nat {
    if |s.loops| == 1 then LoopRank(s.loops[0]) else if SomeoneSpawning(s) then 2 else 0
  }

  /** Once stopped, the accept loop's steps lead to its end and nothing else sets it back. */
  lemma WindingDown(s: State, step: Step)
    requires Inv(s) && Enabled(s, step) && Over(s.core.st) && !s.core.listenerOpen
    ensures Over(Apply(s, step).core.st) && !Apply(s, step).core.listenerOpen
    ensures Rank(Apply(s, step)) <= Rank(s)
    ensures ByLoop(step) ==> Rank(Apply(s, step)) < Rank(s)
  {
    StateArrows(s, step);
    if ByLoop(step) {
      LoopLeaves(s, step);
      LoopWindsDown(s, step);
    } else if ByStop(step) {
      StopShape(s, step);
      StopKeepsClosed(s, step);
    } else if ByOpen(step) {
      OpenWindsDown(s, step);
    } else {
      QuietShape(s, step);
    }
  }

  lemma LoopWindsDown(s: State, step: Step)
    requires |s.loops| == 1 && Enabled(s, step) && ByLoop(step) && Over(s.core.st) && !s.core.listenerOpen
    ensures |ApplyLoop(s, step).loops| == 1
    ensures LoopRank(ApplyLoop(s, step).loops[0]) < LoopRank(s.loops[0])
  {
  }

  lemma StopKeepsClosed(s: State, step: Step)
    requires Enabled(s, step) && ByStop(step) && !s.core.listenerOpen
    ensures !ApplyStop(s, step).core.listenerOpen
  {
  }

  lemma OpenWindsDown(s: State, step: Step)
    requires Inv(s) && Enabled(s, step) && ByOpen(step) && Over(s.core.st)
    ensures var s' := ApplyCallback(s, step);
            s'.core == s.core && Rank(s') <= Rank(s)
  {
  }

  ghost function LoopSteps(steps: seq<Step>): nat {
    if steps == [] then 0 else (if ByLoop(steps[0]) then 1 else 0) + LoopSteps(steps[1..])
  }

  lemma {:induction false} WindingDownRun(s: State, steps: seq<Step>)
    requires Inv(s) && IsRun(s, steps) && Over(s.core.st) && !s.core.listenerOpen
    ensures LoopSteps(steps) + Rank(After(s, steps)) <= Rank(s)
    decreases |steps|
  {
    if steps == [] {
    } else {
      InvStep(s, steps[0]);
      WindingDown(s, steps[0]);
      WindingDownRun(Apply(s, steps[0]), steps[1..]);
    }
  }

  /** The step does not wait for a peer: an accept or a read in it fails because its socket is closed. */
  ghost predicate Unblocked(s: State, step: Step) {
    && (step.AcceptFails? ==> !s.core.listenerOpen)
    && (step.ReadEnds? && step.l < |s.loops| && s.loops[step.l].Serving? ==>
          s.loops[step.l].c < |s.core.conns| && !s.core.conns[s.loops[step.l].c])
  }

  /**
   * Once a StopForwarding has finished, the accept loop takes at most five more steps, and until it
   * has returned it, or whoever holds the mutex, can take one that waits for no peer.
   */
  lemma StopEndsTheLoop(n: nat, steps: seq<Step>, more: seq<Step>)
    requires IsRun(Init(n), steps) && IsRun(After(Init(n), steps), more)
    requires Over(After(Init(n), steps).core.st) && After(Init(n), steps).mtx.None?
    ensures LoopSteps(more) <= 5
    ensures var s := After(After(Init(n), steps), more);
            s.loops == [] || s.loops[0].LoopReturned? ||
            exists step :: (ByLoop(step) || ByStop(step)) && Enabled(s, step) && Unblocked(s, step)
  {
    InvInit(n);
    RunKeeps(Init(n), steps);
    var s0 := After(Init(n), steps);
    WindingDownRun(s0, more);
    RunKeeps(s0, more);
    OverForever(s0, more);
    var s := After(s0, more);
    if s.loops != [] && !s.loops[0].LoopReturned? {
      var step := UnblockedStep(s);
    }
  }

  lemma UnblockedStep(s: State) returns (step: Step)
    requires Inv(s) && Over(s.core.st) && s.loops != [] && !s.loops[0].LoopReturned?
    ensures (ByLoop(step) || ByStop(step)) && Enabled(s, step) && Unblocked(s, step)
  {
    if s.mtx.Some? {
      var c := s.callers[s.mtx.value];
      step := if c.StopDc? then CloseDc(s.mtx.value) else if c.StopListener? then CloseListener(s.mtx.value) else CloseRegistered(s.mtx.value);
    } else {
      match s.loops[0]
      case Checking => step := LoopCheck(0);
      case Accepting => step := AcceptFails(0);
      case Registering(_) => step := SetConnection(0);
      case Dropping(_) => step := Drop(0);
      case Serving(_) => step := ReadEnds(0);
      case ClosingServed(_) => step := CloseServed(0);
      case Rearming => step := Rearm(0);
      case Leaving => step := Leave(0);
    }
  }
}
