/** What the ADB forwarder can still be used for: serving connections, and being stopped. */
module AdbUse {
  import opened Wrappers
  import opened AdbForwarder
  import opened AdbCustody
  import opened AdbLifecycle

  // What else holds until the forwarder is stopped.

  ghost predicate SomeoneSpawns(cs: seq<Caller>) {
    exists i :: 0 <= i < |cs| && cs[i].Spawning?
  }

  predicate IsServing(loop: Loop) {
    loop.Serving? || loop.ClosingServed? || loop.Rearming?
  }

  /** The accept loop has returned, or is about to. */
  ghost predicate LoopLeft(loops: seq<Loop>) {
    loops != [] && (loops[0].Leaving? || loops[0].LoopReturned?)
  }

  /** In use: neither stopped nor left by its accept loop. */
  ghost predicate Usable(s: State) {
    !Over(s.core.st) && !LoopLeft(s.loops)
  }

  ghost predicate Live(core: Core, cs: seq<Caller>, loops: seq<Loop>) {
    && (core.st.Ready? && loops == [] ==> SomeoneSpawns(cs))
    && (!Over(core.st) && (loops == [] || !loops[0].LoopReturned?) ==> core.listenerOpen)
    && (!Over(core.st) && loops != [] && IsServing(loops[0]) ==> core.st.Connected?)
  }

  lemma LoopStaysLive(s: State, step: Step)
    requires OneLoop(s.core.st, s.callers, s.loops) && Custody(s.core, s.loops) && Live(s.core, s.callers, s.loops) && Enabled(s, step) && ByLoop(step)
    ensures Live(ApplyLoop(s, step).core, ApplyLoop(s, step).callers, ApplyLoop(s, step).loops)
  {
  }

  lemma StopStaysLive(s: State, step: Step)
    requires Inv(s) && Live(s.core, s.callers, s.loops) && Enabled(s, step) && ByStop(step)
    ensures Live(ApplyStop(s, step).core, ApplyStop(s, step).callers, ApplyStop(s, step).loops)
  {
    StopShape(s, step);
    var s' := ApplyStop(s, step);
    if i :| 0 <= i < |s.callers| && s.callers[i].Spawning? {
      assert s'.callers[i].Spawning?;
    }
  }

  lemma CallbackStaysLive(s: State, step: Step)
    requires Inv(s) && Live(s.core, s.callers, s.loops) && Enabled(s, step) && !ByLoop(step) && !ByStop(step)
    ensures Live(ApplyCallback(s, step).core, ApplyCallback(s, step).callers, ApplyCallback(s, step).loops)
  {
    var s' := ApplyCallback(s, step);
    if step.SwapToReady? {
      assert s.core.st.Initializing? ==> s'.callers[step.i].Spawning?;
    }
    if i :| 0 <= i < |s.callers| && s.callers[i].Spawning? {
      assert step.Spawn? || s'.callers[i].Spawning?;
    }
  }

  lemma StaysLive(s: State, step: Step)
    requires Inv(s) && Live(s.core, s.callers, s.loops) && Enabled(s, step)
    ensures Live(Apply(s, step).core, Apply(s, step).callers, Apply(s, step).loops)
  {
    if ByLoop(step) {
      LoopStaysLive(s, step);
    } else if ByStop(step) {
      StopStaysLive(s, step);
    } else {
      CallbackStaysLive(s, step);
    }
  }

  lemma {:induction false} RunStaysLive(s: State, steps: seq<Step>)
    requires Inv(s) && Live(s.core, s.callers, s.loops) && IsRun(s, steps)
    ensures var s' := After(s, steps);
            Inv(s') && Live(s'.core, s'.callers, s'.loops)
    decreases |steps|
  {
    if steps == [] {
    } else {
      InvStep(s, steps[0]);
      StaysLive(s, steps[0]);
      RunStaysLive(Apply(s, steps[0]), steps[1..]);
    }
  }

  // Towards the next connection.

  /** A goroutine can run the data channel's open callback, or is already in it. */
  ghost predicate CanOpen(cs: seq<Caller>) {
    exists i :: 0 <= i < |cs| && (cs[i].OnOpen? || (0 < i && cs[i].Idle?))
  }

  ghost predicate SomeoneOpening(cs: seq<Caller>) {
    exists i :: 0 <= i < |cs| && cs[i].OnOpen?
  }

  ghost function ToGo(s: State): nat {
    if s.loops != [] then
      (match s.loops[0]
       case Registering(_) => 5
       case Serving(_) => 4
       case ClosingServed(_) => 3
       case Rearming => 2
       case Checking => 1
       case _ => 0)
    else if s.core.st.Ready? then 6
    else if SomeoneOpening(s.callers) then 7
    else 8
  }

  ghost predicate Ahead(s: State) {
    && Inv(s) && Live(s.core, s.callers, s.loops) && Usable(s)
    && (s.core.st.Initializing? ==> CanOpen(s.callers))
  }

  /** One step nearer to accepting. */
  lemma NextStep(s: State) returns (step: Step)
    requires Ahead(s) && (s.loops == [] || !s.loops[0].Accepting?)
    ensures Enabled(s, step)
    ensures var s' := Apply(s, step);
            Usable(s') && (s'.core.st.Initializing? ==> CanOpen(s'.callers)) && ToGo(s') < ToGo(s) && |s'.core.conns| == |s.core.conns|
  {
    if s.loops == [] {
      step := OpeningStep(s);
    } else {
      match s.loops[0]
      case Registering(_) => step := SetConnection(0);
      case Serving(_) => step := ReadEnds(0);
      case ClosingServed(_) => step := CloseServed(0);
      case Rearming => step := Rearm(0);
      case Checking => step := LoopCheck(0);
    }
  }

  lemma OpeningStep(s: State) returns (step: Step)
    requires Ahead(s) && s.loops == []
    ensures Enabled(s, step)
    ensures var s' := Apply(s, step);
            Usable(s') && (s'.core.st.Initializing? ==> CanOpen(s'.callers)) && ToGo(s') < ToGo(s) && |s'.core.conns| == |s.core.conns|
  {
    if s.core.st.Ready? {
      var i: nat :| i < |s.callers| && s.callers[i].Spawning?;
      step := Spawn(i);
    } else if SomeoneOpening(s.callers) {
      var i: nat :| i < |s.callers| && s.callers[i].OnOpen?;
      step := SwapToReady(i);
    } else {
      var i: nat :| i < |s.callers| && 0 < i && s.callers[i].Idle?;
      step := DataChannelOpens(i);
      assert Apply(s, step).callers[i].OnOpen?;
    }
  }

  /** Connected, with connection `c` open, registered and served by the accept loop. */
  ghost predicate Serves(s: State, c: nat) {
    && s.core.st.Connected? && s.core.conn == Some(c)
    && c < |s.core.conns| && s.core.conns[c]
    && s.loops == [Serving(c)]
  }

  /** The run ends with the next connection to be accepted being served. */
  ghost predicate LeadsToServing(s: State, more: seq<Step>) {
    IsRun(s, more) && Serves(After(s, more), |s.core.conns|)
  }

  lemma AcceptNext(s: State)
    requires Ahead(s) && s.loops != [] && s.loops[0].Accepting?
    ensures LeadsToServing(s, [Accept(0), SetConnection(0)])
  {
    var steps := [Accept(0), SetConnection(0)];
    var s1 := Apply(s, Accept(0));
    assert steps[1..] == [SetConnection(0)];
    assert [SetConnection(0)][1..] == [];
    assert Enabled(s1, SetConnection(0));
    assert IsRun(s1, steps[1..]) && After(s1, steps[1..]) == Apply(s1, SetConnection(0));
  }

  lemma {:induction false} ServingAhead(s: State) returns (more: seq<Step>)
    requires Ahead(s)
    ensures LeadsToServing(s, more)
    decreases ToGo(s)
  {
    if s.loops != [] && s.loops[0].Accepting? {
      AcceptNext(s);
      more := [Accept(0), SetConnection(0)];
    } else {
      var step := NextStep(s);
      InvStep(s, step);
      StaysLive(s, step);
      var rest := ServingAhead(Apply(s, step));
      more := [step] + rest;
      assert more[0] == step && more[1..] == rest;
    }
  }

  /** Once stopped or left by its accept loop, the forwarder stays so. */
  lemma UnusableStep(s: State, step: Step)
    requires Inv(s) && Enabled(s, step) && !Usable(s)
    ensures !Usable(Apply(s, step))
  {
    StateArrows(s, step);
    if ByLoop(step) {
      LoopLeaves(s, step);
    } else if ByStop(step) {
      StopShape(s, step);
    } else if !ByOpen(step) {
      QuietShape(s, step);
    }
  }

  lemma {:induction false} UnusableForever(s: State, steps: seq<Step>)
    requires Inv(s) && IsRun(s, steps) && !Usable(s)
    ensures Inv(After(s, steps)) && !Usable(After(s, steps))
    decreases |steps|
  {
    if steps == [] {
    } else {
      InvStep(s, steps[0]);
      UnusableStep(s, steps[0]);
      UnusableForever(Apply(s, steps[0]), steps[1..]);
    }
  }

  /**
   * In every reachable state in which the data channel has been opened, or in which a callback can
   * still open it, some continuation serves one more connection if and only if the forwarder has not
   * been stopped and its accept loop has not left: before the first connection, while one is served,
   * and after it ends alike.
   */
  lemma ServesOnIffUsable(n: nat, steps: seq<Step>)
    requires IsRun(Init(n), steps)
    requires After(Init(n), steps).core.st.Initializing? ==> CanOpen(After(Init(n), steps).callers)
    ensures (exists more :: LeadsToServing(After(Init(n), steps), more)) <==> Usable(After(Init(n), steps))
  {
    InvInit(n);
    RunStaysLive(Init(n), steps);
    var s := After(Init(n), steps);
    if Usable(s) {
      var more := ServingAhead(s);
    }
    if more :| LeadsToServing(s, more) {
      if !Usable(s) {
        UnusableForever(s, more);
        assert false;
      }
    }
  }

  // Stopping.

  /** The whole StopForwarding enters the state asked for and leaves data channel, listener and f.conn closed. */
  lemma StopMeans(s: State, target: Fwd)
    requires Inv(s) && s.mtx.None? && Over(target)
    ensures Stop(s.core, target).st == target && StoppedAsFar(Stop(s.core, target), Idle)
    ensures forall c :: 0 <= c < |s.core.conns| && s.core.conn != Some(c) ==>
              c < |Stop(s.core, target).conns| && Stop(s.core, target).conns[c] == s.core.conns[c]
  {
  }

  /** Where every goroutine is done and the stop command came, Run can return. */
  lemma RunCanReturn(s: State) returns (more: seq<Step>)
    requires Inv(s) && !s.controlOpen && 0 < |s.callers| && s.callers[0].Idle?
    ensures IsRun(s, more) && After(s, more).control.RunReturned?
  {
    if s.control.RunReturned? {
      more := [];
    } else if s.control.Listening? {
      more := [RunEnds];
      assert more[1..] == [];
    } else {
      more := [StopCommandDone, RunEnds];
      assert more[1..] == [RunEnds];
      assert [RunEnds][1..] == [];
      assert IsRun(Apply(s, StopCommandDone), [RunEnds]);
    }
  }
}
