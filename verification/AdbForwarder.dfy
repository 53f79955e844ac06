/**
 * The ADB forwarder and its controller. The mutex-protected sections and their sockets come first,
 * as functions and as the class that runs them; then every interleaving of data-channel and
 * peer-connection callbacks, the control loop and the accept loop.
 */
module AdbForwarder {
  import opened Wrappers
  import AdbMessages

  datatype Fwd = Initializing | Ready | Connected | Stopped | Failed

  function Code(f: Fwd): int {
    match f
    case Initializing => 0
    case Ready => 1
    case Connected => 2
    case Stopped => 3
    case Failed => 4
  }

  predicate Over(f: Fwd) {
    f.Stopped? || f.Failed?
  }

  /** What the mutex protects, and the sockets: which accepted connections are open, and the one registered. */
  datatype Core = Core(st: Fwd, listenerOpen: bool, dcOpen: bool, conns: seq<bool>, conn: Option<nat>)

  function Swap(c: Core, old_: Fwd, new_: Fwd): Core {
    if c.st == old_ then c.(st := new_) else c
  }

  function Register(c: Core, i: nat): Core {
    if c.st.Ready? then c.(conn := Some(i), st := Connected) else c
  }

  function CloseConn(c: Core, i: Option<nat>): Core {
    if i.Some? && i.value < |c.conns| then c.(conns := c.conns[i.value := false]) else c
  }

  /** A whole StopForwarding, as nobody else can see it. */
  function Stop(c: Core, target: Fwd): Core {
    if c.st == target then c
    else CloseConn(c.(st := target, dcOpen := false, listenerOpen := false), c.conn)
  }

  /** The forwarder object. Each method body is one critical section. */
  class Forwarder {
    var state: int
    var listenerOpen: bool
    var dcOpen: bool
    var conns: seq<bool>
    var conn: Option<nat>

    ghost predicate Valid()
      reads this
    {
      0 <= state <= 4 && (conn.Some? ==> conn.value < |conns|)
    }

    ghost function View(): Core
      reads this
      requires Valid()
    {
      Core(Decode(state), listenerOpen, dcOpen, conns, conn)
    }

    static function Decode(code: int): (f: Fwd)
      requires 0 <= code <= 4
      ensures Code(f) == code
    {
      if code == 0 then Initializing else if code == 1 then Ready else if code == 2 then Connected
      else if code == 3 then Stopped else Failed
    }

    constructor ()
      ensures Valid() && View() == Core(Initializing, true, true, [], None)
    {
      state, listenerOpen, dcOpen, conns, conn := 0, true, true, [], None;
    }

    /** Reports whether the state was changed, and what it was. Codes outside the five states match nothing. */
    method CompareAndSwapState(old_: int, new_: int) returns (changed: bool, prev: int)
      requires Valid() && (0 <= old_ <= 4 ==> 0 <= new_ <= 4)
      modifies this`state
      ensures Valid()
      ensures prev == old(state) && changed == (old_ == old(state))
      ensures View() == if 0 <= old_ <= 4 then Swap(old(View()), Decode(old_), Decode(new_)) else old(View())
    {
      if state == old_ {
        prev := state;
        state := new_;
        return true, prev;
      }
      return false, state;
    }

    /** State() swaps -1 for -1: it changes nothing, and what it reads always has a name. */
    method State() returns (code: int)
      requires Valid()
      modifies this`state
      ensures Valid() && View() == old(View())
      ensures code == state && NameOf(code).Some?
    {
      var _, prev := CompareAndSwapState(-1, -1);
      code := prev;
    }

    /** The name of a state; None where StateAsStr panics. */
    static function NameOf(code: int): (name: Option<string>)
      ensures name.Some? <==> 0 <= code <= 4
    {
      if code == 0 then Some("initializing")
      else if code == 1 then Some("ready")
      else if code == 2 then Some("connected")
      else if code == 3 then Some("stopped")
      else if code == 4 then Some("failed")
      else None
    }

    method SetConnection(i: nat) returns (ok: bool)
      requires Valid() && i < |conns|
      modifies this
      ensures Valid() && View() == Register(old(View()), i)
      ensures ok == (old(View()).st == Ready)
    {
      if state != 1 {
        return false;
      }
      conn := Some(i);
      state := 2;
      ok := true;
    }

    method StopForwarding(target: int)
      requires Valid() && 3 <= target <= 4
      modifies this
      ensures Valid() && View() == Stop(old(View()), Decode(target))
    {
      if state == target {
        return;
      }
      state := target;
      dcOpen := false;
      listenerOpen := false;
      if conn.Some? {
        conns := conns[conn.value := false];
      }
    }

    /** OnMessage: the data goes to the registered connection, whole if no write fails. */
    method Send(data: string, connection: nat -> AdbMessages.WriteResult) returns (ok: bool, written: string)
      requires forall k :: connection(k).Wrote? ==> 0 < connection(k).n
      ensures written <= data
      ensures ok <==> conn.Some? && written == data
      ensures conn.None? ==> written == ""
      ensures conn.Some? && (forall k :: connection(k).Wrote?) ==> ok
    {
      if conn.None? {
        return false, "";
      }
      ok, written := AdbMessages.WriteAll(data, connection);
    }
  }

  // Goroutines.

  /** What a caller of StopForwarding does afterwards. */
  datatype Then = ThenNothing | ThenReadyCh | ThenControl

  datatype Caller =
    | Idle
    | OnOpen
    | Spawning
    | ReadySwap
    | ClosingReady
    | StopWaiting(target: Fwd, then_: Then)
    | StopDc(then_: Then)
    | StopListener(then_: Then)
    | StopConn(then_: Then)
    | ClosingControl

  datatype Loop =
    | Checking
    | Accepting
    | Registering(c: nat)
    | Dropping(c: nat)
    | Serving(c: nat)
    | ClosingServed(c: nat)
    | Rearming
    | Leaving
    | LoopReturned

  datatype Control = Listening | Stopping | RunReturned

  /** `loops` are the accept loops started so far; goroutine 0 is the one in ConnController.Run. */
  datatype State = State(
    core: Core, mtx: Option<nat>, callers: seq<Caller>, loops: seq<Loop>,
    readyFlag: bool, readyCloses: nat, controlOpen: bool, control: Control)

  ghost function Init(n: nat): State {
    State(Core(Initializing, true, true, [], None), None, seq(n + 1, _ => Idle), [], false, 0, true, Listening)
  }

  datatype Step =
    | DataChannelOpens(i: nat)
    | DataChannelCloses(i: nat)
    | StopCalled(i: nat, target: Fwd)
    | SwapToReady(i: nat)
    | Spawn(i: nat)
    | SwapReadyFlag(i: nat)
    | CloseReady(i: nat)
    | EnterStop(i: nat)
    | CloseDc(i: nat)
    | CloseListener(i: nat)
    | CloseRegistered(i: nat)
    | CloseControl(i: nat)
    | StatusQuery(i: nat)
    | StopCommand
    | StopCommandDone
    | RunEnds
    | LoopCheck(l: nat)
    | Accept(l: nat)
    | AcceptFails(l: nat)
    | SetConnection(l: nat)
    | Drop(l: nat)
    | ReadEnds(l: nat)
    | CloseServed(l: nat)
    | Rearm(l: nat)
    | Leave(l: nat)

  ghost predicate Enabled(s: State, step: Step) {
    match step
    case DataChannelOpens(i) => 0 < i < |s.callers| && s.callers[i].Idle?
    case DataChannelCloses(i) => 0 < i < |s.callers| && s.callers[i].Idle?
    case StopCalled(i, target) => 0 < i < |s.callers| && s.callers[i].Idle? && Over(target)
    case SwapToReady(i) => i < |s.callers| && s.callers[i].OnOpen? && s.mtx.None?
    case Spawn(i) => i < |s.callers| && s.callers[i].Spawning?
    case SwapReadyFlag(i) => i < |s.callers| && s.callers[i].ReadySwap?
    case CloseReady(i) => i < |s.callers| && s.callers[i].ClosingReady?
    case EnterStop(i) => i < |s.callers| && s.callers[i].StopWaiting? && s.mtx.None?
    case CloseDc(i) => i < |s.callers| && s.callers[i].StopDc?
    case CloseListener(i) => i < |s.callers| && s.callers[i].StopListener?
    case CloseRegistered(i) => i < |s.callers| && s.callers[i].StopConn?
    case CloseControl(i) => i < |s.callers| && s.callers[i].ClosingControl?
    case StatusQuery(i) => 0 < i < |s.callers| && s.callers[i].Idle? && s.mtx.None?
    case StopCommand => s.control.Listening? && s.controlOpen && 0 < |s.callers| && s.callers[0].Idle?
    case StopCommandDone => s.control.Stopping? && 0 < |s.callers| && s.callers[0].Idle?
    case RunEnds => s.control.Listening? && !s.controlOpen
    case LoopCheck(l) => l < |s.loops| && s.loops[l].Checking? && s.mtx.None?
    case Accept(l) => l < |s.loops| && s.loops[l].Accepting? && s.core.listenerOpen
    case AcceptFails(l) => l < |s.loops| && s.loops[l].Accepting?
    case SetConnection(l) => l < |s.loops| && s.loops[l].Registering? && s.mtx.None?
    case Drop(l) => l < |s.loops| && s.loops[l].Dropping?
    case ReadEnds(l) => l < |s.loops| && s.loops[l].Serving?
    case CloseServed(l) => l < |s.loops| && s.loops[l].ClosingServed?
    case Rearm(l) => l < |s.loops| && s.loops[l].Rearming? && s.mtx.None?
    case Leave(l) => l < |s.loops| && s.loops[l].Leaving?
  }

  function Resume(t: Then): Caller {
    match t
    case ThenNothing => Idle
    case ThenReadyCh => ReadySwap
    case ThenControl => ClosingControl
  }

  ghost function SetCaller(s: State, i: nat, c: Caller): State
    requires i < |s.callers|
  {
    s.(callers := s.callers[i := c])
  }

  ghost function SetLoop(s: State, l: nat, p: Loop): State
    requires l < |s.loops|
  {
    s.(loops := s.loops[l := p])
  }

  ghost function Apply(s: State, step: Step): State
    requires Enabled(s, step)
  {
    if ByLoop(step) then ApplyLoop(s, step) else if ByStop(step) then ApplyStop(s, step) else ApplyCallback(s, step)
  }

  ghost predicate ByLoop(step: Step) {
    step.LoopCheck? || step.Accept? || step.AcceptFails? || step.SetConnection? || step.Drop? || step.ReadEnds?
    || step.CloseServed? || step.Rearm? || step.Leave?
  }

  /** The steps of StopForwarding. */
  ghost predicate ByStop(step: Step) {
    step.EnterStop? || step.CloseDc? || step.CloseListener? || step.CloseRegistered?
  }

  ghost function ApplyCallback(s: State, step: Step): State
    requires Enabled(s, step) && !ByLoop(step) && !ByStop(step)
  {
    match step
    case DataChannelOpens(i) => SetCaller(s, i, OnOpen)
    case DataChannelCloses(i) => SetCaller(s, i, StopWaiting(Failed, ThenReadyCh))
    case StopCalled(i, target) => SetCaller(s, i, StopWaiting(target, ThenNothing))
    case SwapToReady(i) =>
      SetCaller(s, i, if s.core.st.Initializing? then Spawning else Idle).(core := Swap(s.core, Initializing, Ready))
    case Spawn(i) => SetCaller(s, i, ReadySwap).(loops := s.loops + [Checking])
    case SwapReadyFlag(i) => SetCaller(s, i, if s.readyFlag then Idle else ClosingReady).(readyFlag := true)
    case CloseReady(i) => SetCaller(s, i, Idle).(readyCloses := s.readyCloses + 1)
    case CloseControl(i) => SetCaller(s, i, Idle).(controlOpen := false)
    case StatusQuery(i) => s
    case StopCommand => SetCaller(s, 0, StopWaiting(Stopped, ThenControl)).(control := Stopping)
    case StopCommandDone => s.(control := Listening)
    case RunEnds => s.(control := RunReturned)
  }

  ghost function ApplyStop(s: State, step: Step): State
    requires Enabled(s, step) && ByStop(step)
  {
    match step
    case EnterStop(i) =>
      var c := s.callers[i];
      if s.core.st == c.target then SetCaller(s, i, Resume(c.then_))
      else SetCaller(s, i, StopDc(c.then_)).(core := s.core.(st := c.target), mtx := Some(i))
    case CloseDc(i) => SetCaller(s, i, StopListener(s.callers[i].then_)).(core := s.core.(dcOpen := false))
    case CloseListener(i) => SetCaller(s, i, StopConn(s.callers[i].then_)).(core := s.core.(listenerOpen := false))
    case CloseRegistered(i) =>
      SetCaller(s, i, Resume(s.callers[i].then_)).(core := CloseConn(s.core, s.core.conn), mtx := None)
  }

  ghost function ApplyLoop(s: State, step: Step): State
    requires Enabled(s, step) && ByLoop(step)
  {
    match step
    case LoopCheck(l) => SetLoop(s, l, if s.core.st.Ready? then Accepting else LoopReturned)
    case Accept(l) => SetLoop(s, l, Registering(|s.core.conns|)).(core := s.core.(conns := s.core.conns + [true]))
    case AcceptFails(l) => SetLoop(s, l, Leaving)
    case SetConnection(l) =>
      var c := s.loops[l].c;
      SetLoop(s, l, if s.core.st.Ready? then Serving(c) else Dropping(c)).(core := Register(s.core, c))
    case Drop(l) => SetLoop(s, l, Leaving).(core := CloseConn(s.core, Some(s.loops[l].c)))
    case ReadEnds(l) => SetLoop(s, l, ClosingServed(s.loops[l].c))
    case CloseServed(l) => SetLoop(s, l, Rearming).(core := CloseConn(s.core, Some(s.loops[l].c)))
    case Rearm(l) =>
      SetLoop(s, l, if s.core.st.Connected? then Accepting else Leaving).(core := Swap(s.core, Connected, Ready))
    case Leave(l) => SetLoop(s, l, LoopReturned).(core := s.core.(listenerOpen := false))
  }

  ghost predicate IsRun(s: State, steps: seq<Step>)
    decreases |steps|
  {
    steps == [] || (Enabled(s, steps[0]) && IsRun(Apply(s, steps[0]), steps[1..]))
  }

  ghost function After(s: State, steps: seq<Step>): State
    requires IsRun(s, steps)
    decreases |steps|
  {
    if steps == [] then s else After(Apply(s, steps[0]), steps[1..])
  }

  /** The steps of StopForwarding, taken without interruption, are the critical section of the class. */
  lemma StopStepsAreStop(s: State, i: nat)
    requires i < |s.callers| && s.callers[i].StopWaiting? && s.mtx.None?
    ensures var s1 := Apply(s, EnterStop(i));
            var target := s.callers[i].target;
            if s.core.st == target then s1.core == Stop(s.core, target) && s1.mtx.None?
            else Enabled(s1, CloseDc(i)) &&
                 var s2 := Apply(s1, CloseDc(i));
                 Enabled(s2, CloseListener(i)) &&
                 var s3 := Apply(s2, CloseListener(i));
                 Enabled(s3, CloseRegistered(i)) &&
                 var s4 := Apply(s3, CloseRegistered(i));
                 s4.core == Stop(s.core, target) && s4.mtx.None?
  {
  }
}
