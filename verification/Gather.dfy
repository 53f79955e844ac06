/**
 * The two fan-outs of the command line: one goroutine per item computes its result and sends it on
 * its own unbuffered channels, and the caller collects the results in item order. Connecting uses a
 * status and an error channel and closes both after the send; listing uses one channel and leaves
 * it open (`closes` is false).
 */
module Gather {
  import opened Sums

  datatype Goroutine = Unborn | Working | Sending | ClosingErr | ClosingConn | Gone

  /** What a receive yields: a value that was sent, or the zero value of a closed channel. */
  datatype Received<T> = Real(value: T) | Zero

  /** `results[i]` is what goroutine `i` computes. */
  datatype Config<T> = Config(results: seq<T>, closes: bool)

  datatype State<T> = State(
    gs: seq<Goroutine>, errClosed: seq<bool>, connClosed: seq<bool>, spawned: nat, got: seq<Received<T>>, returned: bool)

  ghost function Init<T>(cfg: Config<T>): State<T> {
    var n := |cfg.results|;
    State(seq(n, _ => Unborn), seq(n, _ => false), seq(n, _ => false), 0, [], false)
  }

  datatype Step = Spawn | Finish(i: nat) | Receive | ReceiveZero | CloseErr(i: nat) | CloseConn(i: nat) | Return

  ghost predicate Collecting<T>(s: State<T>) {
    s.spawned == |s.gs| && |s.got| < |s.gs| == |s.errClosed| == |s.connClosed|
  }

  ghost predicate Enabled<T>(cfg: Config<T>, s: State<T>, step: Step) {
    match step
    case Spawn => s.spawned < |s.gs|
    case Finish(i) => i < |s.gs| && s.gs[i].Working?
    case Receive => Collecting(s) && s.gs[|s.got|].Sending? && |s.got| < |cfg.results|
    case ReceiveZero => Collecting(s) && (s.errClosed[|s.got|] || s.connClosed[|s.got|])
    case CloseErr(i) => i < |s.gs| && s.gs[i].ClosingErr? && i < |s.errClosed|
    case CloseConn(i) => i < |s.gs| && s.gs[i].ClosingConn? && i < |s.connClosed|
    case Return => s.spawned == |s.gs| && |s.got| >= |s.gs| && !s.returned
  }

  ghost function Apply<T>(cfg: Config<T>, s: State<T>, step: Step): State<T>
    requires Enabled(cfg, s, step)
  {
    match step
    case Spawn => s.(gs := s.gs[s.spawned := Working], spawned := s.spawned + 1)
    case Finish(i) => s.(gs := s.gs[i := Sending])
    case Receive =>
      var i := |s.got|;
      s.(gs := s.gs[i := if cfg.closes then ClosingErr else Gone], got := s.got + [Real(cfg.results[i])])
    case ReceiveZero => s.(got := s.got + [Zero])
    case CloseErr(i) => s.(gs := s.gs[i := ClosingConn], errClosed := s.errClosed[i := true])
    case CloseConn(i) => s.(gs := s.gs[i := Gone], connClosed := s.connClosed[i := true])
    case Return => s.(returned := true)
  }

  /** A goroutine sends on, or closes again, a closed channel. */
  ghost predicate Panics<T>(s: State<T>) {
    exists i :: 0 <= i < |s.gs| && i < |s.errClosed| && i < |s.connClosed| &&
                ((s.gs[i].Sending? && (s.errClosed[i] || s.connClosed[i])) ||
                 (s.gs[i].ClosingErr? && s.errClosed[i]) || (s.gs[i].ClosingConn? && s.connClosed[i]))
  }

  ghost predicate IsRun<T>(cfg: Config<T>, s: State<T>, steps: seq<Step>)
    decreases |steps|
  {
    steps == [] || (Enabled(cfg, s, steps[0]) && IsRun(cfg, Apply(cfg, s, steps[0]), steps[1..]))
  }

  ghost function After<T>(cfg: Config<T>, s: State<T>, steps: seq<Step>): State<T>
    requires IsRun(cfg, s, steps)
    decreases |steps|
  {
    if steps == [] then s else After(cfg, Apply(cfg, s, steps[0]), steps[1..])
  }

  ghost predicate Inv<T>(cfg: Config<T>, s: State<T>) {
    var n := |cfg.results|;
    && |s.gs| == |s.errClosed| == |s.connClosed| == n
    && s.spawned <= n && |s.got| <= n
    && (s.got != [] ==> s.spawned == n)
    && (forall i :: 0 <= i < n ==> (s.gs[i].Unborn? <==> s.spawned <= i))
    && (forall i :: 0 <= i < n ==> ((s.gs[i].Unborn? || s.gs[i].Working? || s.gs[i].Sending?) <==> |s.got| <= i))
    && (forall i :: 0 <= i < n && s.errClosed[i] ==> s.gs[i].ClosingConn? || s.gs[i].Gone?)
    && (forall i :: 0 <= i < n && s.connClosed[i] ==> s.gs[i].Gone?)
    && (forall i :: 0 <= i < |s.got| ==> s.got[i] == Real(cfg.results[i]))
    && (s.returned ==> |s.got| == n)
  }

  lemma InvStep<T>(cfg: Config<T>, s: State<T>, step: Step)
    requires Inv(cfg, s) && Enabled(cfg, s, step)
    ensures Inv(cfg, Apply(cfg, s, step)) && !step.ReceiveZero?
  {
  }

  lemma {:induction false} RunKeeps<T>(cfg: Config<T>, s: State<T>, steps: seq<Step>)
    requires Inv(cfg, s) && IsRun(cfg, s, steps)
    ensures Inv(cfg, After(cfg, s, steps)) && ReceiveZero !in steps
    decreases |steps|
  {
    if steps == [] {
    } else {
      InvStep(cfg, s, steps[0]);
      RunKeeps(cfg, Apply(cfg, s, steps[0]), steps[1..]);
    }
  }

  /**
   * In every interleaving the i-th receive yields goroutine i's own result, never the zero value of
   * a closed channel, and no goroutine panics.
   */
  lemma ReceivesAreReal<T>(cfg: Config<T>, steps: seq<Step>)
    requires IsRun(cfg, Init(cfg), steps)
    ensures var s := After(cfg, Init(cfg), steps);
            && ReceiveZero !in steps && !Panics(s)
            && |s.got| <= |cfg.results|
            && (forall i :: 0 <= i < |s.got| ==> s.got[i] == Real(cfg.results[i]))
            && (s.returned ==> |s.got| == |cfg.results|)
  {
    RunKeeps(cfg, Init(cfg), steps);
  }

  /** Until the caller has returned, something can happen. */
  lemma NeverStuck<T>(cfg: Config<T>, steps: seq<Step>) returns (step: Step)
    requires IsRun(cfg, Init(cfg), steps) && !After(cfg, Init(cfg), steps).returned
    ensures Enabled(cfg, After(cfg, Init(cfg), steps), step)
  {
    RunKeeps(cfg, Init(cfg), steps);
    var s := After(cfg, Init(cfg), steps);
    if s.spawned < |s.gs| {
      step := Spawn;
    } else if |s.got| == |s.gs| {
      step := Return;
    } else if s.gs[|s.got|].Working? {
      step := Finish(|s.got|);
    } else {
      step := Receive;
    }
  }

  function Weight(g: Goroutine): nat {
    match g
    case Unborn => 5
    case Working => 4
    case Sending => 3
    case ClosingErr => 2
    case ClosingConn => 1
    case Gone => 0
  }

  ghost function Weights(gs: seq<Goroutine>): seq<nat> {
    seq(|gs|, i requires 0 <= i < |gs| => Weight(gs[i]))
  }

  lemma Change(gs: seq<Goroutine>, i: nat, g: Goroutine)
    requires i < |gs|
    ensures Sum(Weights(gs[i := g])) + Weight(gs[i]) == Sum(Weights(gs)) + Weight(g)
  {
    assert Weights(gs[i := g]) == Weights(gs)[i := Weight(g)];
    SumUpdate(Weights(gs), i, Weight(g));
  }

  lemma {:induction false} RunIsShort<T>(cfg: Config<T>, s: State<T>, steps: seq<Step>)
    requires Inv(cfg, s) && IsRun(cfg, s, steps)
    ensures |steps| <= Sum(Weights(s.gs)) + (if s.returned then 0 else 1)
    decreases |steps|
  {
    if steps == [] {
    } else {
      InvStep(cfg, s, steps[0]);
      var s' := Apply(cfg, s, steps[0]);
      RunIsShort(cfg, s', steps[1..]);
      match steps[0]
      case Spawn => Change(s.gs, s.spawned, Working);
      case Finish(i) => Change(s.gs, i, Sending);
      case Receive => Change(s.gs, |s.got|, s'.gs[|s.got|]);
      case CloseErr(i) => Change(s.gs, i, ClosingConn);
      case CloseConn(i) => Change(s.gs, i, Gone);
      case _ =>
    }
  }

  /** Every run ends; with `NeverStuck`, the caller returns. */
  lemma EveryRunEnds<T>(cfg: Config<T>, steps: seq<Step>)
    requires IsRun(cfg, Init(cfg), steps)
    ensures |steps| <= 5 * |cfg.results| + 1
  {
    RunIsShort(cfg, Init(cfg), steps);
    SumConstant(Weights(Init(cfg).gs), 5);
  }

  // The channels after a goroutine is gone.

  ghost predicate ClosedRight<T>(cfg: Config<T>, s: State<T>) {
    && |s.gs| == |s.errClosed| == |s.connClosed|
    && forall i :: 0 <= i < |s.gs| ==>
         && (s.errClosed[i] <==> s.gs[i].ClosingConn? || (s.gs[i].Gone? && cfg.closes))
         && (s.connClosed[i] <==> s.gs[i].Gone? && cfg.closes)
         && (s.gs[i].ClosingErr? || s.gs[i].ClosingConn? ==> cfg.closes)
  }

  lemma {:induction false} RunClosesRight<T>(cfg: Config<T>, s: State<T>, steps: seq<Step>)
    requires Inv(cfg, s) && ClosedRight(cfg, s) && IsRun(cfg, s, steps)
    ensures ClosedRight(cfg, After(cfg, s, steps))
    decreases |steps|
  {
    if steps == [] {
    } else {
      InvStep(cfg, s, steps[0]);
      StepClosesRight(cfg, s, steps[0]);
      RunClosesRight(cfg, Apply(cfg, s, steps[0]), steps[1..]);
    }
  }

  lemma StepClosesRight<T>(cfg: Config<T>, s: State<T>, step: Step)
    requires Inv(cfg, s) && ClosedRight(cfg, s) && Enabled(cfg, s, step)
    ensures ClosedRight(cfg, Apply(cfg, s, step))
  {
  }

  /** A goroutine that is gone has closed both its channels, if it closes them at all. */
  lemma ChannelsAreClosed<T>(cfg: Config<T>, steps: seq<Step>)
    requires IsRun(cfg, Init(cfg), steps)
    ensures ClosedRight(cfg, After(cfg, Init(cfg), steps))
  {
    RunClosesRight(cfg, Init(cfg), steps);
  }
}
