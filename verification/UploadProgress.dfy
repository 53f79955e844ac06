/** The uploader never gets stuck, and every run of it ends. */
module UploadProgress {
  import opened Sums
  import opened UploadJobs
  import opened UploadProtocol
  import opened UploadSafety

  /** Until Upload returns, some goroutine can take a step, whether or not the context is cancelled. */
  lemma NeverStuck(cfg: Config, steps: seq<Step>) returns (step: Step)
    requires ValidConfig(cfg) && IsRun(cfg, Init(cfg), steps)
    requires !After(cfg, Init(cfg), steps).collector.Returned?
    ensures Enabled(cfg, After(cfg, Init(cfg), steps), step)
  {
    var at := Reachable(cfg, steps);
    step := SomeStep(cfg, After(cfg, Init(cfg), steps), at);
  }

  lemma SomeStep(cfg: Config, s: State, at: seq<Holder>) returns (step: Step)
    requires ValidConfig(cfg) && Control(cfg, s) && Custody(cfg, s, at)
    requires !s.collector.Returned?
    ensures Enabled(cfg, s, step) && !step.AttemptFails? && (s.cancelled ==> !step.Dispatch?)
  {
    if s.collector.Cancelling? {
      return Cancel;
    }
    if w: nat :| w < |s.workers| && s.workers[w].pc.Attempting? {
      assert Holds(s, AtWorker(w), s.workers[w].pc.job);
      JobIsChunk(Totals(cfg), |cfg.files|, s.workers[w].pc.job);
      return AttemptSucceeds(w);
    }
    if w: nat :| w < |s.forwarders| && s.forwarders[w].Holding? {
      return Collect(w);
    }
    if w: nat :| w < |s.workers| && s.workers[w].pc.Reporting? {
      return SendResult(w);
    }
    if w: nat :| w < |s.workers| && s.workers[w].pc.Exited? && s.forwarders[w].Ranging? {
      return ForwarderExits(w);
    }
    step := SomeStepWhenIdle(cfg, s);
  }

  /** No worker is busy and no result is on its way. */
  lemma SomeStepWhenIdle(cfg: Config, s: State) returns (step: Step)
    requires ValidConfig(cfg) && Control(cfg, s) && s.collector.Collecting?
    requires forall w :: 0 <= w < |s.workers| ==>
               s.workers[w].pc.Receiving? || (s.workers[w].pc.Exited? && s.forwarders[w].Finished?)
    ensures Enabled(cfg, s, step) && !step.AttemptFails? && (s.cancelled ==> !step.Dispatch?)
  {
    if s.producer.Closing? {
      return CloseJobs;
    }
    if s.producer.Selecting? {
      if s.next >= |Jobs(cfg)| {
        return ProducerRunsOut;
      }
      if s.cancelled {
        return ProducerQuits;
      }
      assert s.workers[0].pc.Receiving?;
      return Dispatch(0);
    }
    if w: nat :| w < |s.workers| && s.workers[w].pc.Receiving? {
      return WorkerExits(w);
    }
    step := if s.closerDone then UploadReturns else CloseAggregate;
  }

  // A measure that every step decreases.

  function WorkerWeight(cfg: Config, w: Worker): nat {
    match w.pc
    case Receiving => w.budget + 1
    case Attempting(_) => w.budget + cfg.retries + 5
    case Reporting(_, _) => w.budget + 3
    case Exited => 0
  }

  function ForwarderWeight(f: Forwarder): nat {
    match f
    case Ranging => 1
    case Holding(_, _) => 2
    case Finished => 0
  }

  ghost function WorkerWeights(cfg: Config, ws: seq<Worker>): seq<nat> {
    seq(|ws|, i requires 0 <= i < |ws| => WorkerWeight(cfg, ws[i]))
  }

  ghost function ForwarderWeights(fs: seq<Forwarder>): seq<nat> {
    seq(|fs|, i requires 0 <= i < |fs| => ForwarderWeight(fs[i]))
  }

  ghost function Measure(cfg: Config, s: State): int
    requires ValidConfig(cfg)
  {
    Unsent(cfg, s.next) + Sum(WorkerWeights(cfg, s.workers)) + Sum(ForwarderWeights(s.forwarders)) + RestWeight(s)
  }

  ghost function Unsent(cfg: Config, next: nat): int
    requires ValidConfig(cfg)
  {
    (|Jobs(cfg)| - next) * (cfg.retries + 5)
  }

  lemma UnsentNext(cfg: Config, next: nat)
    requires ValidConfig(cfg)
    ensures Unsent(cfg, next) == Unsent(cfg, next + 1) + cfg.retries + 5
    ensures next <= |Jobs(cfg)| ==> 0 <= Unsent(cfg, next)
  {
    Times(|Jobs(cfg)| - next, cfg.retries + 5);
  }

  lemma Times(n: int, c: nat)
    ensures n * c == (n - 1) * c + c
    ensures 0 <= n ==> 0 <= n * c
  {
  }

  ghost function RestWeight(s: State): nat {
    (match s.producer case Selecting => 2 case Closing => 1 case Gone => 0)
    + (if s.closerDone then 0 else 1)
    + (match s.collector
       case Collecting => if s.returnErr.None? then 3 else 1
       case Cancelling => 2
       case Returned => 0)
  }

  lemma WorkerChange(cfg: Config, ws: seq<Worker>, i: nat, w: Worker)
    requires i < |ws|
    ensures Sum(WorkerWeights(cfg, ws[i := w])) + WorkerWeight(cfg, ws[i])
            == Sum(WorkerWeights(cfg, ws)) + WorkerWeight(cfg, w)
  {
    assert WorkerWeights(cfg, ws[i := w]) == WorkerWeights(cfg, ws)[i := WorkerWeight(cfg, w)];
    SumUpdate(WorkerWeights(cfg, ws), i, WorkerWeight(cfg, w));
  }

  lemma ForwarderChange(fs: seq<Forwarder>, i: nat, f: Forwarder)
    requires i < |fs|
    ensures Sum(ForwarderWeights(fs[i := f])) + ForwarderWeight(fs[i]) == Sum(ForwarderWeights(fs)) + ForwarderWeight(f)
  {
    assert ForwarderWeights(fs[i := f]) == ForwarderWeights(fs)[i := ForwarderWeight(f)];
    SumUpdate(ForwarderWeights(fs), i, ForwarderWeight(f));
  }

  lemma StepDecreases(cfg: Config, s: State, step: Step)
    requires ValidConfig(cfg) && Control(cfg, s) && Enabled(cfg, s, step)
    ensures Measure(cfg, Apply(cfg, s, step)) < Measure(cfg, s)
  {
    if Quiet(step) {
      QuietDecreases(cfg, s, step);
    } else if ByWorker(step) {
      WorkerDecreases(cfg, s, step);
    } else {
      ForwarderDecreases(cfg, s, step);
    }
  }

  lemma QuietDecreases(cfg: Config, s: State, step: Step)
    requires ValidConfig(cfg) && Control(cfg, s) && Enabled(cfg, s, step) && Quiet(step)
    ensures Measure(cfg, Apply(cfg, s, step)) < Measure(cfg, s)
  {
    QuietStep(cfg, s, step);
    assert RestWeight(Apply(cfg, s, step)) < RestWeight(s);
  }

  lemma WorkerDecreases(cfg: Config, s: State, step: Step)
    requires ValidConfig(cfg) && Control(cfg, s) && Enabled(cfg, s, step) && ByWorker(step)
    ensures Measure(cfg, Apply(cfg, s, step)) < Measure(cfg, s)
  {
    if step.SendResult? {
      SendDecreases(cfg, s, step);
    } else {
      var s' := Apply(cfg, s, step);
      WorkerChange(cfg, s.workers, step.w, s'.workers[step.w]);
      UnsentNext(cfg, s.next);
      WorkerStepShape(cfg, s, step);
    }
  }

  /** What one worker's step does to the summands of the measure. */
  lemma WorkerStepShape(cfg: Config, s: State, step: Step)
    requires ValidConfig(cfg) && Enabled(cfg, s, step) && ByWorker(step) && !step.SendResult?
    ensures var s' := Apply(cfg, s, step);
            && s'.workers == s.workers[step.w := s'.workers[step.w]]
            && s'.forwarders == s.forwarders && RestWeight(s') == RestWeight(s)
            && s'.next == (if step.Dispatch? then s.next + 1 else s.next)
            && WorkerWeight(cfg, s'.workers[step.w]) < WorkerWeight(cfg, s.workers[step.w]) + (if step.Dispatch? then cfg.retries + 5 else 0)
  {
  }

  lemma SendDecreases(cfg: Config, s: State, step: Step)
    requires ValidConfig(cfg) && Control(cfg, s) && Enabled(cfg, s, step) && step.SendResult?
    ensures Measure(cfg, Apply(cfg, s, step)) < Measure(cfg, s)
  {
    var s' := Apply(cfg, s, step);
    WorkerChange(cfg, s.workers, step.w, s'.workers[step.w]);
    ForwarderChange(s.forwarders, step.w, s'.forwarders[step.w]);
    assert RestWeight(s') == RestWeight(s);
  }

  lemma ForwarderDecreases(cfg: Config, s: State, step: Step)
    requires ValidConfig(cfg) && Control(cfg, s) && Enabled(cfg, s, step) && (step.Collect? || step.ForwarderExits?)
    ensures Measure(cfg, Apply(cfg, s, step)) < Measure(cfg, s)
  {
    var s' := Apply(cfg, s, step);
    ForwarderChange(s.forwarders, step.w, s'.forwarders[step.w]);
    assert RestWeight(s') <= RestWeight(s);
  }

  lemma {:induction false} RunIsShort(cfg: Config, s: State, at: seq<Holder>, steps: seq<Step>)
    requires ValidConfig(cfg) && IsRun(cfg, s, steps)
    requires Control(cfg, s) && Custody(cfg, s, at)
    ensures |steps| <= Measure(cfg, s)
    decreases |steps|
  {
    UnsentNext(cfg, s.next);
    if steps == [] {
    } else {
      StepDecreases(cfg, s, steps[0]);
      ControlStep(cfg, s, steps[0]);
      var at' := CustodyStep(cfg, s, at, steps[0]);
      RunIsShort(cfg, Apply(cfg, s, steps[0]), at', steps[1..]);
    }
  }

  /** Every run is bounded by the number of chunks and the back-off budget; with `NeverStuck`, Upload returns. */
  lemma EveryRunEnds(cfg: Config, steps: seq<Step>)
    requires ValidConfig(cfg) && IsRun(cfg, Init(cfg), steps)
    ensures |steps| <= |Jobs(cfg)| * (cfg.retries + 5) + OPEN_CONNECTIONS * (cfg.retries + 2) + 6
  {
    var s := Init(cfg);
    ControlInit(cfg);
    var at := CustodyInit(cfg);
    RunIsShort(cfg, s, at, steps);
    SumConstant(WorkerWeights(cfg, s.workers), cfg.retries + 1);
    SumConstant(ForwarderWeights(s.forwarders), 1);
  }
}
