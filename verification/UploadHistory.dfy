/** What the attempts of a run say about the upload: why it failed, how often it may retry, how it is cut short. */
module UploadHistory {
  import opened Wrappers
  import opened UploadProtocol
  import opened UploadSafety
  import opened UploadProgress

  // Why an upload fails.

  /** The errors of the attempts after which the back-off said stop. */
  ghost function GivenUp(steps: seq<Step>): set<int> {
    if steps == [] then {}
    else GivenUpBy(steps[0]) + GivenUp(steps[1..])
  }

  function GivenUpBy(step: Step): set<int> {
    if step.AttemptFails? && !step.retry then {step.error} else {}
  }

  predicate ReportsError(w: Worker) {
    w.pc.Reporting? && w.pc.res.Err?
  }

  predicate CarriesError(f: Forwarder) {
    f.Holding? && f.res.Err?
  }

  /** Every error around is one of these. */
  ghost predicate Blames(s: State, errors: set<int>) {
    && (forall w :: 0 <= w < |s.workers| && ReportsError(s.workers[w]) ==> s.workers[w].pc.res.error in errors)
    && (forall w :: 0 <= w < |s.forwarders| && CarriesError(s.forwarders[w]) ==> s.forwarders[w].res.error in errors)
    && (s.returnErr.Some? ==> s.returnErr.value in errors)
  }

  /** Some error is on its way to the caller, or has reached it. */
  ghost predicate HasError(s: State) {
    || (exists w :: 0 <= w < |s.workers| && ReportsError(s.workers[w]))
    || (exists w :: 0 <= w < |s.forwarders| && CarriesError(s.forwarders[w]))
    || s.returnErr.Some?
  }

  /** A worker that has taken a step reports an error only if it has just given up. */
  lemma WorkerShape(cfg: Config, s: State, step: Step)
    requires ValidConfig(cfg) && Enabled(cfg, s, step) && ByWorker(step)
    ensures var s' := Apply(cfg, s, step);
            && step.w < |s.workers| && s'.workers == s.workers[step.w := s'.workers[step.w]]
            && s'.returnErr == s.returnErr
            && (!step.SendResult? ==> s'.forwarders == s.forwarders)
            && (GivenUpBy(step) == {} ==> !ReportsError(s'.workers[step.w]))
            && (GivenUpBy(step) != {} ==> ReportsError(s'.workers[step.w]) && GivenUpBy(step) == {s'.workers[step.w].pc.res.error})
            && (!step.SendResult? ==> !s.workers[step.w].pc.Reporting?)
  {
  }

  lemma SendShape(cfg: Config, s: State, step: Step)
    requires ValidConfig(cfg) && Enabled(cfg, s, step) && step.SendResult?
    ensures var s' := Apply(cfg, s, step);
            var w := s.workers[step.w];
            && step.w < |s.forwarders| && s.forwarders[step.w].Ranging?
            && s'.forwarders == s.forwarders[step.w := Holding(w.pc.job, w.pc.res)]
  {
  }

  lemma ForwarderShape(cfg: Config, s: State, step: Step)
    requires ValidConfig(cfg) && Enabled(cfg, s, step) && (step.Collect? || step.ForwarderExits?)
    ensures var s' := Apply(cfg, s, step);
            && step.w < |s.forwarders| && s'.workers == s.workers
            && s'.forwarders == s.forwarders[step.w := s'.forwarders[step.w]] && !s'.forwarders[step.w].Holding?
            && (step.ForwarderExits? ==> !s.forwarders[step.w].Holding? && s'.returnErr == s.returnErr)
            && (step.Collect? ==>
                  s'.returnErr == if s.returnErr.None? && CarriesError(s.forwarders[step.w]) then Some(s.forwarders[step.w].res.error) else s.returnErr)
  {
  }

  lemma QuietShape(cfg: Config, s: State, step: Step)
    requires ValidConfig(cfg) && Enabled(cfg, s, step) && Quiet(step)
    ensures var s' := Apply(cfg, s, step);
            s'.workers == s.workers && s'.forwarders == s.forwarders && s'.returnErr == s.returnErr && GivenUpBy(step) == {}
  {
  }

  lemma StepBlames(cfg: Config, s: State, errors: set<int>, step: Step)
    requires ValidConfig(cfg) && Blames(s, errors) && Enabled(cfg, s, step)
    ensures Blames(Apply(cfg, s, step), errors + GivenUpBy(step))
  {
    if Quiet(step) {
      QuietShape(cfg, s, step);
    } else if ByWorker(step) {
      WorkerShape(cfg, s, step);
      if step.SendResult? {
        SendShape(cfg, s, step);
      }
    } else {
      ForwarderShape(cfg, s, step);
    }
  }

  lemma StepKeepsError(cfg: Config, s: State, step: Step)
    requires ValidConfig(cfg) && Enabled(cfg, s, step)
    requires HasError(s) || GivenUpBy(step) != {}
    ensures HasError(Apply(cfg, s, step))
  {
    var s' := Apply(cfg, s, step);
    if Quiet(step) {
      QuietShape(cfg, s, step);
    } else if ByWorker(step) {
      WorkerShape(cfg, s, step);
      if step.SendResult? {
        SendShape(cfg, s, step);
        WorkerKeepsError(s.workers, s'.workers, s.forwarders, s'.forwarders, step.w);
      } else {
        AttemptKeepsError(s.workers, s'.workers, step.w);
      }
    } else {
      ForwarderShape(cfg, s, step);
      if w :| 0 <= w < |s.forwarders| && CarriesError(s.forwarders[w]) && w != step.w {
        assert CarriesError(s'.forwarders[w]);
      }
    }
  }

  lemma AttemptKeepsError(ws: seq<Worker>, ws': seq<Worker>, i: nat)
    requires i < |ws| && !ws[i].pc.Reporting? && |ws'| == |ws| && ws' == ws[i := ws'[i]]
    ensures (exists w :: 0 <= w < |ws| && ReportsError(ws[w])) ==> exists w :: 0 <= w < |ws'| && ReportsError(ws'[w])
  {
    if w :| 0 <= w < |ws| && ReportsError(ws[w]) {
      assert ReportsError(ws'[w]);
    }
  }

  lemma WorkerKeepsError(ws: seq<Worker>, ws': seq<Worker>, fs: seq<Forwarder>, fs': seq<Forwarder>, i: nat)
    requires i < |ws| && ws[i].pc.Reporting? && |ws'| == |ws| && ws' == ws[i := ws'[i]]
    requires i < |fs| && fs[i].Ranging? && fs' == fs[i := Holding(ws[i].pc.job, ws[i].pc.res)]
    ensures (exists w :: 0 <= w < |ws| && ReportsError(ws[w])) || (exists w :: 0 <= w < |fs| && CarriesError(fs[w])) ==>
              (exists w :: 0 <= w < |ws'| && ReportsError(ws'[w])) || (exists w :: 0 <= w < |fs'| && CarriesError(fs'[w]))
  {
    if w :| 0 <= w < |ws| && ReportsError(ws[w]) {
      assert w == i ==> CarriesError(fs'[i]);
      assert w != i ==> ReportsError(ws'[w]);
    }
    if w :| 0 <= w < |fs| && CarriesError(fs[w]) {
      assert CarriesError(fs'[w]);
    }
  }

  lemma {:induction false} RunBlames(cfg: Config, s: State, errors: set<int>, steps: seq<Step>)
    requires ValidConfig(cfg) && IsRun(cfg, s, steps) && Blames(s, errors) && (errors != {} ==> HasError(s))
    ensures Blames(After(cfg, s, steps), errors + GivenUp(steps))
    ensures errors + GivenUp(steps) != {} ==> HasError(After(cfg, s, steps))
    decreases |steps|
  {
    if steps == [] {
      assert errors + {} == errors;
    } else {
      StepBlames(cfg, s, errors, steps[0]);
      if HasError(s) || GivenUpBy(steps[0]) != {} {
        StepKeepsError(cfg, s, steps[0]);
      }
      RunBlames(cfg, Apply(cfg, s, steps[0]), errors + GivenUpBy(steps[0]), steps[1..]);
      assert errors + GivenUpBy(steps[0]) + GivenUp(steps[1..]) == errors + GivenUp(steps);
    }
  }

  /**
   * Upload returns nil exactly when the back-off stopped after no attempt of the run; and the error it
   * returns is that of an attempt after which it did. Attempts that are repeated leave no trace.
   */
  lemma FailsIffGivenUp(cfg: Config, steps: seq<Step>)
    requires ValidConfig(cfg) && IsRun(cfg, Init(cfg), steps)
    requires After(cfg, Init(cfg), steps).collector.Returned?
    ensures var err := After(cfg, Init(cfg), steps).returnErr;
            && (err.None? <==> GivenUp(steps) == {})
            && (err.Some? ==> err.value in GivenUp(steps))
  {
    var s := After(cfg, Init(cfg), steps);
    RunBlames(cfg, Init(cfg), {}, steps);
    assert {} + GivenUp(steps) == GivenUp(steps);
    UploadOutcome(cfg, steps);
  }

  /** From every reachable state in which no chunk has failed for good, Upload can still return nil. */
  lemma SuccessStaysPossible(cfg: Config, steps: seq<Step>) returns (more: seq<Step>)
    requires ValidConfig(cfg) && IsRun(cfg, Init(cfg), steps)
    requires !HasError(After(cfg, Init(cfg), steps))
    ensures var s := After(cfg, Init(cfg), steps);
            && IsRun(cfg, s, more)
            && After(cfg, s, more).collector.Returned? && After(cfg, s, more).returnErr.None?
  {
    var at := Reachable(cfg, steps);
    more := FinishWell(cfg, After(cfg, Init(cfg), steps), at);
  }

  lemma {:induction false} FinishWell(cfg: Config, s: State, at: seq<Holder>) returns (more: seq<Step>)
    requires ValidConfig(cfg) && Control(cfg, s) && Custody(cfg, s, at) && !HasError(s)
    ensures IsRun(cfg, s, more)
    ensures After(cfg, s, more).collector.Returned? && After(cfg, s, more).returnErr.None?
    decreases Measure(cfg, s)
  {
    if s.collector.Returned? {
      return [];
    }
    var step := SomeStep(cfg, s, at);
    var s' := Apply(cfg, s, step);
    StepBlames(cfg, s, {}, step);
    StepDecreases(cfg, s, step);
    UnsentNext(cfg, s.next);
    ControlStep(cfg, s, step);
    var at' := CustodyStep(cfg, s, at, step);
    var rest := FinishWell(cfg, s', at');
    more := [step] + rest;
    assert more[0] == step && more[1..] == rest;
  }

  // How often a worker may retry.

  /** The attempts worker `w` has repeated since its back-off was last reset, `k` of them before these steps. */
  function Retries(k: nat, w: nat, steps: seq<Step>): nat
    decreases |steps|
  {
    if steps == [] then k
    else Retries(match steps[0]
                 case AttemptSucceeds(v) => if v == w then 0 else k
                 case AttemptFails(v, _, retry, _) => if v == w && retry then k + 1 else k
                 case _ => k, w, steps[1..])
  }

  lemma {:induction false} RunCountsRetries(cfg: Config, s: State, k: nat, w: nat, steps: seq<Step>)
    requires ValidConfig(cfg) && IsRun(cfg, s, steps)
    requires w < |s.workers| && s.workers[w].budget + k == cfg.retries
    ensures w < |After(cfg, s, steps).workers|
    ensures After(cfg, s, steps).workers[w].budget + Retries(k, w, steps) == cfg.retries
    decreases |steps|
  {
    if steps == [] {
    } else {
      var k' := Retries(k, w, [steps[0]]);
      assert [steps[0]][1..] == [];
      StepCountsRetries(cfg, s, k, w, steps[0]);
      RunCountsRetries(cfg, Apply(cfg, s, steps[0]), k', w, steps[1..]);
    }
  }

  lemma StepCountsRetries(cfg: Config, s: State, k: nat, w: nat, step: Step)
    requires ValidConfig(cfg) && Enabled(cfg, s, step)
    requires w < |s.workers| && s.workers[w].budget + k == cfg.retries
    ensures w < |Apply(cfg, s, step).workers|
    ensures Apply(cfg, s, step).workers[w].budget + Retries(k, w, [step]) == cfg.retries
  {
    assert [step][1..] == [];
    if Quiet(step) {
      QuietShape(cfg, s, step);
    } else if ByWorker(step) {
      BudgetShape(cfg, s, step);
    } else {
      ForwarderShape(cfg, s, step);
    }
  }

  lemma BudgetShape(cfg: Config, s: State, step: Step)
    requires ValidConfig(cfg) && Enabled(cfg, s, step) && ByWorker(step)
    ensures var s' := Apply(cfg, s, step);
            && step.w < |s.workers| && s'.workers == s.workers[step.w := s'.workers[step.w]]
            && s'.workers[step.w].budget ==
                 if step.AttemptSucceeds? then cfg.retries
                 else if step.AttemptFails? && step.retry then s.workers[step.w].budget - 1
                 else s.workers[step.w].budget
  {
  }

  /** A success gives a worker its whole back-off budget back, and each repeated attempt costs one. */
  lemma BudgetsAreResetBySuccess(cfg: Config, steps: seq<Step>, w: nat)
    requires ValidConfig(cfg) && IsRun(cfg, Init(cfg), steps) && w < OPEN_CONNECTIONS
    ensures w < |After(cfg, Init(cfg), steps).workers|
    ensures After(cfg, Init(cfg), steps).workers[w].budget == cfg.retries - Retries(0, w, steps)
  {
    RunCountsRetries(cfg, Init(cfg), 0, w, steps);
  }

  // How an upload is cut short.

  ghost predicate NothingDispatched(steps: seq<Step>) {
    forall step :: step in steps ==> !step.Dispatch?
  }

  /** Once the context is cancelled Upload can return without another job being sent. */
  lemma CancelCutsShort(cfg: Config, steps: seq<Step>) returns (more: seq<Step>)
    requires ValidConfig(cfg) && IsRun(cfg, Init(cfg), steps)
    requires After(cfg, Init(cfg), steps).cancelled
    ensures var s := After(cfg, Init(cfg), steps);
            && IsRun(cfg, s, more) && NothingDispatched(more)
            && After(cfg, s, more).collector.Returned? && After(cfg, s, more).next == s.next
  {
    var at := Reachable(cfg, steps);
    more := FinishCancelled(cfg, After(cfg, Init(cfg), steps), at);
  }

  lemma {:induction false} FinishCancelled(cfg: Config, s: State, at: seq<Holder>) returns (more: seq<Step>)
    requires ValidConfig(cfg) && Control(cfg, s) && Custody(cfg, s, at) && s.cancelled
    ensures IsRun(cfg, s, more) && NothingDispatched(more)
    ensures After(cfg, s, more).collector.Returned? && After(cfg, s, more).next == s.next
    decreases Measure(cfg, s)
  {
    if s.collector.Returned? {
      return [];
    }
    var step := SomeStep(cfg, s, at);
    var s' := Apply(cfg, s, step);
    StaysCancelled(cfg, s, step);
    StepDecreases(cfg, s, step);
    UnsentNext(cfg, s.next);
    ControlStep(cfg, s, step);
    var at' := CustodyStep(cfg, s, at, step);
    var rest := FinishCancelled(cfg, s', at');
    more := [step] + rest;
    assert more[0] == step && more[1..] == rest;
  }

  lemma StaysCancelled(cfg: Config, s: State, step: Step)
    requires ValidConfig(cfg) && Enabled(cfg, s, step) && s.cancelled && !step.Dispatch?
    ensures Apply(cfg, s, step).cancelled && Apply(cfg, s, step).next == s.next
  {
  }
}
