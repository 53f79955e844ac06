/**
 * The shutdown cascade: once SendCh is closed, the forwarder, then the poller, then the receive
 * loop come to an end, in every fair behaviour.
 */
module Cascade {
  import opened Limits
  import opened Wrappers
  import opened Sums
  import opened Signalling
  import opened Shutdown

  ghost predicate Moves(run: nat -> State, act: nat -> Option<Step>, k: nat) {
    match act(k)
    case Some(step) => Enabled(run(k), step) && run(k + 1) == Apply(run(k), step)
    case None => Halted(run(k)) && run(k + 1) == run(k)
  }

  /** An infinite behaviour; it stands still only where nothing but new callbacks can happen. */
  ghost predicate IsBehaviour(run: nat -> State, act: nat -> Option<Step>) {
    forall k: nat :: Moves(run, act, k)
  }

  /** A closed stop channel wins the poller's select. */
  ghost predicate PrefersStop(run: nat -> State, act: nat -> Option<Step>) {
    forall k: nat :: act(k) == Some(TimerFires) ==> !run(k).stopClosed
  }

  ghost predicate ByForwarder(step: Step) {
    step.Forward? || step.PostOk? || step.PostFails? || step.GiveUp? || step.SendChDrained? || step.CloseStop?
  }

  ghost predicate ForwarderTurn(run: nat -> State, act: nat -> Option<Step>, k: nat) {
    (act(k).Some? && ByForwarder(act(k).value)) || forall step | ByForwarder(step) :: !Enabled(run(k), step)
  }

  ghost predicate TurnComes(run: nat -> State, act: nat -> Option<Step>, k: nat) {
    exists m: nat :: k <= m && ForwarderTurn(run, act, m)
  }

  /** Weak fairness: the forwarder is not kept waiting forever while it can move. */
  ghost predicate FairToForwarder(run: nat -> State, act: nat -> Option<Step>) {
    forall k: nat :: TurnComes(run, act, k)
  }

  // First phase: the forwarder drains SendCh and closes the stop channel.

  function ForwarderRank(f: Forwarder): int {
    match f
    case Posting(tries) => 3 + MAX_CONSECUTIVE_ERRORS - tries
    case FwdReceiving => 2
    case ClosingStop(_) => 1
    case FwdExited(_) => 0
  }

  lemma ForwarderRankStep(s: State, step: Step)
    requires Inv(s) && s.sendClosed && Enabled(s, step)
    ensures Apply(s, step).sendClosed
    ensures 0 <= ForwarderRank(Apply(s, step).fwd) <= ForwarderRank(s.fwd)
    ensures ByForwarder(step) ==> ForwarderRank(Apply(s, step).fwd) < ForwarderRank(s.fwd)
  {
    InvStep(s, step);
  }

  /** With SendCh closed the forwarder can always move, until it has closed the stop channel. */
  lemma ForwarderCanMove(s: State) returns (step: Step)
    requires Inv(s) && s.sendClosed && !s.stopClosed
    ensures ByForwarder(step) && Enabled(s, step)
  {
    match s.fwd
    case FwdReceiving => step := SendChDrained;
    case Posting(tries) => step := if tries < MAX_CONSECUTIVE_ERRORS then PostOk else GiveUp;
    case ClosingStop(_) => step := CloseStop;
    case FwdExited(_) => assert false;
  }

  lemma {:induction false} StaysClosed(run: nat -> State, act: nat -> Option<Step>, k: nat, m: nat)
    requires IsBehaviour(run, act) && k <= m
    requires Inv(run(k)) && run(k).sendClosed
    ensures Inv(run(m)) && run(m).sendClosed
    ensures 0 <= ForwarderRank(run(m).fwd) <= ForwarderRank(run(k).fwd)
    decreases m - k
  {
    if k == m {
    } else {
      assert Moves(run, act, k);
      if act(k).Some? {
        InvStep(run(k), act(k).value);
        ForwarderRankStep(run(k), act(k).value);
      }
      StaysClosed(run, act, k + 1, m);
    }
  }

  lemma {:induction false} ForwarderStops(run: nat -> State, act: nat -> Option<Step>, k: nat) returns (m: nat)
    requires IsBehaviour(run, act) && FairToForwarder(run, act)
    requires Inv(run(k)) && run(k).sendClosed
    ensures k <= m && Inv(run(m)) && run(m).sendClosed && run(m).stopClosed
    decreases ForwarderRank(run(k).fwd)
  {
    StaysClosed(run, act, k, k);
    if run(k).stopClosed {
      return k;
    }
    assert TurnComes(run, act, k);
    m :| k <= m && ForwarderTurn(run, act, m);
    StaysClosed(run, act, k, m);
    if run(m).stopClosed {
      return m;
    }
    var move := ForwarderCanMove(run(m));
    assert Moves(run, act, m) && act(m).Some? && ByForwarder(act(m).value);
    InvStep(run(m), act(m).value);
    ForwarderRankStep(run(m), act(m).value);
    m := ForwarderStops(run, act, m + 1);
  }

  // Second phase: every step decreases a lexicographic measure.

  function Stage(p: Poller): nat {
    match p
    case Polling => 4
    case Delivering(_) => 3
    case Selecting => 2
    case ClosingSink => 1
    case PollExited => 0
  }

  function Left(p: Poller): nat {
    if p.Delivering? then |p.batch| else 0
  }

  function CallerWeight(c: Caller): nat {
    match c
    case Idle => 0
    case Waiting(_) => 6
    case Locked(_) => 5
    case Sending => 4
    case ClosingCh => 4
    case SettingFlag => 3
    case Unlocking(_) => 2
  }

  function RecvWeight(r: RecvLoop): nat {
    match r
    case Handling => 16
    case Answering => 9
    case RecvRanging => 8
    case Shutting => 1
    case RecvReturned => 0
    case RecvFailed => 0
  }

  ghost function CallerWeights(cs: seq<Caller>): seq<nat> {
    seq(|cs|, i requires 0 <= i < |cs| => CallerWeight(cs[i]))
  }

  ghost function Work(s: State): nat {
    RecvWeight(s.recv) + Sum(CallerWeights(s.callers))
  }

  lemma CallerChange(cs: seq<Caller>, i: nat, c: Caller)
    requires i < |cs|
    ensures Sum(CallerWeights(cs[i := c])) + CallerWeight(cs[i]) == Sum(CallerWeights(cs)) + CallerWeight(c)
  {
    assert CallerWeights(cs[i := c]) == CallerWeights(cs)[i := CallerWeight(c)];
    SumUpdate(CallerWeights(cs), i, CallerWeight(c));
  }

  /** Each component may grow only where an earlier one shrinks. */
  ghost predicate Less(s': State, s: State) {
    || s'.quota < s.quota
    || (s'.quota == s.quota &&
        (|| Stage(s'.poll) < Stage(s.poll)
         || (Stage(s'.poll) == Stage(s.poll) &&
             (|| Left(s'.poll) < Left(s.poll)
              || (Left(s'.poll) == Left(s.poll) && Work(s') < Work(s))))))
  }

  ghost predicate ByPoller(step: Step) {
    step.PollOk? || step.PollFails? || step.Deliver? || step.Skip? || step.BatchDone? || step.StopSeen? || step.TimerFires? || step.CloseSink?
  }

  lemma StepDecreases(s: State, step: Step)
    requires Inv(s) && s.sendClosed && s.stopClosed && Enabled(s, step) && !step.TimerFires?
    ensures Less(Apply(s, step), s)
    ensures Apply(s, step).sendClosed && Apply(s, step).stopClosed
  {
    if ByCaller(step) {
      CallerDecreases(s, step);
    } else if ByPoller(step) {
      PollerDecreases(s, step);
    } else {
      RecvDecreases(s, step);
    }
  }

  lemma CallerDecreases(s: State, step: Step)
    requires Inv(s) && s.sendClosed && s.stopClosed && Enabled(s, step) && ByCaller(step)
    ensures Less(Apply(s, step), s)
    ensures Apply(s, step).sendClosed && Apply(s, step).stopClosed
  {
    var s' := Apply(s, step);
    CallerChange(s.callers, step.i, s'.callers[step.i]);
    assert s'.callers == s.callers[step.i := s'.callers[step.i]];
  }

  lemma PollerDecreases(s: State, step: Step)
    requires Inv(s) && s.sendClosed && s.stopClosed && Enabled(s, step) && ByPoller(step) && !step.TimerFires?
    ensures Less(Apply(s, step), s)
    ensures Apply(s, step).sendClosed && Apply(s, step).stopClosed
  {
  }

  lemma RecvDecreases(s: State, step: Step)
    requires Inv(s) && s.sendClosed && s.stopClosed && Enabled(s, step) && !ByCaller(step) && !ByPoller(step)
    ensures Less(Apply(s, step), s)
    ensures Apply(s, step).sendClosed && Apply(s, step).stopClosed
  {
    if step.Answer? {
      CallerChange(s.callers, 0, Waiting(Send));
    }
    if step.RecvChClosed? {
      CallerChange(s.callers, 0, Waiting(Close));
    }
  }

  /** From `m` on nothing moves, and nothing but new callbacks could. */
  ghost predicate Settled(run: nat -> State, m: nat) {
    Halted(run(m)) && forall j: nat :: m <= j ==> run(j) == run(m)
  }

  /** Until the next move the behaviour stands still. */
  lemma {:induction false} NextMove(run: nat -> State, act: nat -> Option<Step>, k: nat, j: nat) returns (i: nat)
    requires IsBehaviour(run, act) && k <= j && act(j).Some?
    ensures k <= i <= j && act(i).Some? && run(i) == run(k)
    decreases j - k
  {
    if act(k).Some? {
      i := k;
    } else {
      assert Moves(run, act, k);
      i := NextMove(run, act, k + 1, j);
    }
  }

  lemma {:induction false} StandsStill(run: nat -> State, act: nat -> Option<Step>, k: nat, j: nat)
    requires IsBehaviour(run, act) && k <= j
    requires forall i: nat :: k <= i ==> act(i).None?
    ensures run(j) == run(k)
    decreases j - k
  {
    if k == j {
    } else {
      assert Moves(run, act, k);
      StandsStill(run, act, k + 1, j);
    }
  }

  lemma NoMoreMoves(run: nat -> State, act: nat -> Option<Step>, k: nat)
    requires IsBehaviour(run, act)
    requires forall i: nat :: k <= i ==> act(i).None?
    ensures Settled(run, k)
  {
    assert Moves(run, act, k);
    forall j: nat | k <= j
      ensures run(j) == run(k)
    {
      StandsStill(run, act, k, j);
    }
  }

  /** Where SendCh and the stop channel are closed, every behaviour settles. */
  lemma {:induction false} EverythingSettles(run: nat -> State, act: nat -> Option<Step>, k: nat) returns (m: nat)
    requires IsBehaviour(run, act) && PrefersStop(run, act)
    requires Inv(run(k)) && run(k).sendClosed && run(k).stopClosed
    ensures k <= m && Settled(run, m)
    ensures Inv(run(m)) && run(m).sendClosed && run(m).stopClosed
    decreases run(k).quota, Stage(run(k).poll), Left(run(k).poll), Work(run(k))
  {
    if j: nat :| k <= j && act(j).Some? {
      var i := NextMove(run, act, k, j);
      assert Moves(run, act, i);
      InvStep(run(i), act(i).value);
      StepDecreases(run(i), act(i).value);
      m := EverythingSettles(run, act, i + 1);
    } else {
      NoMoreMoves(run, act, k);
      m := k;
    }
  }

  /**
   * From any reachable state in which SendCh has been closed, every behaviour that is fair to the
   * forwarder and lets a closed stop channel win the select settles after finitely many steps with
   * the forwarder gone and nobody inside the controller. Poller and receive loop have then returned
   * too, exactly when the poller is not left with a message for a receive loop that failed.
   */
  lemma ShutdownCompletes(n: nat, quota: nat, steps: seq<Step>, run: nat -> State, act: nat -> Option<Step>) returns (m: nat)
    requires IsRun(Init(n, quota), steps) && run(0) == After(Init(n, quota), steps)
    requires run(0).sendClosed
    requires IsBehaviour(run, act) && FairToForwarder(run, act) && PrefersStop(run, act)
    ensures Settled(run, m) && run(m).fwd.FwdExited?
    ensures forall i :: 0 <= i < |run(m).callers| ==> run(m).callers[i].Idle?
    ensures AllEnded(run(m)) <==> !PollerStuck(run(m))
  {
    InvInit(n, quota);
    RunKeeps(Init(n, quota), steps);
    var k := ForwarderStops(run, act, 0);
    m := EverythingSettles(run, act, k);
    HaltedMeansEnded(run(m));
    CallersHalted(run(m));
  }
}
