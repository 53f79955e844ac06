/**
 * What the state of the signalling goroutines says about the steps that led to it, and what can
 * still be sent from there.
 */
module SignallingHistory {
  import opened Limits
  import opened Wrappers
  import opened Sums
  import opened Signalling
  import opened Shutdown

  /** Posts that failed since the last good one or the last new message, and whether the forwarder gave up. */
  datatype Posts = Posts(streak: nat, gaveUp: bool)

  /** Polls that failed since the last good one, whether the stop was seen, and device messages fetched and delivered. */
  datatype Polls = Polls(streak: nat, stopSeen: bool, fetched: nat, delivered: nat)

  /** Messages asked to be sent, and handed to the forwarder. */
  datatype Sends = Sends(asked: nat, forwarded: nat)

  /** Whether the receive loop failed, or returned. */
  datatype Ends = Ends(failed: bool, returned: bool)

  /** What an onlooker counts of the steps alone. */
  datatype History = History(posts: Posts, polls: Polls, sends: Sends, ends: Ends)

  const NOTHING_YET := History(Posts(0, false), Polls(0, false, 0, 0), Sends(0, 0), Ends(false, false))

  function DeviceCount(batch: seq<bool>): nat {
    if batch == [] then 0 else (if batch[0] then 1 else 0) + DeviceCount(batch[1..])
  }

  function ObservePosts(p: Posts, step: Step): Posts {
    match step
    case Forward(_) => p.(streak := 0)
    case PostOk => p.(streak := 0)
    case PostFails => p.(streak := p.streak + 1)
    case GiveUp => p.(gaveUp := true)
    case _ => p
  }

  function ObservePolls(p: Polls, step: Step): Polls {
    match step
    case PollOk(batch) => p.(streak := 0, fetched := p.fetched + DeviceCount(batch))
    case PollFails => p.(streak := p.streak + 1)
    case StopSeen => p.(stopSeen := true)
    case Deliver => p.(delivered := p.delivered + 1)
    case _ => p
  }

  function ObserveSends(m: Sends, step: Step): Sends {
    match step
    case Call(_, Send) => m.(asked := m.asked + 1)
    case Answer => m.(asked := m.asked + 1)
    case Forward(_) => m.(forwarded := m.forwarded + 1)
    case _ => m
  }

  function ObserveEnds(e: Ends, step: Step): Ends {
    match step
    case HandlingFails => e.(failed := true)
    case ShutDown => e.(returned := true)
    case _ => e
  }

  function Observe(h: History, step: Step): History {
    History(ObservePosts(h.posts, step), ObservePolls(h.polls, step), ObserveSends(h.sends, step), ObserveEnds(h.ends, step))
  }

  function ObserveAll(h: History, steps: seq<Step>): History
    decreases |steps|
  {
    if steps == [] then h else ObserveAll(Observe(h, steps[0]), steps[1..])
  }

  /** The forwarder has given up, or is about to close the stop channel because of that. */
  ghost predicate GivenUp(f: Forwarder) {
    f == ClosingStop(true) || f == FwdExited(true)
  }

  /** The forwarder gives up exactly by giving up, and that takes ten bad posts of one message in a row. */
  ghost predicate ForwarderExplained(f: Forwarder, p: Posts) {
    && (f.Posting? ==> f.tries == p.streak)
    && (GivenUp(f) <==> p.gaveUp)
    && (p.gaveUp ==> MAX_CONSECUTIVE_ERRORS <= p.streak)
  }

  /** The poller ends exactly when it was told to or after ten bad polls in a row, and it loses no message. */
  ghost predicate PollerExplained(poller: Poller, errCount: nat, p: Polls) {
    && errCount == p.streak
    && (poller.ClosingSink? || poller.PollExited? <==> p.stopSeen || MAX_CONSECUTIVE_ERRORS <= p.streak)
    && p.fetched == p.delivered + (if poller.Delivering? then DeviceCount(poller.batch) else 0)
  }

  ghost predicate RecvExplained(r: RecvLoop, e: Ends) {
    (r.RecvFailed? <==> e.failed) && (r.RecvReturned? <==> e.returned)
  }

  function PendingSend(c: Caller): nat {
    if c == Waiting(Send) || c == Locked(Send) || c == Sending then 1 else 0
  }

  ghost function PendingSends(cs: seq<Caller>): nat {
    Sum(seq(|cs|, i requires 0 <= i < |cs| => PendingSend(cs[i])))
  }

  /** Every message asked to be sent is forwarded or still on its way, until the flag is set. */
  ghost predicate SendsExplained(cs: seq<Caller>, sendChClosed: bool, m: Sends) {
    && m.forwarded + PendingSends(cs) <= m.asked
    && (!sendChClosed ==> m.forwarded + PendingSends(cs) == m.asked)
  }

  ghost predicate ByPoller(step: Step) {
    step.PollOk? || step.PollFails? || step.Deliver? || step.Skip? || step.BatchDone? || step.StopSeen? || step.TimerFires? || step.CloseSink?
  }

  ghost predicate ByForwarder(step: Step) {
    step.Forward? || step.PostOk? || step.PostFails? || step.GiveUp? || step.SendChDrained? || step.CloseStop?
  }

  lemma ForwarderStep(s: State, p: Posts, step: Step)
    requires ForwarderExplained(s.fwd, p) && Enabled(s, step)
    ensures ForwarderExplained(Apply(s, step).fwd, ObservePosts(p, step))
  {
    if ByForwarder(step) {
      ForwarderMoves(s, p, step);
    } else {
      ForwarderRests(s, p, step);
    }
  }

  lemma ForwarderMoves(s: State, p: Posts, step: Step)
    requires ForwarderExplained(s.fwd, p) && Enabled(s, step) && ByForwarder(step)
    ensures ForwarderExplained(Apply(s, step).fwd, ObservePosts(p, step))
  {
  }

  lemma ForwarderRests(s: State, p: Posts, step: Step)
    requires Enabled(s, step) && !ByForwarder(step)
    ensures Apply(s, step).fwd == s.fwd && ObservePosts(p, step) == p
  {
  }

  lemma PollerStep(s: State, p: Polls, step: Step)
    requires PollerExplained(s.poll, s.errCount, p) && Enabled(s, step)
    ensures PollerExplained(Apply(s, step).poll, Apply(s, step).errCount, ObservePolls(p, step))
  {
    if ByPoller(step) {
      PollerMoves(s, p, step);
    } else {
      PollerRests(s, p, step);
    }
  }

  lemma PollerMoves(s: State, p: Polls, step: Step)
    requires PollerExplained(s.poll, s.errCount, p) && Enabled(s, step) && ByPoller(step)
    ensures PollerExplained(Apply(s, step).poll, Apply(s, step).errCount, ObservePolls(p, step))
  {
  }

  lemma PollerRests(s: State, p: Polls, step: Step)
    requires Enabled(s, step) && !ByPoller(step)
    ensures Apply(s, step).poll == s.poll && Apply(s, step).errCount == s.errCount && ObservePolls(p, step) == p
  {
  }

  lemma RecvStep(s: State, e: Ends, step: Step)
    requires RecvExplained(s.recv, e) && Enabled(s, step)
    ensures RecvExplained(Apply(s, step).recv, ObserveEnds(e, step))
  {
    if ByRecvLoop(step) {
      RecvMoves(s, e, step);
    } else {
      RecvRests(s, e, step);
    }
  }

  lemma RecvMoves(s: State, e: Ends, step: Step)
    requires RecvExplained(s.recv, e) && Enabled(s, step) && ByRecvLoop(step)
    ensures RecvExplained(Apply(s, step).recv, ObserveEnds(e, step))
  {
  }

  lemma RecvRests(s: State, e: Ends, step: Step)
    requires Enabled(s, step) && !ByRecvLoop(step)
    ensures ObserveEnds(e, step) == e
    ensures Apply(s, step).recv == s.recv || (s.recv.RecvRanging? && Apply(s, step).recv.Handling?)
  {
  }

  lemma PendingChange(cs: seq<Caller>, i: nat, c: Caller)
    requires i < |cs|
    ensures PendingSends(cs[i := c]) + PendingSend(cs[i]) == PendingSends(cs) + PendingSend(c)
  {
    var weights := seq(|cs|, j requires 0 <= j < |cs| => PendingSend(cs[j]));
    assert seq(|cs|, j requires 0 <= j < |cs| => PendingSend(cs[i := c][j])) == weights[i := PendingSend(c)];
    SumUpdate(weights, i, PendingSend(c));
  }

  lemma SendsStep(s: State, m: Sends, step: Step)
    requires 0 < |s.callers| && SendsExplained(s.callers, s.sendChClosed, m) && Enabled(s, step)
    ensures SendsExplained(Apply(s, step).callers, Apply(s, step).sendChClosed, ObserveSends(m, step))
  {
    if ByCaller(step) {
      CallerShape(s, m, step);
      PendingChange(s.callers, step.i, Apply(s, step).callers[step.i]);
    } else if ByRecvLoop(step) {
      RecvShape(s, m, step);
      PendingChange(s.callers, 0, Apply(s, step).callers[0]);
    } else {
      OtherShape(s, m, step);
    }
  }

  /** What one caller's step does to its pending message and to the counts. */
  lemma CallerShape(s: State, m: Sends, step: Step)
    requires Enabled(s, step) && ByCaller(step)
    ensures var s' := Apply(s, step);
            var m' := ObserveSends(m, step);
            && s'.callers == s.callers[step.i := s'.callers[step.i]]
            && (s.sendChClosed ==> s'.sendChClosed)
            && PendingSend(s'.callers[step.i]) + m'.forwarded - m.forwarded <= PendingSend(s.callers[step.i]) + m'.asked - m.asked
            && (!s'.sendChClosed ==>
                  PendingSend(s'.callers[step.i]) + m'.forwarded - m.forwarded == PendingSend(s.callers[step.i]) + m'.asked - m.asked)
  {
  }

  lemma RecvShape(s: State, m: Sends, step: Step)
    requires 0 < |s.callers| && Enabled(s, step) && ByRecvLoop(step)
    ensures var s' := Apply(s, step);
            var m' := ObserveSends(m, step);
            && s'.callers == s.callers[0 := s'.callers[0]]
            && s'.sendChClosed == s.sendChClosed && m'.forwarded == m.forwarded
            && PendingSend(s'.callers[0]) == PendingSend(s.callers[0]) + m'.asked - m.asked
  {
  }

  lemma OtherShape(s: State, m: Sends, step: Step)
    requires Enabled(s, step) && !ByCaller(step) && !ByRecvLoop(step)
    ensures Apply(s, step).callers == s.callers && Apply(s, step).sendChClosed == s.sendChClosed && ObserveSends(m, step) == m
  {
  }

  ghost predicate Explained(s: State, h: History) {
    && ForwarderExplained(s.fwd, h.posts) && PollerExplained(s.poll, s.errCount, h.polls)
    && RecvExplained(s.recv, h.ends) && SendsExplained(s.callers, s.sendChClosed, h.sends)
  }

  lemma {:induction false} RunIsExplained(s: State, h: History, steps: seq<Step>)
    requires Inv(s) && Explained(s, h) && IsRun(s, steps)
    ensures Explained(After(s, steps), ObserveAll(h, steps))
    decreases |steps|
  {
    if steps == [] {
    } else {
      InvStep(s, steps[0]);
      ForwarderStep(s, h.posts, steps[0]);
      PollerStep(s, h.polls, steps[0]);
      RecvStep(s, h.ends, steps[0]);
      SendsStep(s, h.sends, steps[0]);
      RunIsExplained(Apply(s, steps[0]), Observe(h, steps[0]), steps[1..]);
    }
  }

  /**
   * In every run: the forwarder has given up only after ten failed posts in a row of one message; the
   * poller is at its end exactly when it saw the stop channel closed or ten polls in a row failed, and
   * has delivered every device message it fetched but those of its current batch; the receive loop has
   * failed, or returned, exactly by failing, or returning; and as long as SendCh is open, every message
   * asked to be sent has been handed to the forwarder or is with the goroutine that sends it.
   */
  lemma EveryEndHasItsReason(n: nat, quota: nat, steps: seq<Step>)
    requires IsRun(Init(n, quota), steps)
    ensures Explained(After(Init(n, quota), steps), ObserveAll(NOTHING_YET, steps))
  {
    InvInit(n, quota);
    NothingPending(Init(n, quota).callers);
    RunIsExplained(Init(n, quota), NOTHING_YET, steps);
  }

  lemma NothingPending(cs: seq<Caller>)
    requires forall i :: 0 <= i < |cs| ==> cs[i].Idle?
    ensures PendingSends(cs) == 0
  {
    SumConstant(seq(|cs|, i requires 0 <= i < |cs| => PendingSend(cs[i])), 0);
  }

  // What can still be sent.

  /** The forwarder has not given up, and has a try left for the message it is on. */
  ghost predicate CanPost(f: Forwarder) {
    f.FwdReceiving? || (f.Posting? && f.tries < MAX_CONSECUTIVE_ERRORS)
  }

  /** A good post brings the forwarder back to waiting for the next message. */
  lemma ForwarderGetsReady(s0: State, steps: seq<Step>) returns (longer: seq<Step>)
    requires IsRun(s0, steps) && CanPost(After(s0, steps).fwd)
    ensures IsRun(s0, longer) && After(s0, longer) == After(s0, steps).(fwd := FwdReceiving)
  {
    longer := steps;
    if After(s0, steps).fwd.Posting? {
      Extend(s0, longer, PostOk);
      longer := longer + [PostOk];
    }
  }

  /** The sender holds the mutex, or waits for it while it is free. */
  ghost predicate NextToSend(s: State, i: nat) {
    && i < |s.callers| && PendingSend(s.callers[i]) == 1
    && s.mtx == (if s.callers[i].Waiting? then None else Some(i))
  }

  /** Up to holding the mutex with SendCh found open. */
  lemma SenderGetsThrough(s0: State, steps: seq<Step>, i: nat) returns (longer: seq<Step>)
    requires IsRun(s0, steps) && Inv(After(s0, steps)) && NextToSend(After(s0, steps), i) && !After(s0, steps).sendClosed
    ensures IsRun(s0, longer)
    ensures After(s0, longer) == After(s0, steps).(callers := After(s0, steps).callers[i := Sending], mtx := Some(i))
  {
    var s := After(s0, steps);
    longer := steps;
    if s.callers[i].Waiting? {
      Extend(s0, longer, Lock(i));
      longer := longer + [Lock(i)];
      Extend(s0, longer, CheckFlag(i));
      longer := longer + [CheckFlag(i)];
      assert s.callers[i := Locked(Send)][i := Sending] == s.callers[i := Sending];
    } else if s.callers[i].Locked? {
      Extend(s0, longer, CheckFlag(i));
      longer := longer + [CheckFlag(i)];
    } else {
      assert s.callers[i := Sending] == s.callers;
    }
  }

  /** The message is handed over and posted, and the mutex is free again. */
  lemma MessageIsPosted(s0: State, steps: seq<Step>, i: nat) returns (longer: seq<Step>)
    requires IsRun(s0, steps)
    requires var s := After(s0, steps);
             i < |s.callers| && s.callers[i].Sending? && s.mtx == Some(i) && s.fwd.FwdReceiving? && !s.sendClosed
    ensures IsRun(s0, longer) && longer == steps + [Forward(i)] + [PostOk] + [Unlock(i)]
    ensures After(s0, longer) == After(s0, steps).(callers := After(s0, steps).callers[i := Idle], mtx := None)
  {
    var cs := After(s0, steps).callers;
    longer := steps;
    Extend(s0, longer, Forward(i));
    longer := longer + [Forward(i)];
    Extend(s0, longer, PostOk);
    longer := longer + [PostOk];
    Extend(s0, longer, Unlock(i));
    longer := longer + [Unlock(i)];
    assert cs[i := Unlocking(Send)][i := Idle] == cs[i := Idle];
  }

  lemma SendCompletes(s0: State, steps: seq<Step>, i: nat) returns (longer: seq<Step>)
    requires Inv(s0) && IsRun(s0, steps)
    requires NextToSend(After(s0, steps), i) && !After(s0, steps).sendClosed && CanPost(After(s0, steps).fwd)
    ensures IsRun(s0, longer) && Forward(i) in longer
    ensures After(s0, longer) == After(s0, steps).(callers := After(s0, steps).callers[i := Idle], mtx := None, fwd := FwdReceiving)
  {
    var cs := After(s0, steps).callers;
    longer := ForwarderGetsReady(s0, steps);
    RunKeeps(s0, longer);
    longer := SenderGetsThrough(s0, longer, i);
    longer := MessageIsPosted(s0, longer, i);
    assert cs[i := Sending][i := Idle] == cs[i := Idle];
  }

  /** Whoever holds the mutex is sending, or is about to leave after a send. */
  ghost predicate NobodyClosing(s: State) {
    s.mtx.Some? ==> s.mtx.value < |s.callers| && Doing(s.callers[s.mtx.value], Send)
  }

  lemma MutexGetsFree(s: State) returns (steps: seq<Step>)
    requires Inv(s) && NobodyClosing(s) && !s.sendClosed && CanPost(s.fwd)
    ensures IsRun(s, steps)
    ensures var s' := After(s, steps);
            && s'.mtx.None? && !s'.sendClosed && CanPost(s'.fwd) && s'.quota == s.quota
            && |s'.callers| == |s.callers|
            && (forall j :: 0 <= j < |s.callers| && s.mtx != Some(j) ==> s'.callers[j] == s.callers[j])
            && (s.mtx.Some? ==> s'.callers[s.mtx.value].Idle?)
  {
    steps := [];
    if s.mtx.Some? {
      var h := s.mtx.value;
      assert HoldsLock(s.callers[h]);
      if s.callers[h].Unlocking? {
        Extend(s, steps, Unlock(h));
        steps := steps + [Unlock(h)];
      } else {
        steps := SendCompletes(s, steps, h);
      }
    }
  }

  /** The goroutine is on its way to hand over a message, or is free to make a call. */
  ghost predicate CanSend(s: State, i: nat) {
    && i < |s.callers|
    && (PendingSend(s.callers[i]) == 1 || (s.callers[i].Idle? && 0 < i && 0 < s.quota))
  }

  /** After a run in which the message of goroutine `i` was posted and everybody is ready for the next. */
  ghost predicate PostedAndReady(s: State, steps: seq<Step>, i: nat) {
    && IsRun(s, steps) && Forward(i) in steps
    && var s' := After(s, steps);
       i < |s'.callers| && s'.callers[i].Idle? && s'.fwd.FwdReceiving? && s'.mtx.None? && !s'.sendClosed
  }

  /**
   * From every reachable state with SendCh open, nobody about to close it and the forwarder not given
   * up, the message of any goroutine that has one, or may yet send one, can be posted, after which the
   * forwarder waits for the next.
   */
  lemma MessageCanBePosted(n: nat, quota: nat, steps: seq<Step>, i: nat) returns (more: seq<Step>)
    requires IsRun(Init(n, quota), steps)
    requires var s := After(Init(n, quota), steps);
             CanSend(s, i) && NobodyClosing(s) && !s.sendClosed && CanPost(s.fwd)
    ensures PostedAndReady(After(Init(n, quota), steps), more, i)
  {
    InvInit(n, quota);
    RunKeeps(Init(n, quota), steps);
    var s := After(Init(n, quota), steps);
    if s.mtx == Some(i) && PendingSend(s.callers[i]) == 1 {
      more := SendCompletes(s, [], i);
    } else {
      more := MutexGetsFree(s);
      RunKeeps(s, more);
      more := WaitingIsSent(s, more, i);
    }
  }

  lemma WaitingIsSent(s0: State, steps: seq<Step>, i: nat) returns (longer: seq<Step>)
    requires Inv(s0) && IsRun(s0, steps) && Inv(After(s0, steps))
    requires var s := After(s0, steps);
             s.mtx.None? && !s.sendClosed && CanPost(s.fwd) && CanSend(s, i)
    ensures PostedAndReady(s0, longer, i)
  {
    longer := steps;
    assert !HoldsLock(After(s0, steps).callers[i]);
    if After(s0, steps).callers[i].Idle? {
      Extend(s0, longer, Call(i, Send));
      longer := longer + [Call(i, Send)];
    }
    longer := SendCompletes(s0, longer, i);
  }
}
