/** The two pollers' cursors over the server's append-only message log. */
module Polling {
  import opened Limits


  /** A log entry; `id` stands for its payload. */
  datatype Entry = Device(id: int) | Other(id: int)

  const INITIAL_POLL_INTERVAL := 100
  const MAX_POLL_INTERVAL := 2000
  /**
   * One round of the Go poller: whether the request failed, how many entries the server had to
   * return, and whether the stop channel was found closed in the select.
   */
  datatype Round = Round(failed: bool, available: nat, stopped: bool)

  /** The segment a request for `start` is answered with. */
  function Served(log: seq<Entry>, start: nat, available: nat): seq<Entry> {
    if start >= |log| then [] else if start + available <= |log| then log[start..start + available] else log[start..]
  }

  function Devices(segment: seq<Entry>): seq<Entry> {
    if segment == [] then []
    else (if segment[0].Device? then [segment[0]] else []) + Devices(segment[1..])
  }

  // The Go poller.

  datatype PollState = PollState(sink: seq<Entry>, start: nat, interval: nat, errCount: nat, closed: bool)

  const START := PollState([], 0, INITIAL_POLL_INTERVAL, 0, false)

  function Batch(log: seq<Entry>, p: PollState, r: Round): seq<Entry> {
    if r.failed then [] else Served(log, p.start, r.available)
  }

  function NextInterval(interval: nat, gotAny: bool): nat {
    if gotAny then INITIAL_POLL_INTERVAL
    else if 2 * interval > MAX_POLL_INTERVAL then MAX_POLL_INTERVAL
    else 2 * interval
  }

  function PollRound(log: seq<Entry>, p: PollState, r: Round): PollState {
    var errs := if r.failed then p.errCount + 1 else 0;
    if errs >= MAX_CONSECUTIVE_ERRORS then p.(errCount := errs, closed := true)
    else
      var batch := Batch(log, p, r);
      PollState(p.sink + Devices(batch), p.start + |Devices(batch)|, NextInterval(p.interval, batch != []), errs, r.stopped)
  }

  /** The poller after the given rounds; once it has closed its sink it does nothing more. */
  function PollAll(log: seq<Entry>, rounds: seq<Round>): PollState {
    if rounds == [] then START
    else
      var p := PollAll(log, rounds[..|rounds| - 1]);
      if p.closed then p else PollRound(log, p, rounds[|rounds| - 1])
  }

  /** The polling loop itself, run until it closes the sink or the rounds are used up. */
  method WebRTCPoll(log: seq<Entry>, rounds: seq<Round>)
      returns (sink: seq<Entry>, start: nat, pollInterval: nat, errCount: nat, closed: bool)
    ensures PollState(sink, start, pollInterval, errCount, closed) == PollAll(log, rounds)
  {
    sink, start, pollInterval, errCount, closed := [], 0, INITIAL_POLL_INTERVAL, 0, false;
    var k := 0;
    while k < |rounds| && !closed
      invariant k <= |rounds|
      invariant PollState(sink, start, pollInterval, errCount, closed) == PollAll(log, rounds[..k])
    {
      assert rounds[..k + 1][..k] == rounds[..k];
      var round := rounds[k];
      k := k + 1;
      var messages: seq<Entry> := [];
      if round.failed {
        errCount := errCount + 1;
        if errCount >= MAX_CONSECUTIVE_ERRORS {
          closed := true;
          break;
        }
      } else {
        messages := Served(log, start, round.available);
        errCount := 0;
      }
      if |messages| > 0 {
        pollInterval := INITIAL_POLL_INTERVAL;
      } else {
        pollInterval := 2 * pollInterval;
        if pollInterval > MAX_POLL_INTERVAL {
          pollInterval := MAX_POLL_INTERVAL;
        }
      }
      sink, start := Drain(messages, sink, start);
      closed := round.stopped;
    }
    ClosedStays(log, rounds, k);
  }

  /** The inner loop: device messages go to the sink and advance the cursor, others are dropped. */
  method Drain(messages: seq<Entry>, sink0: seq<Entry>, start0: nat) returns (sink: seq<Entry>, start: nat)
    ensures sink == sink0 + Devices(messages)
    ensures start == start0 + |Devices(messages)|
  {
    sink, start := sink0, start0;
    for i := 0 to |messages|
      invariant sink + Devices(messages[i..]) == sink0 + Devices(messages)
      invariant start + |Devices(messages[i..])| == start0 + |Devices(messages)|
    {
      assert messages[i..][1..] == messages[i + 1..];
      if messages[i].Other? {
        continue;
      }
      sink := sink + [messages[i]];
      start := start + 1;
    }
  }

  lemma {:induction false} ClosedStays(log: seq<Entry>, rounds: seq<Round>, k: nat)
    requires k <= |rounds| && (k == |rounds| || PollAll(log, rounds[..k]).closed)
    ensures PollAll(log, rounds) == PollAll(log, rounds[..k])
    decreases |rounds|
  {
    if k == |rounds| {
      assert rounds[..k] == rounds;
    } else {
      var shorter := rounds[..|rounds| - 1];
      assert shorter[..k] == rounds[..k];
      ClosedStays(log, shorter, k);
    }
  }

  /** Every device message of the log precedes every other entry. */
  ghost predicate DevicesFirst(log: seq<Entry>) {
    forall i, j :: 0 <= i < j < |log| && log[i].Other? ==> log[j].Other?
  }

  lemma {:induction false} DevicesFirstPrefix(segment: seq<Entry>)
    ensures |Devices(segment)| <= |segment|
    ensures DevicesFirst(segment) <==> Devices(segment) == segment[..|Devices(segment)|]
    ensures (forall i :: 0 <= i < |segment| ==> segment[i].Device?) <==> Devices(segment) == segment
  {
    if segment == [] {
    } else {
      DevicesFirstPrefix(segment[1..]);
      var ds := Devices(segment[1..]);
      if segment[0].Device? {
        assert Devices(segment) == [segment[0]] + ds;
        assert segment[..|Devices(segment)|] == [segment[0]] + segment[1..][..|ds|];
        DevicesFirstTail(segment);
      } else if ds != [] {
        NoOthers(segment[1..]);
        assert Devices(segment)[0].Device?;
        NotAllOthers(segment[1..]);
      } else {
        NotAllOthers(segment[1..]);
      }
    }
  }

  lemma DevicesFirstTail(segment: seq<Entry>)
    requires segment != [] && segment[0].Device?
    ensures DevicesFirst(segment) <==> DevicesFirst(segment[1..])
  {
    if DevicesFirst(segment[1..]) {
      forall i, j | 0 <= i < j < |segment| && segment[i].Other?
        ensures segment[j].Other?
      {
        assert segment[1..][i - 1].Other? && segment[1..][j - 1] == segment[j];
      }
    } else {
      var i, j :| 0 <= i < j < |segment[1..]| && segment[1..][i].Other? && !segment[1..][j].Other?;
      assert segment[i + 1].Other? && !segment[j + 1].Other?;
    }
  }

  lemma {:induction false} NoOthers(segment: seq<Entry>)
    ensures forall i :: 0 <= i < |Devices(segment)| ==> Devices(segment)[i].Device?
  {
    if segment == [] {
    } else {
      NoOthers(segment[1..]);
    }
  }

  lemma {:induction false} NotAllOthers(segment: seq<Entry>)
    ensures Devices(segment) == [] <==> forall j :: 0 <= j < |segment| ==> segment[j].Other?
  {
    if segment == [] {
    } else {
      NotAllOthers(segment[1..]);
      if Devices(segment) == [] {
        assert forall j :: 1 <= j < |segment| ==> segment[j] == segment[1..][j - 1];
      } else if segment[0].Other? {
        var j :| 0 <= j < |segment[1..]| && !segment[1..][j].Other?;
        assert !segment[j + 1].Other?;
      }
    }
  }

  /** The sink has got the log up to the cursor: nothing missing, repeated or out of order. */
  ghost predicate Exact(log: seq<Entry>, p: PollState) {
    p.start <= |log| && p.sink == log[..p.start]
  }

  lemma {:induction false} ExactWhenDevicesFirst(log: seq<Entry>, rounds: seq<Round>)
    requires DevicesFirst(log)
    ensures Exact(log, PollAll(log, rounds))
  {
    if rounds == [] {
    } else {
      var shorter := rounds[..|rounds| - 1];
      ExactWhenDevicesFirst(log, shorter);
      var p := PollAll(log, shorter);
      if !p.closed {
        RoundKeepsExact(log, p, rounds[|rounds| - 1]);
      }
    }
  }

  lemma RoundKeepsExact(log: seq<Entry>, p: PollState, r: Round)
    requires DevicesFirst(log) && Exact(log, p)
    ensures Exact(log, PollRound(log, p, r))
  {
    BatchOfLog(log, p, r);
    BatchKeepsExact(log, p.start, Batch(log, p, r));
  }

  /** A batch is a segment of the log from the cursor on. */
  lemma BatchOfLog(log: seq<Entry>, p: PollState, r: Round)
    requires p.start <= |log|
    ensures p.start + |Batch(log, p, r)| <= |log|
    ensures Batch(log, p, r) == log[p.start..p.start + |Batch(log, p, r)|]
  {
  }

  lemma BatchKeepsExact(log: seq<Entry>, start: nat, batch: seq<Entry>)
    requires DevicesFirst(log) && start + |batch| <= |log| && batch == log[start..start + |batch|]
    ensures start + |Devices(batch)| <= |log|
    ensures log[..start] + Devices(batch) == log[..start + |Devices(batch)|]
  {
    assert forall i :: 0 <= i < |batch| ==> batch[i] == log[start + i];
    DevicesFirstPrefix(batch);
  }

  /**
   * The Go poller delivers the log exactly, under every schedule of polls, failures and stops, if
   * and only if no device message comes after an entry of another kind. The cursor counts delivered
   * messages, so it falls behind as soon as an entry is dropped in front of one that is not.
   */
  lemma GoPollerIsExact(log: seq<Entry>)
    ensures (forall rounds :: Exact(log, PollAll(log, rounds))) <==> DevicesFirst(log)
  {
    if DevicesFirst(log) {
      forall rounds
        ensures Exact(log, PollAll(log, rounds))
      {
        ExactWhenDevicesFirst(log, rounds);
      }
    } else {
      var rounds := [Round(false, |log|, false)];
      assert rounds[..0] == [];
      assert Batch(log, START, rounds[0]) == log;
      DevicesFirstPrefix(log);
      assert PollAll(log, rounds).sink == Devices(log);
      assert !Exact(log, PollAll(log, rounds));
    }
  }

  /** Whatever the log holds, the cursor is the number of messages delivered, and it never moves back. */
  lemma {:induction false} CursorCountsDeliveries(log: seq<Entry>, rounds: seq<Round>, k: nat)
    requires k <= |rounds|
    ensures PollAll(log, rounds).start == |PollAll(log, rounds).sink|
    ensures PollAll(log, rounds[..k]).sink <= PollAll(log, rounds).sink
  {
    if rounds == [] {
    } else {
      var shorter := rounds[..|rounds| - 1];
      if k < |rounds| {
        assert shorter[..k] == rounds[..k];
        CursorCountsDeliveries(log, shorter, k);
      } else {
        assert rounds[..k] == rounds;
        CursorCountsDeliveries(log, shorter, |shorter|);
      }
    }
  }

  /** The round brings at least one entry, if there is one, and polling goes on. */
  predicate Fruitful(r: Round) {
    !r.failed && !r.stopped && 0 < r.available
  }

  /** The sink gets device messages only. */
  lemma {:induction false} SinkHoldsDevices(log: seq<Entry>, rounds: seq<Round>)
    ensures forall i :: 0 <= i < |PollAll(log, rounds).sink| ==> PollAll(log, rounds).sink[i].Device?
  {
    if rounds == [] {
    } else {
      var shorter := rounds[..|rounds| - 1];
      SinkHoldsDevices(log, shorter);
      NoOthers(Batch(log, PollAll(log, shorter), rounds[|rounds| - 1]));
    }
  }

  lemma {:induction false} DevicesAppend(xs: seq<Entry>, ys: seq<Entry>)
    ensures Devices(xs + ys) == Devices(xs) + Devices(ys)
  {
    if xs == [] {
      assert xs + ys == ys;
    } else {
      assert (xs + ys)[1..] == xs[1..] + ys;
      DevicesAppend(xs[1..], ys);
    }
  }

  /** A fruitful round brings a device message, or there is none left. */
  lemma FruitfulRound(log: seq<Entry>, p: PollState, r: Round)
    requires DevicesFirst(log) && Exact(log, p) && Fruitful(r)
    requires forall i :: 0 <= i < |p.sink| ==> p.sink[i].Device?
    ensures !PollRound(log, p, r).closed && p.start <= PollRound(log, p, r).start
    ensures p.start < PollRound(log, p, r).start || Devices(log) == p.sink
  {
    var batch := Batch(log, p, r);
    BatchOfLog(log, p, r);
    if Devices(batch) == [] {
      NotAllOthers(batch);
      if batch != [] {
        assert batch[0].Other? && batch[0] == log[p.start];
      }
      NothingLeft(log, p.start);
    }
  }

  lemma NothingLeft(log: seq<Entry>, start: nat)
    requires DevicesFirst(log) && start <= |log|
    requires forall i :: 0 <= i < start ==> log[i].Device?
    requires start < |log| ==> log[start].Other?
    ensures Devices(log) == log[..start]
  {
    DevicesFirstPrefix(log[..start]);
    NotAllOthers(log[start..]);
    DevicesAppend(log[..start], log[start..]);
    assert log[..start] + log[start..] == log;
  }

  /** With as many fruitful rounds as the log has device messages, exactly these have all arrived. */
  lemma EverythingArrives(log: seq<Entry>, rounds: seq<Round>)
    requires DevicesFirst(log) && forall i :: 0 <= i < |rounds| ==> Fruitful(rounds[i])
    requires |Devices(log)| <= |rounds|
    ensures PollAll(log, rounds).sink == Devices(log)
  {
    RoundsBringMessages(log, rounds);
    ExactWhenDevicesFirst(log, rounds);
    DevicesFirstPrefix(log);
    DevicesBounded(log, PollAll(log, rounds), rounds);
  }

  /** No more than the log's device messages arrive. */
  lemma DevicesBounded(log: seq<Entry>, p: PollState, rounds: seq<Round>)
    requires p == PollAll(log, rounds) && Exact(log, p)
    ensures |p.sink| <= |Devices(log)|
    ensures |p.sink| == |Devices(log)| ==> p.sink == Devices(log)
  {
    SinkHoldsDevices(log, rounds);
    DevicesFirstPrefix(log[..p.start]);
    DevicesAppend(log[..p.start], log[p.start..]);
    assert log[..p.start] + log[p.start..] == log;
  }

  lemma {:induction false} RoundsBringMessages(log: seq<Entry>, rounds: seq<Round>)
    requires DevicesFirst(log) && forall i :: 0 <= i < |rounds| ==> Fruitful(rounds[i])
    ensures !PollAll(log, rounds).closed
    ensures |rounds| <= |PollAll(log, rounds).sink| || PollAll(log, rounds).sink == Devices(log)
  {
    if rounds == [] {
    } else {
      var n := |rounds| - 1;
      var p := PollAll(log, rounds[..n]);
      RoundsBringMessages(log, rounds[..n]);
      ExactWhenDevicesFirst(log, rounds[..n]);
      SinkHoldsDevices(log, rounds[..n]);
      FruitfulRound(log, p, rounds[n]);
      RoundGrows(log, rounds, p);
    }
  }

  lemma RoundGrows(log: seq<Entry>, rounds: seq<Round>, p: PollState)
    requires rounds != [] && p == PollAll(log, rounds[..|rounds| - 1]) && !p.closed
    requires DevicesFirst(log) && Exact(log, p)
    requires var n := |rounds| - 1;
             n <= |p.sink| || p.sink == Devices(log)
    requires p.start < PollRound(log, p, rounds[|rounds| - 1]).start || Devices(log) == p.sink
    ensures |rounds| <= |PollAll(log, rounds).sink| || PollAll(log, rounds).sink == Devices(log)
  {
    ExactWhenDevicesFirst(log, rounds);
    DevicesBounded(log, PollAll(log, rounds), rounds);
  }

  /** How many of the first `k` rounds failed last in a row. */
  function FailStreak(rounds: seq<Round>, k: nat): nat
    requires k <= |rounds|
  {
    if k == 0 || !rounds[k - 1].failed then 0 else 1 + FailStreak(rounds, k - 1)
  }

  /** How many rounds at the end brought nothing. */
  function QuietStreak(log: seq<Entry>, rounds: seq<Round>): nat {
    if rounds == [] then 0
    else
      var shorter := rounds[..|rounds| - 1];
      if Batch(log, PollAll(log, shorter), rounds[|rounds| - 1]) != [] then 0 else 1 + QuietStreak(log, shorter)
  }

  function Doubled(n: nat, times: nat): nat {
    if times == 0 then n else 2 * Doubled(n, times - 1)
  }

  ghost predicate NeverStopped(rounds: seq<Round>) {
    forall i :: 0 <= i < |rounds| ==> !rounds[i].stopped
  }

  /** At no point were there too many failures in a row. */
  ghost predicate ShortStreaks(rounds: seq<Round>) {
    forall k :: 0 <= k <= |rounds| ==> FailStreak(rounds, k) < MAX_CONSECUTIVE_ERRORS
  }

  ghost predicate KeepsPolling(rounds: seq<Round>) {
    NeverStopped(rounds) && ShortStreaks(rounds)
  }

  /**
   * The poller closes its sink exactly when it has seen the stop channel closed or the tenth failure
   * in a row; until then its interval is the initial one doubled for every quiet round since the
   * last message, up to the maximum.
   */
  lemma PollerEndsAndSlowsDown(log: seq<Entry>, rounds: seq<Round>)
    ensures PollAll(log, rounds).closed <==> !KeepsPolling(rounds)
    ensures KeepsPolling(rounds) ==> PollAll(log, rounds).errCount == FailStreak(rounds, |rounds|)
    ensures KeepsPolling(rounds) ==>
              var d := Doubled(INITIAL_POLL_INTERVAL, QuietStreak(log, rounds));
              PollAll(log, rounds).interval == if d < MAX_POLL_INTERVAL then d else MAX_POLL_INTERVAL
  {
    PollerEnds(log, rounds);
    if KeepsPolling(rounds) {
      PollerSlowsDown(log, rounds);
    }
  }

  lemma {:induction false} FailStreakPrefix(rounds: seq<Round>, n: nat, k: nat)
    requires k <= n <= |rounds|
    ensures FailStreak(rounds[..n], k) == FailStreak(rounds, k)
  {
    if k == 0 {
    } else {
      FailStreakPrefix(rounds, n, k - 1);
    }
  }

  lemma KeepsPollingSnoc(rounds: seq<Round>)
    requires rounds != []
    ensures KeepsPolling(rounds) <==>
              KeepsPolling(rounds[..|rounds| - 1]) && !rounds[|rounds| - 1].stopped &&
              FailStreak(rounds, |rounds|) < MAX_CONSECUTIVE_ERRORS
  {
    var n := |rounds| - 1;
    forall k | 0 <= k <= n
      ensures FailStreak(rounds[..n], k) == FailStreak(rounds, k)
    {
      FailStreakPrefix(rounds, n, k);
    }
  }

  lemma {:induction false} PollerEnds(log: seq<Entry>, rounds: seq<Round>)
    ensures PollAll(log, rounds).closed <==> !KeepsPolling(rounds)
    ensures KeepsPolling(rounds) ==> PollAll(log, rounds).errCount == FailStreak(rounds, |rounds|)
  {
    if rounds == [] {
      assert FailStreak(rounds, 0) == 0;
    } else {
      var n := |rounds| - 1;
      PollerEnds(log, rounds[..n]);
      KeepsPollingSnoc(rounds);
      FailStreakPrefix(rounds, n, n);
    }
  }

  lemma {:induction false} PollerSlowsDown(log: seq<Entry>, rounds: seq<Round>)
    requires KeepsPolling(rounds)
    ensures var d := Doubled(INITIAL_POLL_INTERVAL, QuietStreak(log, rounds));
            PollAll(log, rounds).interval == if d < MAX_POLL_INTERVAL then d else MAX_POLL_INTERVAL
  {
    if rounds == [] {
    } else {
      var shorter := rounds[..|rounds| - 1];
      KeepsPollingSnoc(rounds);
      PollerEnds(log, shorter);
      PollerEnds(log, rounds);
      PollerSlowsDown(log, shorter);
    }
  }

  // The browser's poller.

  const INITIAL_POLL_DELAY := 1000
  const MAX_POLL_DELAY := 60000

  /** `delivered` is what the device-message callback has been given. */
  class PollingConnector {
    var messagesReceived: nat
    var delivered: seq<Entry>
    var currentPollDelay: nat
    var scheduled: bool

    /** Between polls the callback has seen the log up to the cursor, whatever the entries are. */
    ghost predicate Valid(log: seq<Entry>)
      reads this
    {
      messagesReceived <= |log| && delivered == log[..messagesReceived]
    }

    constructor (log: seq<Entry>)
      ensures Valid(log) && delivered == [] && scheduled && currentPollDelay == INITIAL_POLL_DELAY
    {
      messagesReceived, delivered, currentPollDelay, scheduled := 0, [], INITIAL_POLL_DELAY, true;
    }

    method PollMessages(log: seq<Entry>, available: nat) returns (arr: seq<Entry>)
      requires messagesReceived <= |log|
      modifies this`messagesReceived
      ensures arr == Served(log, old(messagesReceived), available)
      ensures messagesReceived == old(messagesReceived) + |arr| <= |log|
    {
      arr := Served(log, messagesReceived, available);
      messagesReceived := messagesReceived + |arr|;
    }

    /** One poll. A fetch that fails ends the polling, since nothing reschedules the routine. */
    method PollerRoutine(log: seq<Entry>, failed: bool, available: nat)
      requires Valid(log) && scheduled
      modifies this
      ensures Valid(log)
      ensures scheduled == !failed
      ensures failed ==> delivered == old(delivered) && currentPollDelay == old(currentPollDelay)
      ensures !failed ==> delivered == old(delivered) + Served(log, old(messagesReceived), available)
      ensures !failed ==> currentPollDelay ==
                            if delivered != old(delivered) then INITIAL_POLL_DELAY
                            else if 2 * old(currentPollDelay) < MAX_POLL_DELAY then 2 * old(currentPollDelay)
                            else MAX_POLL_DELAY
    {
      if failed {
        scheduled := false;
        return;
      }
      var messages := PollMessages(log, available);
      currentPollDelay := if 2 * currentPollDelay < MAX_POLL_DELAY then 2 * currentPollDelay else MAX_POLL_DELAY;
      for i := 0 to |messages|
        invariant delivered == old(delivered) + messages[..i]
        invariant messagesReceived == old(messagesReceived) + |messages| <= |log| && scheduled
        invariant currentPollDelay ==
                    if 0 < i then INITIAL_POLL_DELAY
                    else if 2 * old(currentPollDelay) < MAX_POLL_DELAY then 2 * old(currentPollDelay)
                    else MAX_POLL_DELAY
      {
        delivered := delivered + [messages[i]];
        currentPollDelay := INITIAL_POLL_DELAY;
      }
    }
  }
}
