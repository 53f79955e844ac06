/** Requests with retries, and the forwarder's messages to the device. */
module Forwarding {
  import opened Limits

  /** What one HTTP send comes back with. `decodes` is about the body the caller asked for. */
  datatype Reply = NoReply | Reply(status: int, decodes: bool)

  /** The reply to the k-th send of the whole run. */
  type Wire = nat -> Reply

  predicate Retryable(r: Reply) {
    r.Reply? && (r.status == 503 || r.status == 502)
  }

  predicate Good(r: Reply) {
    r.Reply? && 200 <= r.status <= 299 && r.decodes
  }

  function Attempts(retryAttempts: int): nat {
    if retryAttempts < 0 then 1 else retryAttempts + 1
  }

  /** The position of the reply that decides a request whose first send is number `k`. */
  function Decisive(wire: Wire, k: nat, attempts: nat): (d: nat)
    requires 1 <= attempts
    ensures k <= d < k + attempts
    decreases attempts
  {
    if attempts == 1 || !Retryable(wire(k)) then k else Decisive(wire, k + 1, attempts - 1)
  }

  /** Every earlier reply asks for a retry, and the deciding one does so only if no attempt is left. */
  lemma {:induction false} DecisiveIsFirst(wire: Wire, k: nat, attempts: nat)
    requires 1 <= attempts
    ensures forall i: nat :: k <= i < Decisive(wire, k, attempts) ==> Retryable(wire(i))
    ensures Decisive(wire, k, attempts) < k + attempts - 1 ==> !Retryable(wire(Decisive(wire, k, attempts)))
    decreases attempts
  {
    if attempts != 1 && Retryable(wire(k)) {
      DecisiveIsFirst(wire, k + 1, attempts - 1);
    }
  }

  /** The retry loop. `next` is the number of the first send not made. */
  method DoRequest(wire: Wire, k: nat, retryAttempts: int) returns (ok: bool, next: nat)
    ensures next == Decisive(wire, k, Attempts(retryAttempts)) + 1
    ensures k < next && (next == k + 1 || next - k - 1 <= retryAttempts)
    ensures forall i :: k <= i < next - 1 ==> Retryable(wire(i))
    ensures Retryable(wire(next - 1)) ==> retryAttempts <= next - k - 1
    ensures ok <==> Good(wire(next - 1))
  {
    DecisiveIsFirst(wire, k, Attempts(retryAttempts));
    var res := wire(k);
    next := k + 1;
    if res.NoReply? {
      return false, next;
    }
    var i := 0;
    while i < retryAttempts && Retryable(res)
      invariant 0 <= i && (i <= retryAttempts || i == 0)
      invariant next == k + 1 + i && res == wire(next - 1) && res.Reply?
      invariant Decisive(wire, k, Attempts(retryAttempts)) == Decisive(wire, next - 1, Attempts(retryAttempts) - i)
    {
      res := wire(next);
      next := next + 1;
      i := i + 1;
      if res.NoReply? {
        return false, next;
      }
    }
    ok := 200 <= res.status <= 299 && res.decodes;
  }

  datatype Outcome = Drained | GaveUp

  /** How the forwarding of one message went: whether a post succeeded, and the first send not made. */
  datatype Posted = Posted(ok: bool, next: nat)

  function Post(wire: Wire, k: nat, attempts: nat, tries: nat): (r: Posted)
    requires 1 <= attempts
    decreases tries
  {
    if tries == 0 then Posted(false, k)
    else
      var next := Decisive(wire, k, attempts) + 1;
      if Good(wire(next - 1)) then Posted(true, next) else Post(wire, next, attempts, tries - 1)
  }

  lemma {:induction false} PostBound(wire: Wire, k: nat, attempts: nat, tries: nat)
    requires 1 <= attempts
    ensures k <= Post(wire, k, attempts, tries).next <= k + tries * attempts
    decreases tries
  {
    if tries == 0 {
    } else {
      var next := Decisive(wire, k, attempts) + 1;
      PostBound(wire, next, attempts, tries - 1);
      Distribute(tries - 1, attempts);
    }
  }

  /** A message counts as posted only on a good reply. */
  lemma {:induction false} PostedMeansGood(wire: Wire, k: nat, attempts: nat, tries: nat)
    requires 1 <= attempts && Post(wire, k, attempts, tries).ok
    ensures k < Post(wire, k, attempts, tries).next && Good(wire(Post(wire, k, attempts, tries).next - 1))
    decreases tries
  {
    var next := Decisive(wire, k, attempts) + 1;
    if !Good(wire(next - 1)) {
      PostedMeansGood(wire, next, attempts, tries - 1);
    }
  }

  datatype Forwarded = Forwarded(taken: nat, accepted: nat, next: nat, outcome: Outcome)

  /** Forwarding the messages in order, until they run out or one cannot be posted in `tries` requests. */
  function ForwardAll(count: nat, wire: Wire, attempts: nat, tries: nat): Forwarded
    requires 1 <= attempts
  {
    if count == 0 then Forwarded(0, 0, 0, Drained)
    else
      var f := ForwardAll(count - 1, wire, attempts, tries);
      if f.outcome.GaveUp? then f
      else
        var p := Post(wire, f.next, attempts, tries);
        if p.ok then Forwarded(f.taken + 1, f.accepted + 1, p.next, Drained)
        else Forwarded(f.taken + 1, f.accepted, p.next, GaveUp)
  }

  /** The inner loop: one message, in at most `maxErrors` requests. */
  method PostMessage(wire: Wire, k: nat, retryAttempts: int, maxErrors: nat) returns (ok: bool, next: nat)
    ensures Posted(ok, next) == Post(wire, k, Attempts(retryAttempts), maxErrors)
  {
    next := k;
    var i := 0;
    while i < maxErrors
      invariant i <= maxErrors
      invariant Post(wire, k, Attempts(retryAttempts), maxErrors) == Post(wire, next, Attempts(retryAttempts), maxErrors - i)
    {
      ok, next := DoRequest(wire, next, retryAttempts);
      if ok {
        return;
      }
      i := i + 1;
    }
    ok := false;
  }

  /**
   * The forwarder's loop over the messages it gets from SendCh before that is closed; it is called
   * with MAX_CONSECUTIVE_ERRORS. A post that fails is not applied by the server, so `accepted`
   * grows on success only.
   */
  method WebRTCForward<M>(msgs: seq<M>, wire: Wire, retryAttempts: int, maxErrors: nat)
      returns (taken: seq<M>, accepted: seq<M>, sends: nat, outcome: Outcome)
    ensures var f := ForwardAll(|msgs|, wire, Attempts(retryAttempts), maxErrors);
            && f.accepted <= f.taken <= |msgs|
            && taken == msgs[..f.taken] && accepted == msgs[..f.accepted]
            && sends == f.next && outcome == f.outcome
  {
    ghost var attempts := Attempts(retryAttempts);
    taken, accepted, sends, outcome := [], [], 0, Drained;
    var n := 0;
    while n < |msgs|
      invariant n <= |msgs| && outcome == Drained
      invariant ForwardAll(n, wire, attempts, maxErrors) == Forwarded(n, n, sends, Drained)
      invariant taken == msgs[..n] && accepted == msgs[..n]
    {
      taken := taken + [msgs[n]];
      var ok;
      ok, sends := PostMessage(wire, sends, retryAttempts, maxErrors);
      if ok {
        accepted := accepted + [msgs[n]];
      }
      n := n + 1;
      if !ok {
        outcome := GaveUp;
        ForwardStays(wire, attempts, maxErrors, n, |msgs|);
        return;
      }
    }
  }

  lemma {:induction false} ForwardStays(wire: Wire, attempts: nat, tries: nat, n: nat, m: nat)
    requires 1 <= attempts && n <= m
    requires ForwardAll(n, wire, attempts, tries).outcome.GaveUp?
    ensures ForwardAll(m, wire, attempts, tries) == ForwardAll(n, wire, attempts, tries)
    decreases m - n
  {
    if n == m {
    } else {
      ForwardStays(wire, attempts, tries, n, m - 1);
    }
  }

  /**
   * What the server accepts is a prefix of what was taken from SendCh, in order and without
   * repeats, lacking at most the last message, and that only when the forwarder gave up on it. The
   * nested retry loops make at most `tries * attempts` HTTP sends a message.
   */
  lemma {:induction false} AcceptedIsPrefix(count: nat, wire: Wire, attempts: nat, tries: nat)
    requires 1 <= attempts
    ensures var f := ForwardAll(count, wire, attempts, tries);
            && f.taken == f.accepted + (if f.outcome.GaveUp? then 1 else 0)
            && (f.outcome.Drained? <==> f.accepted == count)
            && f.taken <= count
            && f.next <= f.taken * (tries * attempts)
  {
    if count == 0 {
    } else {
      AcceptedIsPrefix(count - 1, wire, attempts, tries);
      var f := ForwardAll(count - 1, wire, attempts, tries);
      PostBound(wire, f.next, attempts, tries);
      Distribute(f.taken, tries * attempts);
    }
  }

  lemma Distribute(n: nat, c: int)
    ensures (n + 1) * c == n * c + c
  {
  }

  /** A message is given up only after `tries` requests in a row came back bad. */
  lemma {:induction false} GivesUpOnlyAfterTries(wire: Wire, k: nat, attempts: nat, tries: nat) returns (ends: seq<nat>)
    requires 1 <= attempts && !Post(wire, k, attempts, tries).ok
    ensures |ends| == tries
    ensures forall i :: 0 <= i < tries ==> k <= ends[i] < Post(wire, k, attempts, tries).next && !Good(wire(ends[i]))
    ensures forall i, j :: 0 <= i < j < tries ==> ends[i] < ends[j]
    decreases tries
  {
    if tries == 0 {
      ends := [];
    } else {
      var d := Decisive(wire, k, attempts);
      ends := GivesUpOnlyAfterTries(wire, d + 1, attempts, tries - 1);
      PostBound(wire, d + 1, attempts, tries - 1);
      ends := [d] + ends;
    }
  }

  // The forwarder's answer against the replies of its requests.

  /** `ends` are the deciding replies of successive requests, the first send of which is number `k`. */
  ghost predicate Requests(wire: Wire, k: nat, attempts: nat, ends: seq<nat>)
    requires 1 <= attempts
    decreases |ends|
  {
    ends == [] || (ends[0] == Decisive(wire, k, attempts) && Requests(wire, ends[0] + 1, attempts, ends[1..]))
  }

  /** The first send after the requests. */
  function NextSend(k: nat, ends: seq<nat>): nat {
    if ends == [] then k else ends[|ends| - 1] + 1
  }

  function Goods(wire: Wire, ends: seq<nat>): nat {
    if ends == [] then 0 else (if Good(wire(ends[0])) then 1 else 0) + Goods(wire, ends[1..])
  }

  ghost predicate AllBad(wire: Wire, ends: seq<nat>) {
    forall i :: 0 <= i < |ends| ==> !Good(wire(ends[i]))
  }

  lemma {:induction false} GoodsAppend(wire: Wire, xs: seq<nat>, ys: seq<nat>)
    ensures Goods(wire, xs + ys) == Goods(wire, xs) + Goods(wire, ys)
  {
    if xs == [] {
      assert xs + ys == ys;
    } else {
      assert (xs + ys)[1..] == xs[1..] + ys;
      GoodsAppend(wire, xs[1..], ys);
    }
  }

  lemma {:induction false} RequestsAppend(wire: Wire, k: nat, attempts: nat, xs: seq<nat>, ys: seq<nat>)
    requires 1 <= attempts && Requests(wire, k, attempts, xs) && Requests(wire, NextSend(k, xs), attempts, ys)
    ensures Requests(wire, k, attempts, xs + ys) && NextSend(k, xs + ys) == NextSend(NextSend(k, xs), ys)
    decreases |xs|
  {
    if xs == [] {
      assert xs + ys == ys;
    } else {
      assert (xs + ys)[1..] == xs[1..] + ys;
      RequestsAppend(wire, xs[0] + 1, attempts, xs[1..], ys);
    }
  }

  lemma {:induction false} AllBadHasNoGoods(wire: Wire, ends: seq<nat>)
    requires AllBad(wire, ends)
    ensures Goods(wire, ends) == 0
  {
    if ends == [] {
    } else {
      assert AllBad(wire, ends[1..]);
      AllBadHasNoGoods(wire, ends[1..]);
    }
  }

  /** One message: bad requests, at most `tries` in all, and then a good one exactly if it was posted. */
  lemma {:induction false} PostReplies(wire: Wire, k: nat, attempts: nat, tries: nat) returns (ends: seq<nat>)
    requires 1 <= attempts
    ensures var p := Post(wire, k, attempts, tries);
            && Requests(wire, k, attempts, ends) && p.next == NextSend(k, ends)
            && |ends| <= tries
            && (p.ok ==> ends != [] && AllBad(wire, ends[..|ends| - 1]) && Good(wire(ends[|ends| - 1])))
            && (!p.ok ==> |ends| == tries && AllBad(wire, ends))
    decreases tries
  {
    if tries == 0 {
      ends := [];
    } else {
      var d := Decisive(wire, k, attempts);
      if Good(wire(d)) {
        ends := [d];
        assert ends[1..] == [];
      } else {
        var rest := PostReplies(wire, d + 1, attempts, tries - 1);
        ends := [d] + rest;
        assert ends[1..] == rest;
        if rest != [] {
          assert ends[..|ends| - 1] == [d] + rest[..|rest| - 1];
        }
      }
    }
  }

  lemma PostGoods(wire: Wire, k: nat, attempts: nat, tries: nat) returns (ends: seq<nat>)
    requires 1 <= attempts
    ensures var p := Post(wire, k, attempts, tries);
            && Requests(wire, k, attempts, ends) && p.next == NextSend(k, ends)
            && |ends| <= tries
            && Goods(wire, ends) == (if p.ok then 1 else 0)
            && (p.ok ==> ends != [] && Good(wire(ends[|ends| - 1])))
            && (!p.ok ==> |ends| == tries && AllBad(wire, ends))
  {
    ends := PostReplies(wire, k, attempts, tries);
    if Post(wire, k, attempts, tries).ok {
      var n := |ends| - 1;
      assert ends == ends[..n] + [ends[n]];
      GoodsAppend(wire, ends[..n], [ends[n]]);
      AllBadHasNoGoods(wire, ends[..n]);
    } else {
      AllBadHasNoGoods(wire, ends);
    }
  }

  /** The requests are different ones: each ends after the one before. */
  lemma {:induction false} RequestsIncrease(wire: Wire, k: nat, attempts: nat, ends: seq<nat>)
    requires 1 <= attempts && Requests(wire, k, attempts, ends)
    ensures forall i :: 0 <= i < |ends| ==> k <= ends[i] < NextSend(k, ends)
    ensures forall i, j :: 0 <= i < j < |ends| ==> ends[i] < ends[j]
    decreases |ends|
  {
    if ends == [] {
    } else {
      RequestsIncrease(wire, ends[0] + 1, attempts, ends[1..]);
      assert forall i :: 0 < i < |ends| ==> ends[i] == ends[1..][i - 1];
    }
  }

  /** What the requests say about a forwarding of `count` messages. */
  ghost predicate Answers(wire: Wire, attempts: nat, tries: nat, count: nat, f: Forwarded, ends: seq<nat>)
    requires 1 <= attempts
  {
    && Requests(wire, 0, attempts, ends) && f.next == NextSend(0, ends)
    && |ends| <= f.taken * tries
    && Goods(wire, ends) == f.accepted
    && (f.outcome.GaveUp? ==> tries <= |ends| && AllBad(wire, ends[|ends| - tries..]))
    && (f.outcome.Drained? ==> f.taken == count && (count == 0 <==> ends == []))
    && (f.outcome.Drained? && ends != [] ==> Good(wire(ends[|ends| - 1])))
  }

  lemma PostedAnswers(wire: Wire, attempts: nat, tries: nat, f: Forwarded, ends: seq<nat>, last: seq<nat>)
    requires 1 <= attempts && f.outcome.Drained? && Answers(wire, attempts, tries, f.taken, f, ends)
    requires Requests(wire, f.next, attempts, last) && 0 < |last| <= tries
    requires Goods(wire, last) == 1 && Good(wire(last[|last| - 1]))
    ensures Answers(wire, attempts, tries, f.taken + 1, Forwarded(f.taken + 1, f.accepted + 1, NextSend(f.next, last), Drained), ends + last)
  {
    RequestsAppend(wire, 0, attempts, ends, last);
    GoodsAppend(wire, ends, last);
    Distribute(f.taken, tries);
    assert (ends + last)[|ends + last| - 1] == last[|last| - 1];
  }

  lemma GivenUpAnswers(wire: Wire, attempts: nat, tries: nat, f: Forwarded, ends: seq<nat>, last: seq<nat>, count: nat)
    requires 1 <= attempts && f.outcome.Drained? && Answers(wire, attempts, tries, f.taken, f, ends)
    requires Requests(wire, f.next, attempts, last) && |last| == tries && AllBad(wire, last)
    ensures Answers(wire, attempts, tries, count, Forwarded(f.taken + 1, f.accepted, NextSend(f.next, last), GaveUp), ends + last)
  {
    RequestsAppend(wire, 0, attempts, ends, last);
    GoodsAppend(wire, ends, last);
    AllBadHasNoGoods(wire, last);
    Distribute(f.taken, tries);
    assert (ends + last)[|ends + last| - tries..] == last;
  }

  /**
   * The forwarder's answer read off the replies: it makes one request after the other, at most
   * `tries` a message; as many messages are accepted as requests ended with a good reply; it gives up
   * exactly on `tries` bad ones at the end, and otherwise its last request went well.
   */
  lemma {:induction false} ForwardReplies(count: nat, wire: Wire, attempts: nat, tries: nat) returns (ends: seq<nat>)
    requires 1 <= attempts
    ensures Answers(wire, attempts, tries, count, ForwardAll(count, wire, attempts, tries), ends)
  {
    if count == 0 {
      ends := [];
    } else {
      var f := ForwardAll(count - 1, wire, attempts, tries);
      ends := ForwardReplies(count - 1, wire, attempts, tries);
      if f.outcome.Drained? {
        var last := PostGoods(wire, f.next, attempts, tries);
        if Post(wire, f.next, attempts, tries).ok {
          PostedAnswers(wire, attempts, tries, f, ends, last);
        } else {
          GivenUpAnswers(wire, attempts, tries, f, ends, last, count);
        }
        ends := ends + last;
      }
    }
  }

  /** With the forwarder's ten tries, a message costs at most 10 * (RetryAttempts + 1) HTTP sends. */
  lemma SendsPerMessage(count: nat, wire: Wire, retryAttempts: nat, tries: nat)
    requires tries == MAX_CONSECUTIVE_ERRORS
    ensures var f := ForwardAll(count, wire, Attempts(retryAttempts), tries);
            f.next <= f.taken * (10 * (retryAttempts + 1))
  {
    AcceptedIsPrefix(count, wire, Attempts(retryAttempts), tries);
  }
}
