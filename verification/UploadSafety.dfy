/** What every interleaving of the uploader keeps. */
module UploadSafety {
  import opened Chunks
  import opened UploadJobs
  import opened UploadProtocol

  /** The one place a job is at. */
  datatype Holder = Unsent | AtWorker(w: nat) | AtForwarder(w: nat) | Reported(k: nat)

  ghost predicate Holds(s: State, h: Holder, j: nat) {
    match h
    case Unsent => s.next <= j
    case AtWorker(w) =>
      w < |s.workers| && (s.workers[w].pc.Attempting? || s.workers[w].pc.Reporting?) && s.workers[w].pc.job == j
    case AtForwarder(w) => w < |s.forwarders| && s.forwarders[w].Holding? && s.forwarders[w].job == j
    case Reported(k) => k < |s.reports| && s.reports[k].job == j
  }

  /** `at` maps every job to the only holder it has, and nothing but jobs is held. */
  ghost predicate Custody(cfg: Config, s: State, at: seq<Holder>)
    requires ValidConfig(cfg)
  {
    && |at| == |Jobs(cfg)|
    && s.next <= |Jobs(cfg)|
    && (forall j :: 0 <= j < |at| ==> Holds(s, at[j], j))
    && (forall h, j: nat :: Holds(s, h, j) ==> (h.Unsent? && |at| <= j) || (j < |at| && at[j] == h))
  }

  /** Which goroutine has gone how far. */
  ghost predicate Control(cfg: Config, s: State)
    requires ValidConfig(cfg)
  {
    && |s.workers| == |s.forwarders| == OPEN_CONNECTIONS
    && (s.jobsClosed <==> s.producer.Gone?)
    && (!s.producer.Selecting? ==> s.next >= |Jobs(cfg)| || s.cancelled)
    && (forall w :: 0 <= w < |s.workers| ==> (s.workers[w].closed <==> s.workers[w].pc.Exited?))
    && (forall w :: 0 <= w < |s.workers| ==> (s.workers[w].closed ==> s.jobsClosed))
    && (forall w :: 0 <= w < |s.workers| ==> (s.forwarders[w].Finished? ==> s.workers[w].closed))
    && (s.closerDone <==> s.aggClosed)
    && (s.aggClosed ==> AllForwardersFinished(s))
    && (s.collector.Returned? ==> s.aggClosed)
    && (s.cancelled || s.collector.Cancelling? ==> s.returnErr.Some?)
    && (s.returnErr.Some? ==> s.cancelled || s.collector.Cancelling?)
    && s.returnErr == FirstError(s.reports)
  }

  lemma ControlInit(cfg: Config)
    requires ValidConfig(cfg)
    ensures Control(cfg, Init(cfg))
  {
  }

  lemma ControlStep(cfg: Config, s: State, step: Step)
    requires ValidConfig(cfg) && Control(cfg, s) && Enabled(cfg, s, step)
    ensures Control(cfg, Apply(cfg, s, step))
  {
    if ByWorker(step) {
      ControlWorkerStep(cfg, s, step);
    } else if step.Collect? {
      ControlCollect(cfg, s, step);
    } else {
      ControlOtherStep(cfg, s, step);
    }
  }

  ghost predicate ByWorker(step: Step) {
    step.Dispatch? || step.AttemptSucceeds? || step.AttemptFails? || step.SendResult? || step.WorkerExits?
  }

  lemma ControlWorkerStep(cfg: Config, s: State, step: Step)
    requires ValidConfig(cfg) && Control(cfg, s) && Enabled(cfg, s, step) && ByWorker(step)
    ensures Control(cfg, Apply(cfg, s, step))
  {
  }

  lemma ControlCollect(cfg: Config, s: State, step: Step)
    requires ValidConfig(cfg) && Control(cfg, s) && Enabled(cfg, s, step) && step.Collect?
    ensures Control(cfg, Apply(cfg, s, step))
  {
    var s' := Apply(cfg, s, step);
    assert s'.reports[..|s'.reports| - 1] == s.reports;
  }

  lemma ControlOtherStep(cfg: Config, s: State, step: Step)
    requires ValidConfig(cfg) && Control(cfg, s) && Enabled(cfg, s, step) && !ByWorker(step) && !step.Collect?
    ensures Control(cfg, Apply(cfg, s, step))
  {
  }

  /** No goroutine ever sends on a closed channel or closes one twice. */
  lemma ControlMeansNoPanic(cfg: Config, s: State)
    requires ValidConfig(cfg) && Control(cfg, s)
    ensures !Panics(cfg, s)
  {
  }

  lemma CustodyInit(cfg: Config) returns (at: seq<Holder>)
    requires ValidConfig(cfg)
    ensures Custody(cfg, Init(cfg), at)
  {
    at := seq(|Jobs(cfg)|, _ => Unsent);
  }

  lemma CustodyStep(cfg: Config, s: State, at: seq<Holder>, step: Step) returns (at': seq<Holder>)
    requires ValidConfig(cfg) && Custody(cfg, s, at) && Enabled(cfg, s, step)
    ensures Custody(cfg, Apply(cfg, s, step), at')
  {
    match step
    case Dispatch(w) =>
      at' := at[s.next := AtWorker(w)];
      CustodyDispatch(cfg, s, at, step);
    case SendResult(w) =>
      assert Holds(s, AtWorker(w), s.workers[w].pc.job);
      at' := at[s.workers[w].pc.job := AtForwarder(w)];
      CustodySend(cfg, s, at, step);
    case Collect(w) =>
      assert Holds(s, AtForwarder(w), s.forwarders[w].job);
      at' := at[s.forwarders[w].job := Reported(|s.reports|)];
      CustodyCollect(cfg, s, at, step);
    case _ =>
      at' := at;
      CustodyUnmoved(cfg, s, at, step);
  }

  lemma CustodyDispatch(cfg: Config, s: State, at: seq<Holder>, step: Step)
    requires ValidConfig(cfg) && Custody(cfg, s, at) && Enabled(cfg, s, step) && step.Dispatch?
    ensures Custody(cfg, Apply(cfg, s, step), at[s.next := AtWorker(step.w)])
  {
    assert Holds(s, Unsent, s.next);
    CustodyMove(cfg, s, at, Apply(cfg, s, step), s.next, AtWorker(step.w));
  }

  lemma CustodySend(cfg: Config, s: State, at: seq<Holder>, step: Step)
    requires ValidConfig(cfg) && Custody(cfg, s, at) && Enabled(cfg, s, step) && step.SendResult?
    requires s.workers[step.w].pc.job < |at|
    ensures Custody(cfg, Apply(cfg, s, step), at[s.workers[step.w].pc.job := AtForwarder(step.w)])
  {
    var j := s.workers[step.w].pc.job;
    assert Holds(s, AtWorker(step.w), j);
    CustodyMove(cfg, s, at, Apply(cfg, s, step), j, AtForwarder(step.w));
  }

  lemma CustodyCollect(cfg: Config, s: State, at: seq<Holder>, step: Step)
    requires ValidConfig(cfg) && Custody(cfg, s, at) && Enabled(cfg, s, step) && step.Collect?
    requires s.forwarders[step.w].job < |at|
    ensures Custody(cfg, Apply(cfg, s, step), at[s.forwarders[step.w].job := Reported(|s.reports|)])
  {
    var j := s.forwarders[step.w].job;
    assert Holds(s, AtForwarder(step.w), j);
    CustodyMove(cfg, s, at, Apply(cfg, s, step), j, Reported(|s.reports|));
  }

  /** Steps that leave every job, and every byte, where it is. */
  ghost predicate Quiet(step: Step) {
    step.ProducerQuits? || step.ProducerRunsOut? || step.CloseJobs? || step.Cancel? || step.CloseAggregate? || step.UploadReturns?
  }

  lemma QuietStep(cfg: Config, s: State, step: Step)
    requires ValidConfig(cfg) && Enabled(cfg, s, step) && Quiet(step)
    ensures var s' := Apply(cfg, s, step);
            s'.next == s.next && s'.workers == s.workers && s'.forwarders == s.forwarders &&
            s'.reports == s.reports && s'.store == s.store
  {
  }

  lemma CustodyUnmoved(cfg: Config, s: State, at: seq<Holder>, step: Step)
    requires ValidConfig(cfg) && Custody(cfg, s, at) && Enabled(cfg, s, step)
    requires !step.Dispatch? && !step.SendResult? && !step.Collect?
    ensures Custody(cfg, Apply(cfg, s, step), at)
  {
    var s' := Apply(cfg, s, step);
    if Quiet(step) {
      QuietStep(cfg, s, step);
      assert forall h, j: nat :: Holds(s', h, j) <==> Holds(s, h, j);
    } else {
      SameJobs(cfg, s, step);
      assert forall h, j: nat :: Holds(s', h, j) <==> Holds(s, h, j);
    }
  }

  lemma SameJobs(cfg: Config, s: State, step: Step)
    requires ValidConfig(cfg) && Enabled(cfg, s, step)
    requires step.AttemptSucceeds? || step.AttemptFails? || step.WorkerExits? || step.ForwarderExits?
    ensures var s' := Apply(cfg, s, step);
            && s'.next == s.next && s'.reports == s.reports
            && (forall w: nat, j: nat :: Holds(s', AtWorker(w), j) <==> Holds(s, AtWorker(w), j))
            && (forall w: nat, j: nat :: Holds(s', AtForwarder(w), j) <==> Holds(s, AtForwarder(w), j))
  {
  }

  /** Handing job `j` over to `h`, and changing nothing else about who holds what. */
  lemma CustodyMove(cfg: Config, s: State, at: seq<Holder>, s': State, j: nat, h: Holder)
    requires ValidConfig(cfg) && Custody(cfg, s, at)
    requires j < |at| && s'.next <= |Jobs(cfg)|
    requires forall g, i: nat :: Holds(s', g, i) <==> if i == j then g == h else Holds(s, g, i)
    ensures Custody(cfg, s', at[j := h])
  {
  }

  // The bytes.

  /** Every byte of the job's chunk has arrived. */
  ghost predicate Delivered(cfg: Config, store: Store, job: Job)
    requires IsChunk(cfg, job)
  {
    var lo := Offset(job.chunk, cfg.chunkSize);
    forall p :: lo <= p < lo + |Payload(cfg, job)| ==> Place(cfg.files[job.file].name, p) in store
  }

  ghost predicate Backed(cfg: Config, store: Store, j: nat, res: Outcome)
    requires ValidConfig(cfg)
  {
    res.Ok? ==> j < |Jobs(cfg)| && IsChunk(cfg, Jobs(cfg)[j]) && Delivered(cfg, store, Jobs(cfg)[j])
  }

  /** What the receiver has is right, and only files that have chunks have bytes. */
  ghost predicate StoreRight(cfg: Config, store: Store) {
    forall f: nat, p: int | f < |cfg.files| && Place(cfg.files[f].name, p) in store ::
      && 0 <= p < |cfg.files[f].content|
      && store[Place(cfg.files[f].name, p)] == cfg.files[f].content[p]
      && 0 < cfg.chunkSize
      && 0 < TotalChunks(|cfg.files[f].content|, cfg.chunkSize)
  }

  /** The receiver has nothing wrong, and it has whatever was reported as a success. */
  ghost predicate Bytes(cfg: Config, s: State)
    requires ValidConfig(cfg)
  {
    && StoreRight(cfg, s.store)
    && (forall w :: 0 <= w < |s.workers| && s.workers[w].pc.Reporting? ==>
          Backed(cfg, s.store, s.workers[w].pc.job, s.workers[w].pc.res))
    && (forall w :: 0 <= w < |s.forwarders| && s.forwarders[w].Holding? ==>
          Backed(cfg, s.store, s.forwarders[w].job, s.forwarders[w].res))
    && (forall k :: 0 <= k < |s.reports| ==> Backed(cfg, s.store, s.reports[k].job, s.reports[k].res))
  }

  lemma BytesStep(cfg: Config, s: State, step: Step)
    requires ValidConfig(cfg) && Bytes(cfg, s) && Enabled(cfg, s, step)
    ensures Bytes(cfg, Apply(cfg, s, step))
  {
    match step
    case AttemptSucceeds(w) =>
      var job := Jobs(cfg)[s.workers[w].pc.job];
      ArrivalKeepsStore(cfg, s.store, job, |Payload(cfg, job)|);
      BytesAttempt(cfg, s, step);
    case AttemptFails(w, sent, _, _) =>
      ArrivalKeepsStore(cfg, s.store, Jobs(cfg)[s.workers[w].pc.job], sent);
      BytesAttempt(cfg, s, step);
    case _ =>
      BytesElsewhere(cfg, s, step);
  }

  lemma BytesAttempt(cfg: Config, s: State, step: Step)
    requires ValidConfig(cfg) && Bytes(cfg, s) && Enabled(cfg, s, step)
    requires step.AttemptSucceeds? || step.AttemptFails?
    requires StoreRight(cfg, Apply(cfg, s, step).store)
    requires forall p :: p in s.store ==> p in Apply(cfg, s, step).store
    requires step.AttemptSucceeds? ==> Delivered(cfg, Apply(cfg, s, step).store, Jobs(cfg)[s.workers[step.w].pc.job])
    ensures Bytes(cfg, Apply(cfg, s, step))
  {
    BackedGrows(cfg, s.store, Apply(cfg, s, step).store);
  }

  lemma BytesElsewhere(cfg: Config, s: State, step: Step)
    requires ValidConfig(cfg) && Bytes(cfg, s) && Enabled(cfg, s, step)
    requires !step.AttemptSucceeds? && !step.AttemptFails?
    ensures Bytes(cfg, Apply(cfg, s, step))
  {
    if Quiet(step) {
      QuietStep(cfg, s, step);
    } else {
      BytesHandedOn(cfg, s, step);
    }
  }

  lemma BytesHandedOn(cfg: Config, s: State, step: Step)
    requires ValidConfig(cfg) && Bytes(cfg, s) && Enabled(cfg, s, step)
    requires step.Dispatch? || step.SendResult? || step.Collect? || step.WorkerExits? || step.ForwarderExits?
    ensures Bytes(cfg, Apply(cfg, s, step))
  {
  }

  lemma ArrivalKeepsStore(cfg: Config, store: Store, job: Job, sent: nat)
    requires IsChunk(cfg, job) && StoreRight(cfg, store) && sent <= |Payload(cfg, job)|
    ensures var store' := Put(store, cfg.files[job.file].name, Offset(job.chunk, cfg.chunkSize), Payload(cfg, job)[..sent]);
            && StoreRight(cfg, store')
            && (forall p :: p in store ==> p in store')
            && (sent == |Payload(cfg, job)| ==> Delivered(cfg, store', job))
  {
    PayloadBytes(cfg, job);
  }

  lemma BackedGrows(cfg: Config, store: Store, store': Store)
    requires ValidConfig(cfg) && forall p :: p in store ==> p in store'
    ensures forall j, res | Backed(cfg, store, j, res) :: Backed(cfg, store', j, res)
  {
  }

  /** A chunk's payload is the file's content at the chunk's offset. */
  lemma PayloadBytes(cfg: Config, job: Job)
    requires IsChunk(cfg, job)
    ensures var lo := Offset(job.chunk, cfg.chunkSize);
            var content := cfg.files[job.file].content;
            0 <= lo && lo + |Payload(cfg, job)| <= |content| &&
            forall i :: 0 <= i < |Payload(cfg, job)| ==> Payload(cfg, job)[i] == content[lo + i]
  {
    ChunkShape(|cfg.files[job.file].content|, cfg.chunkSize, job.chunk);
  }

  // Whole runs.

  lemma {:induction false} RunKeeps(cfg: Config, s: State, at: seq<Holder>, steps: seq<Step>) returns (at': seq<Holder>)
    requires ValidConfig(cfg) && IsRun(cfg, s, steps)
    requires Control(cfg, s) && Custody(cfg, s, at) && Bytes(cfg, s)
    ensures var s' := After(cfg, s, steps);
            Control(cfg, s') && Custody(cfg, s', at') && Bytes(cfg, s')
    decreases |steps|
  {
    if steps == [] {
      at' := at;
    } else {
      ControlStep(cfg, s, steps[0]);
      BytesStep(cfg, s, steps[0]);
      at' := CustodyStep(cfg, s, at, steps[0]);
      at' := RunKeeps(cfg, Apply(cfg, s, steps[0]), at', steps[1..]);
    }
  }

  lemma Reachable(cfg: Config, steps: seq<Step>) returns (at: seq<Holder>)
    requires ValidConfig(cfg) && IsRun(cfg, Init(cfg), steps)
    ensures var s := After(cfg, Init(cfg), steps);
            Control(cfg, s) && Custody(cfg, s, at) && Bytes(cfg, s)
  {
    at := CustodyInit(cfg);
    at := RunKeeps(cfg, Init(cfg), at, steps);
  }

  /** Conservation: in every reachable state each job is in exactly one place. */
  lemma JobsAreConserved(cfg: Config, steps: seq<Step>, j: nat)
    requires ValidConfig(cfg) && IsRun(cfg, Init(cfg), steps) && j < |Jobs(cfg)|
    ensures var s := After(cfg, Init(cfg), steps);
            exists h :: Holds(s, h, j) && forall g :: Holds(s, g, j) ==> g == h
  {
    var at := Reachable(cfg, steps);
    var s := After(cfg, Init(cfg), steps);
    assert Holds(s, at[j], j);
  }

  lemma NeverPanics(cfg: Config, steps: seq<Step>)
    requires ValidConfig(cfg) && IsRun(cfg, Init(cfg), steps)
    ensures !Panics(cfg, After(cfg, Init(cfg), steps))
  {
    var at := Reachable(cfg, steps);
    ControlMeansNoPanic(cfg, After(cfg, Init(cfg), steps));
  }

  /** `FirstError` is the error of the earliest failed report, and nothing exactly when none failed. */
  lemma {:induction false} FirstErrorIsFirst(reports: seq<Report>)
    ensures FirstError(reports).None? <==> forall k :: 0 <= k < |reports| ==> reports[k].res.Ok?
    ensures FirstError(reports).Some? ==>
              exists k :: 0 <= k < |reports| && reports[k].res == Err(FirstError(reports).value) &&
                          (forall i :: 0 <= i < k ==> reports[i].res.Ok?)
  {
    if reports == [] {
    } else {
      var n := |reports| - 1;
      FirstErrorIsFirst(reports[..n]);
      if FirstError(reports[..n]).Some? {
        var k :| 0 <= k < n && reports[..n][k].res == Err(FirstError(reports).value) &&
                 (forall i :: 0 <= i < k ==> reports[..n][i].res.Ok?);
        assert reports[k].res == Err(FirstError(reports).value);
        assert forall i :: 0 <= i < k ==> reports[i] == reports[..n][i];
      } else {
        assert forall i :: 0 <= i < n ==> reports[i] == reports[..n][i];
      }
    }
  }

  /** Job `j` was reported, once, and is nowhere else. */
  ghost predicate OnceReported(s: State, j: nat) {
    exists k :: Holds(s, Reported(k), j) && forall h :: Holds(s, h, j) ==> h == Reported(k)
  }

  ghost predicate AllGone(s: State) {
    && s.producer.Gone? && s.closerDone
    && (forall w :: 0 <= w < |s.workers| ==> s.workers[w].pc.Exited?)
    && (forall w :: 0 <= w < |s.forwarders| ==> s.forwarders[w].Finished?)
  }

  lemma SentMeansReported(cfg: Config, s: State, at: seq<Holder>, j: nat)
    requires ValidConfig(cfg) && Control(cfg, s) && Custody(cfg, s, at)
    requires s.collector.Returned? && j < s.next
    ensures OnceReported(s, j)
  {
    assert Holds(s, at[j], j);
    assert at[j].Reported?;
    assert Holds(s, Reported(at[j].k), j);
  }

  /**
   * When Upload returns: no goroutine is left and every job that was sent has been reported once;
   * the result is the first error received, and it is nil exactly when every job was sent and every
   * report is a success.
   */
  lemma UploadOutcome(cfg: Config, steps: seq<Step>)
    requires ValidConfig(cfg) && IsRun(cfg, Init(cfg), steps)
    requires After(cfg, Init(cfg), steps).collector.Returned?
    ensures var s := After(cfg, Init(cfg), steps);
            && AllGone(s)
            && (forall j: nat :: j < s.next ==> OnceReported(s, j))
            && s.returnErr == FirstError(s.reports)
            && (s.returnErr.None? <==>
                (s.next == |Jobs(cfg)| && forall k :: 0 <= k < |s.reports| ==> s.reports[k].res.Ok?))
  {
    var s := After(cfg, Init(cfg), steps);
    var at := Reachable(cfg, steps);
    ReturnedOutcome(cfg, s, at);
  }

  lemma ReturnedOutcome(cfg: Config, s: State, at: seq<Holder>)
    requires ValidConfig(cfg) && Control(cfg, s) && Custody(cfg, s, at)
    requires s.collector.Returned?
    ensures AllGone(s)
    ensures forall j: nat :: j < s.next ==> OnceReported(s, j)
    ensures s.returnErr == FirstError(s.reports)
    ensures s.returnErr.None? <==>
              (s.next == |Jobs(cfg)| && forall k :: 0 <= k < |s.reports| ==> s.reports[k].res.Ok?)
  {
    FirstErrorIsFirst(s.reports);
    forall j: nat | j < s.next
      ensures OnceReported(s, j)
    {
      SentMeansReported(cfg, s, at, j);
    }
    assert s.forwarders[0].Finished? && s.workers[0].closed;
  }

  /** The receiver has file `f`: every one of its bytes, and none beyond its end. */
  ghost predicate HasFile(cfg: Config, store: Store, f: nat)
    requires f < |cfg.files|
  {
    var file := cfg.files[f];
    && (forall p :: Place(file.name, p) in store <==> 0 <= p < |file.content|)
    && (forall p :: 0 <= p < |file.content| && Place(file.name, p) in store ==> store[Place(file.name, p)] == file.content[p])
  }

  /**
   * A nil return means every byte arrived: in every interleaving, with payloads placed at
   * (n-1)*ChunkSizeBytes in whatever order they come and failed attempts leaving any part of theirs
   * behind, the receiver ends up with exactly the file's bytes. The one exception is a file whose
   * rounding sum overflows an int64: no chunk of it is ever issued, so it never arrives.
   */
  lemma NilMeansDelivered(cfg: Config, steps: seq<Step>)
    requires ValidConfig(cfg) && IsRun(cfg, Init(cfg), steps)
    requires After(cfg, Init(cfg), steps).collector.Returned?
    requires After(cfg, Init(cfg), steps).returnErr.None?
    ensures forall f: nat :: f < |cfg.files| ==>
              (HasFile(cfg, After(cfg, Init(cfg), steps).store, f) <==> Fits(|cfg.files[f].content|, cfg.chunkSize))
  {
    var s := After(cfg, Init(cfg), steps);
    var at := Reachable(cfg, steps);
    ReturnedOutcome(cfg, s, at);
    forall f: nat | f < |cfg.files|
      ensures HasFile(cfg, s.store, f) <==> Fits(|cfg.files[f].content|, cfg.chunkSize)
    {
      FileDelivered(cfg, s, f);
    }
  }

  lemma FileDelivered(cfg: Config, s: State, f: nat)
    requires ValidConfig(cfg) && Bytes(cfg, s)
    requires forall j: nat :: j < |Jobs(cfg)| ==> OnceReported(s, j)
    requires forall k :: 0 <= k < |s.reports| ==> s.reports[k].res.Ok?
    requires f < |cfg.files|
    ensures HasFile(cfg, s.store, f) <==> Fits(|cfg.files[f].content|, cfg.chunkSize)
  {
    var size := |cfg.files[f].content|;
    if Fits(size, cfg.chunkSize) {
      forall p | 0 <= p < size
        ensures Place(cfg.files[f].name, p) in s.store
      {
        ByteDelivered(cfg, s, f, p);
      }
    } else {
      TotalChunksWhenOverflowing(size, cfg.chunkSize);
      assert Place(cfg.files[f].name, 0) !in s.store;
    }
  }

  lemma ByteDelivered(cfg: Config, s: State, f: nat, p: int)
    requires ValidConfig(cfg) && Bytes(cfg, s)
    requires forall j: nat :: j < |Jobs(cfg)| ==> OnceReported(s, j)
    requires forall k :: 0 <= k < |s.reports| ==> s.reports[k].res.Ok?
    requires f < |cfg.files| && 0 <= p < |cfg.files[f].content|
    requires Fits(|cfg.files[f].content|, cfg.chunkSize)
    ensures Place(cfg.files[f].name, p) in s.store
  {
    var n := ChunkOfByte(|cfg.files[f].content|, cfg.chunkSize, p);
    ChunkIsJob(Totals(cfg), |cfg.files|, f, n);
    var j: nat := Position(Totals(cfg), f, n);
    assert OnceReported(s, j);
    var k :| Holds(s, Reported(k), j);
    ReportedDelivered(cfg, s, k);
    PayloadReaches(cfg, Jobs(cfg)[j], p);
  }

  lemma ReportedDelivered(cfg: Config, s: State, k: nat)
    requires ValidConfig(cfg) && Bytes(cfg, s)
    requires k < |s.reports| && s.reports[k].res.Ok?
    ensures Backed(cfg, s.store, s.reports[k].job, Ok)
  {
  }

  lemma PayloadReaches(cfg: Config, job: Job, p: int)
    requires IsChunk(cfg, job) && p < |cfg.files[job.file].content|
    requires Offset(job.chunk, cfg.chunkSize) <= p < Offset(job.chunk, cfg.chunkSize) + cfg.chunkSize
    ensures p < Offset(job.chunk, cfg.chunkSize) + |Payload(cfg, job)|
  {
    ChunkShape(|cfg.files[job.file].content|, cfg.chunkSize, job.chunk);
  }

  /** The chunk a byte lies in. */
  lemma ChunkOfByte(size: int, chunkSize: int, p: int) returns (n: nat)
    requires 0 <= p < size <= MAX_INT64 && 0 < chunkSize <= MAX_INT64 && Fits(size, chunkSize)
    ensures 1 <= n <= TotalChunks(size, chunkSize)
    ensures Offset(n, chunkSize) <= p < Offset(n, chunkSize) + chunkSize
  {
    DivisionBounds(p, chunkSize);
    n := p / chunkSize + 1;
    TotalChunksWhenFits(size, chunkSize);
    ChunkCounted(n - 1, TotalChunks(size, chunkSize), chunkSize, p, size);
  }

  lemma ChunkCounted(m: nat, t: nat, c: int, p: int, size: int)
    requires 0 < c && m * c <= p < size <= t * c
    ensures m < t
  {
    if t <= m {
      MulMonotone(t, m, c);
    }
  }
}
