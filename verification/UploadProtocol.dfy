/**
 * The parallel uploader as a transition system: one job producer, OPEN_CONNECTIONS workers each
 * with its own result channel and forwarder, a closer and the collecting caller. All channels are
 * unbuffered, so a send and its receive are one step.
 */
module UploadProtocol {
  import opened Wrappers
  import opened Chunks
  import opened UploadJobs

  const OPEN_CONNECTIONS := 32

  /** A file under the base name the server sees. */
  datatype File = File(name: string, content: seq<Byte>)

  /** `retries` bounds how often one back-off lets an attempt be repeated before it is reset. */
  datatype Config = Config(files: seq<File>, chunkSize: int, retries: nat)

  ghost predicate ValidConfig(cfg: Config) {
    && 0 < cfg.chunkSize <= MAX_INT64
    && (forall f :: 0 <= f < |cfg.files| ==> |cfg.files[f].content| <= MAX_INT64)
    && (forall f, g :: 0 <= f < |cfg.files| && 0 <= g < |cfg.files| && cfg.files[f].name == cfg.files[g].name ==> f == g)
  }

  ghost function Totals(cfg: Config): seq<int>
    requires ValidConfig(cfg)
  {
    seq(|cfg.files|, f requires 0 <= f < |cfg.files| => TotalChunks(|cfg.files[f].content|, cfg.chunkSize))
  }

  ghost function Jobs(cfg: Config): seq<Job>
    requires ValidConfig(cfg)
  {
    AllJobs(Totals(cfg))
  }

  ghost predicate IsChunk(cfg: Config, job: Job) {
    && ValidConfig(cfg)
    && job.file < |cfg.files|
    && job.total == TotalChunks(|cfg.files[job.file].content|, cfg.chunkSize)
    && 1 <= job.chunk <= job.total
  }

  ghost function Payload(cfg: Config, job: Job): seq<Byte>
    requires IsChunk(cfg, job)
  {
    ChunkShape(|cfg.files[job.file].content|, cfg.chunkSize, job.chunk);
    Segment(cfg.files[job.file].content, job.chunk, job.total, cfg.chunkSize)
  }

  // The receiver's side: bytes by file name and offset.

  datatype Place = Place(name: string, offset: int)

  type Store = map<Place, Byte>

  /** A receiver writing a payload at an offset. */
  ghost function Put(store: Store, name: string, offset: int, payload: seq<Byte>): (r: Store)
    ensures forall p :: p in r <==> p in store || (p.name == name && offset <= p.offset < offset + |payload|)
    ensures forall p | p in r ::
              r[p] == if p.name == name && offset <= p.offset < offset + |payload| then payload[p.offset - offset] else store[p]
    decreases |payload|
  {
    if payload == [] then store
    else Put(store[Place(name, offset) := payload[0]], name, offset + 1, payload[1..])
  }

  // Goroutine states.

  datatype Outcome = Ok | Err(error: int)

  datatype WorkerPc = Receiving | Attempting(job: nat) | Reporting(job: nat, res: Outcome) | Exited

  /** `budget` is what the worker's back-off still allows; `closed` is its result channel. */
  datatype Worker = Worker(pc: WorkerPc, budget: nat, closed: bool)

  /** What a result channel carries. The code looks at `res` only. */
  datatype Forwarder = Ranging | Holding(job: nat, res: Outcome) | Finished

  datatype Producer = Selecting | Closing | Gone

  datatype Collector = Collecting | Cancelling | Returned

  datatype Report = Report(job: nat, worker: nat, res: Outcome)

  datatype State = State(
    next: nat, producer: Producer, jobsClosed: bool,
    workers: seq<Worker>, forwarders: seq<Forwarder>,
    closerDone: bool, aggClosed: bool,
    collector: Collector, returnErr: Option<int>, cancelled: bool, reports: seq<Report>,
    store: Store)

  ghost function Init(cfg: Config): State {
    State(0, Selecting, false,
          seq(OPEN_CONNECTIONS, _ => Worker(Receiving, cfg.retries, false)),
          seq(OPEN_CONNECTIONS, _ => Ranging),
          false, false, Collecting, None, false, [], map[])
  }

  datatype Step =
    | Dispatch(w: nat)
    | ProducerQuits
    | ProducerRunsOut
    | CloseJobs
    | AttemptSucceeds(w: nat)
    | AttemptFails(w: nat, sent: nat, retry: bool, error: int)
    | SendResult(w: nat)
    | WorkerExits(w: nat)
    | Collect(w: nat)
    | Cancel
    | ForwarderExits(w: nat)
    | CloseAggregate
    | UploadReturns

  ghost predicate Busy(cfg: Config, s: State, w: nat)
    requires ValidConfig(cfg)
  {
    && w < |s.workers| && s.workers[w].pc.Attempting?
    && s.workers[w].pc.job < |Jobs(cfg)| && IsChunk(cfg, Jobs(cfg)[s.workers[w].pc.job])
  }

  ghost predicate AllForwardersFinished(s: State) {
    forall w :: 0 <= w < |s.forwarders| ==> s.forwarders[w].Finished?
  }

  ghost predicate Enabled(cfg: Config, s: State, step: Step)
    requires ValidConfig(cfg)
  {
    match step
    case Dispatch(w) =>
      s.producer.Selecting? && s.next < |Jobs(cfg)| && w < |s.workers| && s.workers[w].pc.Receiving?
    case ProducerQuits => s.producer.Selecting? && s.next < |Jobs(cfg)| && s.cancelled
    case ProducerRunsOut => s.producer.Selecting? && s.next >= |Jobs(cfg)|
    case CloseJobs => s.producer.Closing?
    case AttemptSucceeds(w) => Busy(cfg, s, w)
    case AttemptFails(w, sent, retry, _) =>
      && Busy(cfg, s, w)
      && sent <= |Payload(cfg, Jobs(cfg)[s.workers[w].pc.job])|
      && (retry ==> 0 < s.workers[w].budget)
    case SendResult(w) =>
      && w < |s.workers| && s.workers[w].pc.Reporting?
      && w < |s.forwarders| && s.forwarders[w].Ranging?
    case WorkerExits(w) => w < |s.workers| && s.workers[w].pc.Receiving? && s.jobsClosed
    case Collect(w) => w < |s.forwarders| && s.forwarders[w].Holding? && s.collector.Collecting?
    case Cancel => s.collector.Cancelling?
    case ForwarderExits(w) =>
      && w < |s.forwarders| && s.forwarders[w].Ranging?
      && w < |s.workers| && s.workers[w].closed
    case CloseAggregate => !s.closerDone && AllForwardersFinished(s)
    case UploadReturns => s.collector.Collecting? && s.aggClosed
  }

  /** The store after the first `sent` bytes of the chunk that worker `w` is on arrived. */
  ghost function Arrived(cfg: Config, s: State, w: nat, sent: nat): Store
    requires ValidConfig(cfg) && Busy(cfg, s, w)
    requires sent <= |Payload(cfg, Jobs(cfg)[s.workers[w].pc.job])|
  {
    var job := Jobs(cfg)[s.workers[w].pc.job];
    Put(s.store, cfg.files[job.file].name, Offset(job.chunk, cfg.chunkSize), Payload(cfg, job)[..sent])
  }

  ghost function Apply(cfg: Config, s: State, step: Step): State
    requires ValidConfig(cfg) && Enabled(cfg, s, step)
  {
    match step
    case Dispatch(w) =>
      s.(next := s.next + 1, workers := s.workers[w := s.workers[w].(pc := Attempting(s.next))])
    case ProducerQuits => s.(producer := Closing)
    case ProducerRunsOut => s.(producer := Closing)
    case CloseJobs => s.(producer := Gone, jobsClosed := true)
    case AttemptSucceeds(w) =>
      var j := s.workers[w].pc.job;
      s.(workers := s.workers[w := s.workers[w].(pc := Reporting(j, Ok), budget := cfg.retries)],
         store := Arrived(cfg, s, w, |Payload(cfg, Jobs(cfg)[j])|))
    case AttemptFails(w, sent, retry, error) =>
      var j := s.workers[w].pc.job;
      s.(workers := s.workers[w := if retry then s.workers[w].(budget := s.workers[w].budget - 1)
                                   else s.workers[w].(pc := Reporting(j, Err(error)))],
         store := Arrived(cfg, s, w, sent))
    case SendResult(w) =>
      s.(workers := s.workers[w := s.workers[w].(pc := Receiving)],
         forwarders := s.forwarders[w := Holding(s.workers[w].pc.job, s.workers[w].pc.res)])
    case WorkerExits(w) => s.(workers := s.workers[w := s.workers[w].(pc := Exited, closed := true)])
    case Collect(w) =>
      var f := s.forwarders[w];
      var first := f.res.Err? && s.returnErr.None?;
      s.(forwarders := s.forwarders[w := Ranging],
         reports := s.reports + [Report(f.job, w, f.res)],
         returnErr := if first then Some(f.res.error) else s.returnErr,
         collector := if first then Cancelling else Collecting)
    case Cancel => s.(collector := Collecting, cancelled := true)
    case ForwarderExits(w) => s.(forwarders := s.forwarders[w := Finished])
    case CloseAggregate => s.(closerDone := true, aggClosed := true)
    case UploadReturns => s.(collector := Returned)
  }

  /** A goroutine is at a channel operation that panics: a send on, or a second close of, a closed channel. */
  ghost predicate Panics(cfg: Config, s: State)
    requires ValidConfig(cfg)
  {
    || (s.producer.Closing? && s.jobsClosed)
    || (s.producer.Selecting? && s.next < |Jobs(cfg)| && s.jobsClosed)
    || (exists w :: 0 <= w < |s.workers| && s.workers[w].closed && (s.workers[w].pc.Reporting? || s.workers[w].pc.Receiving?))
    || (exists w :: 0 <= w < |s.forwarders| && s.forwarders[w].Holding? && s.aggClosed)
    || (!s.closerDone && AllForwardersFinished(s) && s.aggClosed)
  }

  ghost predicate IsRun(cfg: Config, s: State, steps: seq<Step>)
    requires ValidConfig(cfg)
    decreases |steps|
  {
    steps == [] || (Enabled(cfg, s, steps[0]) && IsRun(cfg, Apply(cfg, s, steps[0]), steps[1..]))
  }

  ghost function After(cfg: Config, s: State, steps: seq<Step>): State
    requires ValidConfig(cfg) && IsRun(cfg, s, steps)
    decreases |steps|
  {
    if steps == [] then s else After(cfg, Apply(cfg, s, steps[0]), steps[1..])
  }

  /** The first error among the reports, in the order they were received. */
  function FirstError(reports: seq<Report>): Option<int> {
    if reports == [] then None
    else if FirstError(reports[..|reports| - 1]).Some? then FirstError(reports[..|reports| - 1])
    else if reports[|reports| - 1].res.Err? then Some(reports[|reports| - 1].res.error)
    else None
  }

  // The sequential loops inside the goroutines.

  /**
   * One worker's loop over the attempts at a job: `attempt(k)` is the outcome of the k-th and
   * `stops(k)` whether the back-off says Stop after it, which it does after `budget` retries at the latest.
   */
  method RunJob(attempt: nat -> Outcome, stops: nat -> bool, budget: nat) returns (res: Outcome, last: nat)
    requires stops(budget)
    ensures res == attempt(last) && last <= budget
    ensures forall k :: 0 <= k < last ==> attempt(k).Err? && !stops(k)
    ensures res.Err? ==> stops(last)
  {
    last := 0;
    while true
      invariant last <= budget
      invariant forall k :: 0 <= k < last ==> attempt(k).Err? && !stops(k)
      decreases budget - last
    {
      res := attempt(last);
      if res.Ok? || stops(last) {
        return;
      }
      last := last + 1;
    }
  }

  /** The collecting loop of Upload. It cancels the context once, at the first error. */
  method CollectResults(reports: seq<Report>) returns (returnErr: Option<int>, cancels: nat)
    ensures returnErr == FirstError(reports)
    ensures cancels == (if returnErr.Some? then 1 else 0)
  {
    returnErr, cancels := None, 0;
    for i := 0 to |reports|
      invariant returnErr == FirstError(reports[..i])
      invariant cancels == (if returnErr.Some? then 1 else 0)
    {
      assert reports[..i + 1][..i] == reports[..i];
      if reports[i].res.Err? && returnErr.None? {
        returnErr := Some(reports[i].res.error);
        cancels := cancels + 1;
      }
    }
    assert reports[..|reports|] == reports;
  }
}
