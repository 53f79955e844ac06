/** Which jobs the uploader issues: one per chunk, files in order, chunks in order. */
module UploadJobs {
  import opened Wrappers
  import opened Chunks

  datatype FileInfo = FileInfo(name: string, totalChunks: int)

  /** `file` is the position in the list of file names; chunks count from 1. */
  datatype Job = Job(file: nat, chunk: nat, total: int)

  /** The sizes that `stat` reports, or the first name it fails on. */
  method GetFilesInfos(names: seq<string>, stat: string -> Option<int>, chunkSize: int)
      returns (r: Result<seq<FileInfo>, string>)
    requires 0 < chunkSize
    ensures r.Success? <==> forall i :: 0 <= i < |names| ==> stat(names[i]).Some?
    ensures r.Success? ==>
              (|r.value| == |names| &&
               forall i :: 0 <= i < |names| ==>
                 r.value[i] == FileInfo(names[i], TotalChunks(stat(names[i]).value, chunkSize)))
    ensures r.Failure? ==>
              exists i :: 0 <= i < |names| && names[i] == r.error && stat(names[i]).None? &&
                          (forall k :: 0 <= k < i ==> stat(names[k]).Some?)
  {
    var infos: seq<FileInfo> := [];
    for i := 0 to |names|
      invariant |infos| == i
      invariant forall k :: 0 <= k < i ==>
                  stat(names[k]).Some? &&
                  infos[k] == FileInfo(names[k], TotalChunks(stat(names[k]).value, chunkSize))
    {
      match stat(names[i])
      case None =>
        return Failure(names[i]);
      case Some(size) =>
        infos := infos + [FileInfo(names[i], TotalChunks(size, chunkSize))];
    }
    r := Success(infos);
  }

  /** The chunks of one file. A negative count issues nothing, as the loop bound does. */
  function FileJobs(f: nat, total: int): seq<Job> {
    seq(if total <= 0 then 0 else total, i requires 0 <= i => Job(f, i + 1, total))
  }

  function JobsUpTo(totals: seq<int>, k: nat): seq<Job>
    requires k <= |totals|
  {
    if k == 0 then [] else JobsUpTo(totals, k - 1) + FileJobs(k - 1, totals[k - 1])
  }

  function AllJobs(totals: seq<int>): seq<Job> {
    JobsUpTo(totals, |totals|)
  }

  /** The position at which chunk `n` of file `f` is issued. */
  function Position(totals: seq<int>, f: nat, n: nat): int
    requires f < |totals|
  {
    |JobsUpTo(totals, f)| + n - 1
  }

  lemma {:induction false} JobIsChunk(totals: seq<int>, k: nat, j: nat)
    requires k <= |totals| && j < |JobsUpTo(totals, k)|
    ensures var job := JobsUpTo(totals, k)[j];
            job.file < k && 1 <= job.chunk <= job.total == totals[job.file] &&
            j == Position(totals, job.file, job.chunk)
  {
    if j < |JobsUpTo(totals, k - 1)| {
      JobIsChunk(totals, k - 1, j);
    }
  }

  lemma {:induction false} ChunkIsJob(totals: seq<int>, k: nat, f: nat, n: nat)
    requires f < k <= |totals| && 1 <= n <= totals[f]
    ensures 0 <= Position(totals, f, n) < |JobsUpTo(totals, k)|
    ensures JobsUpTo(totals, k)[Position(totals, f, n)] == Job(f, n, totals[f])
  {
    if f < k - 1 {
      ChunkIsJob(totals, k - 1, f, n);
    }
  }

  /** Each chunk of each file is issued at exactly one position, and nothing else is issued. */
  lemma JobsAreTheChunks(totals: seq<int>)
    ensures forall j :: 0 <= j < |AllJobs(totals)| ==>
              var job := AllJobs(totals)[j];
              job.file < |totals| && 1 <= job.chunk <= job.total == totals[job.file]
    ensures forall f: nat, n: nat :: f < |totals| && 1 <= n <= totals[f] ==>
              (0 <= Position(totals, f, n) < |AllJobs(totals)| &&
               AllJobs(totals)[Position(totals, f, n)] == Job(f, n, totals[f]))
    ensures forall i, j | 0 <= i < |AllJobs(totals)| && 0 <= j < |AllJobs(totals)| ::
              AllJobs(totals)[i] == AllJobs(totals)[j] ==> i == j
  {
    forall j | 0 <= j < |AllJobs(totals)|
      ensures var job := AllJobs(totals)[j];
              job.file < |totals| && 1 <= job.chunk <= job.total == totals[job.file] &&
              j == Position(totals, job.file, job.chunk)
    {
      JobIsChunk(totals, |totals|, j);
    }
    forall f: nat, n: nat | f < |totals| && 1 <= n <= totals[f]
      ensures 0 <= Position(totals, f, n) < |AllJobs(totals)|
      ensures AllJobs(totals)[Position(totals, f, n)] == Job(f, n, totals[f])
    {
      ChunkIsJob(totals, |totals|, f, n);
    }
  }

  lemma {:induction false} JobsGrow(totals: seq<int>, k: nat, m: nat)
    requires k <= m <= |totals|
    ensures |JobsUpTo(totals, k)| <= |JobsUpTo(totals, m)|
    ensures JobsUpTo(totals, m)[..|JobsUpTo(totals, k)|] == JobsUpTo(totals, k)
  {
    if k == m {
    } else {
      JobsGrow(totals, k, m - 1);
    }
  }

  /**
   * The producer's two loops. At each job the select either hands it to a worker or, once the
   * context is cancelled, may return; `quits(n)` is its choice when `n` jobs have gone out.
   */
  method SendJobs(infos: seq<FileInfo>, quits: nat -> bool) returns (sent: seq<Job>, completed: bool)
    ensures var jobs := AllJobs(seq(|infos|, i requires 0 <= i < |infos| => infos[i].totalChunks));
            && |sent| <= |jobs| && sent == jobs[..|sent|]
            && (completed ==> sent == jobs)
            && (!completed ==> |sent| < |jobs| && quits(|sent|))
  {
    ghost var totals := seq(|infos|, i requires 0 <= i < |infos| => infos[i].totalChunks);
    sent := [];
    for f := 0 to |infos|
      invariant sent == JobsUpTo(totals, f)
    {
      var i := 0;
      while i < infos[f].totalChunks
        invariant 0 <= i && (i <= infos[f].totalChunks || i == 0)
        invariant sent == JobsUpTo(totals, f) + FileJobs(f, totals[f])[..i]
      {
        JobsGrow(totals, f + 1, |totals|);
        if quits(|sent|) {
          return sent, false;
        }
        assert FileJobs(f, totals[f])[..i + 1] == FileJobs(f, totals[f])[..i] + [Job(f, i + 1, totals[f])];
        sent := sent + [Job(f, i + 1, infos[f].totalChunks)];
        i := i + 1;
      }
    }
    completed := true;
  }
}
