/** The columnar handler: a buffer of rows, flushed in batches to the file of
    the current partition, and the process-wide list of handlers that the
    exit hook flushes. */
module ParquetHandler {
  import opened Common
  import opened Storage
  import Partition

  /** What path expansion reads from the host: the current user's home and
      the homes of the other users (for `~name`). */
  datatype Host = Host(home: string, userHomes: map<string, string>)

  /** `ParquetLogHandler._instances`: every handler created, in creation
      order. Handlers are never removed. */
  class HandlerRegistry {
    var instances: seq<ParquetLogHandler>

    ghost predicate Valid()
      reads this
    {
      forall i, j :: 0 <= i < j < |instances| ==> instances[i] != instances[j]
    }

    constructor ()
      ensures instances == [] && Valid()
    {
      instances := [];
    }
  }

  class ParquetLogHandler {
    const basePath: string
    const env: string
    const projectName: string
    const flushThreshold: int
    var buffer: seq<LogEntry>

    /** A new handler starts with an empty buffer and joins the registry. */
    constructor (registry: HandlerRegistry, basePath: string, env: string, projectName: string,
                 flushThreshold: int := 100)
      requires registry.Valid()
      modifies registry
      ensures this.basePath == basePath && this.env == env && this.projectName == projectName
      ensures this.flushThreshold == flushThreshold && buffer == []
      ensures registry.instances == old(registry.instances) + [this] && registry.Valid()
    {
      this.basePath := basePath;
      this.env := env;
      this.projectName := projectName;
      this.flushThreshold := flushThreshold;
      buffer := [];
      new;
      registry.instances := registry.instances + [this];
    }

    /** The file a flush on day `today` writes. */
    function FilePath(host: Host, today: Partition.Date): string
      requires Partition.ValidDate(today)
    {
      Partition.PartitionFile(Partition.ExpandUser(basePath, host.home, host.userHomes), projectName, env, today)
    }

    /** The abstract state this handler and the storage stand for. */
    function State(disk: Disk): SinkState
      reads this, disk
    {
      SinkState(buffer, disk.files)
    }

    /** `emit`: the row for the record is appended; a buffer that reaches the
        threshold is flushed at once. */
    method Emit(record: LogRecord, formatted: string, disk: Disk, host: Host, today: Partition.Date, fault: Fault)
      requires Partition.ValidDate(today)
      modifies this, disk
      ensures State(disk) == Storage.Emit(old(State(disk)), MakeEntry(record, formatted), flushThreshold,
                                          FilePath(host, today), fault)
    {
      var entry := MakeEntry(record, formatted);
      buffer := buffer + [entry];
      if |buffer| >= flushThreshold {
        Flush(disk, host, today, fault);
      }
    }

    /** `flush`: an empty buffer returns at once; otherwise the buffer is
        swapped for an empty one and the batch merged into the partition
        file. Every failure is swallowed and drops the batch. */
    method Flush(disk: Disk, host: Host, today: Partition.Date, fault: Fault)
      requires Partition.ValidDate(today)
      modifies this, disk
      ensures State(disk) == Storage.Flush(old(State(disk)), FilePath(host, today), fault)
    {
      if buffer == [] {
        return;
      }
      var batch := buffer;
      buffer := [];
      if batch == [] {
        return;
      }
      var path := FilePath(host, today);
      if fault == DirFault {
        return;
      }
      var rows := batch;
      if path in disk.files && disk.files[path].readable {
        rows := disk.files[path].rows + batch;
      }
      if fault == WriteFault {
        return;
      }
      disk.files := disk.files[path := File(rows, true)];
    }

    /** `close`: a final flush. */
    method Close(disk: Disk, host: Host, today: Partition.Date, fault: Fault)
      requires Partition.ValidDate(today)
      modifies this, disk
      ensures buffer == []
      ensures State(disk) == Storage.Flush(old(State(disk)), FilePath(host, today), fault)
    {
      Flush(disk, host, today, fault);
    }
  }

  /** Two handlers under one base path, for different projects or
      environments, never write the same file, whatever the day. */
  lemma HandlersSeparateFiles(h1: ParquetLogHandler, h2: ParquetLogHandler, host: Host,
                              d1: Partition.Date, d2: Partition.Date)
    requires Partition.ValidDate(d1) && Partition.ValidDate(d2) && h1.basePath == h2.basePath
    requires Partition.PlainComponent(h1.projectName) && Partition.PlainComponent(h1.env)
    requires Partition.PlainComponent(h2.projectName) && Partition.PlainComponent(h2.env)
    requires h1.projectName != h2.projectName || h1.env != h2.env || d1 != d2
    ensures h1.FilePath(host, d1) != h2.FilePath(host, d2)
  {
    if h1.FilePath(host, d1) == h2.FilePath(host, d2) {
      var base := Partition.ExpandUser(h1.basePath, host.home, host.userHomes);
      Partition.PartitionFileInjective(base, h1.projectName, h1.env, d1, h2.projectName, h2.env, d2);
    }
  }

  /** What the exit flush will do for each handler, given its fault. */
  ghost function PendingJobs(hs: seq<ParquetLogHandler>, host: Host, today: Partition.Date, faults: seq<Fault>): seq<Job>
    requires |faults| == |hs| && Partition.ValidDate(today)
    reads set h | h in hs
  {
    if hs == [] then []
    else [Job(hs[0].FilePath(host, today), hs[0].buffer, faults[0])] + PendingJobs(hs[1..], host, today, faults[1..])
  }

  lemma {:induction false} PendingJobsAt(hs: seq<ParquetLogHandler>, host: Host, today: Partition.Date,
                                         faults: seq<Fault>, k: nat)
    requires |faults| == |hs| && Partition.ValidDate(today) && k < |hs|
    ensures |PendingJobs(hs, host, today, faults)| == |hs|
    ensures PendingJobs(hs, host, today, faults)[k] == Job(hs[k].FilePath(host, today), hs[k].buffer, faults[k])
    decreases |hs|
  {
    if k > 0 {
      PendingJobsAt(hs[1..], host, today, faults[1..], k - 1);
    } else {
      if |hs| > 1 { PendingJobsAt(hs[1..], host, today, faults[1..], 0); }
    }
  }

  lemma PendingJobsAll(hs: seq<ParquetLogHandler>, host: Host, today: Partition.Date, faults: seq<Fault>)
    requires |faults| == |hs| && Partition.ValidDate(today)
    ensures var jobs := PendingJobs(hs, host, today, faults);
      |jobs| == |hs| &&
      forall k :: 0 <= k < |hs| ==> jobs[k] == Job(hs[k].FilePath(host, today), hs[k].buffer, faults[k])
  {
    if hs == [] {
      assert |PendingJobs(hs, host, today, faults)| == 0;
    }
    forall k | 0 <= k < |hs|
      ensures |PendingJobs(hs, host, today, faults)| == |hs|
      ensures PendingJobs(hs, host, today, faults)[k] == Job(hs[k].FilePath(host, today), hs[k].buffer, faults[k])
    {
      PendingJobsAt(hs, host, today, faults, k);
    }
  }

  /** Flushing one more job after a run of jobs. */
  lemma {:induction false} FlushJobsSnoc(files: Files, jobs: seq<Job>, j: Job)
    ensures FlushJobs(files, jobs + [j]) == Flush(SinkState(j.batch, FlushJobs(files, jobs)), j.path, j.fault).files
    decreases |jobs|
  {
    if jobs != [] {
      assert (jobs + [j])[1..] == jobs[1..] + [j];
      FlushJobsSnoc(Flush(SinkState(jobs[0].batch, files), jobs[0].path, jobs[0].fault).files, jobs[1..], j);
    } else {
      assert [] + [j] == [j];
    }
  }

  /** One step of the exit flush: flushing handler `h` extends the run of
      jobs done so far by its own job. */
  method FlushNext(h: ParquetLogHandler, disk: Disk, host: Host, today: Partition.Date, fault: Fault,
                   ghost before: Files, ghost done: seq<Job>)
    requires Partition.ValidDate(today) && disk.files == FlushJobs(before, done)
    modifies h, disk
    ensures h.buffer == []
    ensures disk.files == FlushJobs(before, done + [Job(h.FilePath(host, today), old(h.buffer), fault)])
  {
    ghost var j := Job(h.FilePath(host, today), h.buffer, fault);
    h.Flush(disk, host, today, fault);
    FlushJobsSnoc(before, done, j);
  }

  /** `_flush_all_on_exit`: every registered handler is flushed, in creation
      order; each handler's buffer ends empty and the storage is the result
      of flushing their batches one after another. */
  method FlushAllOnExit(registry: HandlerRegistry, disk: Disk, host: Host, today: Partition.Date, faults: seq<Fault>)
    requires registry.Valid() && |faults| == |registry.instances| && Partition.ValidDate(today)
    modifies registry.instances, disk
    ensures forall h :: h in registry.instances ==> h.buffer == []
    ensures disk.files == FlushJobs(old(disk.files), old(PendingJobs(registry.instances, host, today, faults)))
  {
    var hs := registry.instances;
    ghost var jobs := PendingJobs(hs, host, today, faults);
    PendingJobsAll(hs, host, today, faults);
    assert jobs[..0] == [];
    var i := 0;
    while i < |hs|
      invariant 0 <= i <= |hs|
      invariant forall k :: 0 <= k < i ==> hs[k].buffer == []
      invariant forall k :: i <= k < |hs| ==> hs[k].buffer == jobs[k].batch
      invariant disk.files == FlushJobs(old(disk.files), jobs[..i])
    {
      FlushNext(hs[i], disk, host, today, faults[i], old(disk.files), jobs[..i]);
      PrefixSnoc(jobs, i);
      i := i + 1;
    }
    FullPrefix(jobs);
  }
}
