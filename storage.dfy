/** The columnar handler's behaviour on values: its buffer, the partition
    files it writes (a map from path to rows, with a flag saying whether an
    existing file can be read back), and an I/O fault oracle. The handler
    class is proved against these functions; the properties of batching are
    proved about them here. */
module Storage {
  import opened Common

  datatype File = File(rows: seq<LogEntry>, readable: bool)
  type Files = map<string, File>

  /** Where a flush fails, if it does: creating the partition directory
      (or composing the path), or writing the file. */
  datatype Fault = NoFault | DirFault | WriteFault

  datatype SinkState = SinkState(buffer: seq<LogEntry>, files: Files)

  /** The rows a read of `path` returns: none when the file is absent or
      cannot be read. */
  function Stored(files: Files, path: string): seq<LogEntry>
  {
    if path in files && files[path].readable then files[path].rows else []
  }

  /** The rows the flush writes: a readable existing file's rows followed by
      the batch, otherwise the batch alone. */
  function MergedRows(files: Files, path: string, batch: seq<LogEntry>): (rows: seq<LogEntry>)
    ensures rows == Stored(files, path) + batch
  {
    if path in files && files[path].readable then files[path].rows + batch else batch
  }

  /** `flush`: nothing at all on an empty buffer; otherwise the buffer is
      drained, and the batch is written to `path` unless a fault drops it. */
  function Flush(s: SinkState, path: string, fault: Fault): (r: SinkState)
    ensures r.buffer == []
    ensures s.buffer == [] || fault != NoFault ==> r.files == s.files
    ensures s.buffer != [] && fault == NoFault ==>
      path in r.files && r.files[path].readable && Stored(r.files, path) == Stored(s.files, path) + s.buffer
    ensures s.buffer != [] && fault == NoFault && path in s.files && !s.files[path].readable ==>
      r.files[path].rows == s.buffer
    ensures forall p :: p != path ==> (p in r.files <==> p in s.files)
    ensures forall p :: p != path && p in s.files ==> r.files[p] == s.files[p]
  {
    if s.buffer == [] then s
    else
      var batch := s.buffer;
      if fault != NoFault then SinkState([], s.files)
      else SinkState([], s.files[path := File(MergedRows(s.files, path, batch), true)])
  }

  /** `emit`: the entry is appended, and the buffer is flushed once its length
      reaches the threshold. */
  function Emit(s: SinkState, entry: LogEntry, threshold: int, path: string, fault: Fault): (r: SinkState)
    ensures r.buffer == s.buffer + [entry] || r.buffer == []
    ensures r.buffer == s.buffer + [entry] <==> |s.buffer| + 1 < threshold
    ensures |s.buffer| < threshold ==> |r.buffer| < threshold
    ensures r.buffer != [] || fault != NoFault ==> r.files == s.files
    ensures fault == NoFault ==> Stored(r.files, path) + r.buffer == Stored(s.files, path) + s.buffer + [entry]
    ensures forall p :: p != path ==> (p in r.files <==> p in s.files)
    ensures forall p :: p != path && p in s.files ==> r.files[p] == s.files[p]
  {
    var appended := SinkState(s.buffer + [entry], s.files);
    if |appended.buffer| >= threshold then Flush(appended, path, fault) else appended
  }

  /** A flush right after a flush does nothing, on whatever day and whatever
      the faults. */
  lemma FlushIdempotent(s: SinkState, path: string, fault: Fault, path2: string, fault2: Fault)
    ensures Flush(Flush(s, path, fault), path2, fault2) == Flush(s, path, fault)
  {
  }

  /** Concrete scenario: a readable file of five rows and a batch of two give
      a file of seven rows, the five first. */
  lemma FiveAndTwoExample(old5: seq<LogEntry>, new2: seq<LogEntry>, path: string)
    requires |old5| == 5 && |new2| == 2
    ensures var r := Flush(SinkState(new2, map[path := File(old5, true)]), path, NoFault);
      |Stored(r.files, path)| == 7 && Stored(r.files, path)[..5] == old5 && Stored(r.files, path)[5..] == new2
  {
  }

  // ---- sequences of emits ----

  /** A run of emits within one day, each with its own fault outcome. */
  function EmitAll(s: SinkState, entries: seq<LogEntry>, faults: seq<Fault>, threshold: int, path: string): SinkState
    requires |faults| == |entries|
    decreases |entries|
  {
    if entries == [] then s
    else EmitAll(Emit(s, entries[0], threshold, path, faults[0]), entries[1..], faults[1..], threshold, path)
  }

  predicate NoFaults(faults: seq<Fault>)
  {
    forall i :: 0 <= i < |faults| ==> faults[i] == NoFault
  }

  /** Everything the handler holds for `path`: stored rows, then buffered. */
  function Held(s: SinkState, path: string): seq<LogEntry>
  {
    Stored(s.files, path) + s.buffer
  }

  /** Euclidean division is determined by quotient and remainder. */
  lemma ModUnique(x: int, t: int, k: int, m: int)
    requires t > 0 && 0 <= m < t && x == k * t + m
    ensures x % t == m
  {
    var q, r := x / t, x % t;
    var d := k - q;
    assert d * t == r - m;
    assert d == 0;
  }

  lemma ModStep(b: nat, n: nat, t: nat)
    requires 0 <= b < t
    ensures b + 1 == t ==> n % t == (b + 1 + n) % t
  {
    if b + 1 == t {
      var q, m := n / t, n % t;
      assert n == q * t + m;
      assert t + n == (q + 1) * t + m;
      ModUnique(t + n, t, q + 1, m);
    }
  }

  /** Conservation: with no I/O failure, the rows stored plus the rows still
      buffered are exactly the earlier ones followed by every entry emitted,
      in order and without duplicates, for any threshold; a buffer below the
      threshold stays below it. */
  lemma {:induction false} EmitAllConserves(s: SinkState, entries: seq<LogEntry>, faults: seq<Fault>,
                                            threshold: int, path: string)
    requires |faults| == |entries| && NoFaults(faults)
    ensures var r := EmitAll(s, entries, faults, threshold, path);
      Held(r, path) == Held(s, path) + entries && (|s.buffer| < threshold ==> |r.buffer| < threshold)
    decreases |entries|
  {
    if entries != [] {
      var s1 := Emit(s, entries[0], threshold, path, faults[0]);
      assert faults[0] == NoFault;
      assert NoFaults(faults[1..]) by {
        forall i | 0 <= i < |faults| - 1 ensures faults[1..][i] == NoFault { assert faults[1..][i] == faults[i + 1]; }
      }
      EmitAllConserves(s1, entries[1..], faults[1..], threshold, path);
      var r := EmitAll(s, entries, faults, threshold, path);
      assert r == EmitAll(s1, entries[1..], faults[1..], threshold, path);
      ConcatStep(Held(s, path), [entries[0]], entries[1..], Held(s1, path), Held(r, path));
      ConsSplit(entries);
    } else {
      assert Held(s, path) + entries == Held(s, path);
    }
  }

  /** The buffer length after a run of emits: (|buffer| + n) mod threshold
      after n emits, whatever the faults. */
  lemma {:induction false} EmitAllRemainder(s: SinkState, entries: seq<LogEntry>, faults: seq<Fault>,
                                            threshold: int, path: string)
    requires |faults| == |entries|
    requires |s.buffer| < threshold
    ensures |EmitAll(s, entries, faults, threshold, path).buffer| == (|s.buffer| + |entries|) % threshold
    decreases |entries|
  {
    if entries != [] {
      var s1 := Emit(s, entries[0], threshold, path, faults[0]);
      EmitAllRemainder(s1, entries[1..], faults[1..], threshold, path);
      ModStep(|s.buffer|, |entries| - 1, threshold);
    } else {
      ModUnique(|s.buffer|, threshold, 0, |s.buffer|);
    }
  }

  /** With a threshold of at most one, every emit flushes: after a
      non-empty run of emits the buffer is empty, whatever the faults. */
  lemma {:induction false} EmitAllDrains(s: SinkState, entries: seq<LogEntry>, faults: seq<Fault>,
                                         threshold: int, path: string)
    requires |faults| == |entries| && entries != [] && threshold <= 1
    ensures EmitAll(s, entries, faults, threshold, path).buffer == []
    decreases |entries|
  {
    var s1 := Emit(s, entries[0], threshold, path, faults[0]);
    assert s1.buffer == [];
    if |entries| > 1 {
      EmitAllDrains(s1, entries[1..], faults[1..], threshold, path);
    }
  }

  /** With a threshold of at most one (`parquet_flush_threshold` 1, 0 or
      negative) every entry is flushed as it arrives: the buffer ends empty
      and the file holds every entry in arrival order. */
  lemma EagerStoresAll(files: Files, entries: seq<LogEntry>, faults: seq<Fault>, threshold: int, path: string)
    requires |faults| == |entries| && NoFaults(faults) && threshold <= 1
    ensures var r := EmitAll(SinkState([], files), entries, faults, threshold, path);
      r.buffer == [] && Stored(r.files, path) == Stored(files, path) + entries
  {
    var s := SinkState([], files);
    EmitAllConserves(s, entries, faults, threshold, path);
    var r := EmitAll(s, entries, faults, threshold, path);
    if entries != [] {
      EmitAllDrains(s, entries, faults, threshold, path);
    }
    assert r.buffer == [];
    assert Held(r, path) == Stored(r.files, path);
    assert Held(s, path) == Stored(files, path);
  }

  // ---- at most once ----

  /** `a` is obtained from `b` by deleting elements. */
  ghost predicate IsSubseq<T>(a: seq<T>, b: seq<T>)
    decreases |b|
  {
    a == [] || (b != [] && ((a[0] == b[0] && IsSubseq(a[1..], b[1..])) || IsSubseq(a, b[1..])))
  }

  lemma {:induction false} SubseqRefl<T>(a: seq<T>)
    ensures IsSubseq(a, a)
    decreases |a|
  {
    if a != [] { SubseqRefl(a[1..]); }
  }

  /** Elements inserted into the larger sequence keep a subsequence one. */
  lemma {:induction false} SubseqWiden<T>(a: seq<T>, p: seq<T>, m: seq<T>, q: seq<T>)
    requires IsSubseq(a, p + q)
    ensures IsSubseq(a, p + m + q)
    decreases |p|, |m|
  {
    if a == [] {
    } else if p == [] {
      assert p + m + q == m + q;
      if m != [] {
        assert (m + q)[1..] == m[1..] + q;
        assert [] + m[1..] + q == m[1..] + q;
        SubseqWiden(a, [], m[1..], q);
        assert IsSubseq(a, (m + q)[1..]);
      } else {
        assert m + q == p + q;
      }
    } else {
      assert (p + q)[0] == p[0] && (p + q)[1..] == p[1..] + q;
      assert (p + m + q)[0] == p[0] && (p + m + q)[1..] == p[1..] + m + q;
      if a[0] == p[0] && IsSubseq(a[1..], p[1..] + q) {
        SubseqWiden(a[1..], p[1..], m, q);
      } else {
        SubseqWiden(a, p[1..], m, q);
      }
    }
  }

  /** A subsequence has no element more often than the sequence it is taken
      from: nothing is duplicated. */
  lemma {:induction false} SubseqMultiset<T>(a: seq<T>, b: seq<T>)
    requires IsSubseq(a, b)
    ensures multiset(a) <= multiset(b) && |a| <= |b|
    decreases |b|
  {
    if a != [] {
      assert b == [b[0]] + b[1..];
      if a[0] == b[0] && IsSubseq(a[1..], b[1..]) {
        SubseqMultiset(a[1..], b[1..]);
        assert a == [a[0]] + a[1..];
      } else {
        SubseqMultiset(a, b[1..]);
      }
    }
  }

  /** At-most-once delivery: whatever the faults, the rows held afterwards are
      the earlier ones and the emitted entries with some removed, in their
      original order; no row is duplicated or reordered. */
  lemma {:induction false} EmitAllAtMostOnce(s: SinkState, entries: seq<LogEntry>, faults: seq<Fault>,
                                             threshold: int, path: string)
    requires |faults| == |entries|
    ensures IsSubseq(Held(EmitAll(s, entries, faults, threshold, path), path), Held(s, path) + entries)
    decreases |entries|
  {
    if entries == [] {
      SubseqRefl(Held(s, path));
      assert Held(s, path) + entries == Held(s, path);
    } else {
      var s1 := Emit(s, entries[0], threshold, path, faults[0]);
      var rest := entries[1..];
      EmitAllAtMostOnce(s1, rest, faults[1..], threshold, path);
      assert EmitAll(s, entries, faults, threshold, path) == EmitAll(s1, rest, faults[1..], threshold, path);
      AtMostOnceStep(Held(EmitAll(s1, rest, faults[1..], threshold, path), path), s, entries[0], rest,
                     threshold, path, faults[0]);
      assert entries == [entries[0]] + rest;
    }
  }

  /** One emit in front of a run keeps at-most-once delivery. */
  lemma AtMostOnceStep(a: seq<LogEntry>, s: SinkState, e: LogEntry, rest: seq<LogEntry>,
                       threshold: int, path: string, fault: Fault)
    requires IsSubseq(a, Held(Emit(s, e, threshold, path, fault), path) + rest)
    ensures IsSubseq(a, Held(s, path) + ([e] + rest))
  {
    EmitHeld(s, e, threshold, path, fault);
    if fault != NoFault && |s.buffer| + 1 >= threshold {
      DropStep(a, Stored(s.files, path), s.buffer, e, rest);
    } else {
      KeepStep(a, Stored(s.files, path), s.buffer, e, rest);
    }
  }

  /** Rows cut back to `p` in front of the rest: a subsequence stays one of
      the whole. */
  lemma DropStep<T>(a: seq<T>, p: seq<T>, b: seq<T>, e: T, rest: seq<T>)
    requires IsSubseq(a, p + rest)
    ensures IsSubseq(a, p + b + ([e] + rest))
  {
    SubseqWiden(a, p, b + [e], rest);
    assert p + (b + [e]) + rest == p + b + ([e] + rest);
  }

  /** Rows kept with `e` appended in front of the rest: the same sequence. */
  lemma KeepStep<T>(a: seq<T>, p: seq<T>, b: seq<T>, e: T, rest: seq<T>)
    requires IsSubseq(a, p + b + [e] + rest)
    ensures IsSubseq(a, p + b + ([e] + rest))
  {
    assert p + b + [e] + rest == p + b + ([e] + rest);
  }

  /** One emit either keeps every row held, the new one last, or, when a
      flush it triggers fails, drops the buffered batch and keeps only the
      stored rows. */
  lemma EmitHeld(s: SinkState, e: LogEntry, threshold: int, path: string, fault: Fault)
    ensures var r := Emit(s, e, threshold, path, fault);
      if fault != NoFault && |s.buffer| + 1 >= threshold then Held(r, path) == Stored(s.files, path)
      else Held(r, path) == Held(s, path) + [e]
  {
    var r := Emit(s, e, threshold, path, fault);
    if fault != NoFault && |s.buffer| + 1 >= threshold {
      assert r.files == s.files && r.buffer == [];
      assert Held(r, path) == Stored(s.files, path) + [];
    }
  }

  // ---- flushing many handlers at exit ----

  /** One handler's part of the exit flush: its file, its buffer, its fault. */
  datatype Job = Job(path: string, batch: seq<LogEntry>, fault: Fault)

  /** The files after flushing the jobs in order. */
  function FlushJobs(files: Files, jobs: seq<Job>): Files
    decreases |jobs|
  {
    if jobs == [] then files
    else FlushJobs(Flush(SinkState(jobs[0].batch, files), jobs[0].path, jobs[0].fault).files, jobs[1..])
  }

  /** The batches bound for `path`, in job order. */
  function BatchesFor(jobs: seq<Job>, path: string): seq<LogEntry>
    decreases |jobs|
  {
    if jobs == [] then []
    else (if jobs[0].path == path then jobs[0].batch else []) + BatchesFor(jobs[1..], path)
  }

  /** With no fault, every buffered row is in storage after the exit flush:
      each file holds its earlier rows followed by the batches of the
      handlers writing to it, in their order. */
  lemma {:induction false} FlushJobsStoresAll(files: Files, jobs: seq<Job>, path: string)
    requires forall i :: 0 <= i < |jobs| ==> jobs[i].fault == NoFault
    ensures Stored(FlushJobs(files, jobs), path) == Stored(files, path) + BatchesFor(jobs, path)
    decreases |jobs|
  {
    if jobs == [] {
      assert Stored(files, path) + [] == Stored(files, path);
    } else {
      var j := jobs[0];
      var rest := jobs[1..];
      var f1 := Flush(SinkState(j.batch, files), j.path, j.fault).files;
      assert forall i :: 0 <= i < |rest| ==> rest[i].fault == NoFault by {
        forall i | 0 <= i < |rest| ensures rest[i].fault == NoFault { assert rest[i] == jobs[i + 1]; }
      }
      FlushJobsStoresAll(f1, rest, path);
      JobStored(files, j, path);
      var mine := if j.path == path then j.batch else [];
      assert FlushJobs(files, jobs) == FlushJobs(f1, rest);
      assert BatchesFor(jobs, path) == mine + BatchesFor(rest, path);
      ConcatStep(Stored(files, path), mine, BatchesFor(rest, path), Stored(f1, path), Stored(FlushJobs(f1, rest), path));
    }
  }

  /** One job's effect on what a read of `path` returns. */
  lemma JobStored(files: Files, j: Job, path: string)
    requires j.fault == NoFault
    ensures Stored(Flush(SinkState(j.batch, files), j.path, j.fault).files, path)
      == Stored(files, path) + (if j.path == path then j.batch else [])
  {
    var r := Flush(SinkState(j.batch, files), j.path, j.fault);
    if j.batch == [] {
      assert Stored(files, path) + [] == Stored(files, path);
    } else if j.path != path {
      assert Stored(r.files, path) == Stored(files, path);
    }
  }

  /** Files no job writes to are left as they were. */
  lemma {:induction false} FlushJobsFrame(files: Files, jobs: seq<Job>, path: string)
    requires forall i :: 0 <= i < |jobs| ==> jobs[i].path != path
    ensures path in FlushJobs(files, jobs) <==> path in files
    ensures path in files ==> FlushJobs(files, jobs)[path] == files[path]
    decreases |jobs|
  {
    if jobs != [] {
      var f1 := Flush(SinkState(jobs[0].batch, files), jobs[0].path, jobs[0].fault).files;
      FlushJobsFrame(f1, jobs[1..], path);
    }
  }

  /** The partition storage, shared by every handler. */
  class Disk {
    var files: Files

    constructor (files: Files)
      ensures this.files == files
    {
      this.files := files;
    }
  }
}
