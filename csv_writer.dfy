/**
 * The append side of the CSV engine: the header initializer
 * (`assureCsvFileExists`, app/csv.js:92-98) and the single-slot write queue
 * that runs each batch's append job (app/csv.js:11, 105-134).
 *
 * The queue is modelled with the semantics it is meant to have: one job at a
 * time, in the order the jobs were added. What the filesystem does to a
 * write (succeed, or fail with an error) is passed in as `Faults`.
 */
module CsvWriter {
  import opened Wrappers
  import opened JsString
  import opened CsvRegistry
  import opened CsvEncoding

  /** An error reported by the filesystem. */
  datatype IoError = IoError(code: string)

  /** The filesystem's answer to one job's header write and data append. */
  datatype Faults = Faults(header: Option<IoError>, append: Option<IoError>)

  const NoFaults := Faults(None, None)

  /** One queued append: the table it goes to and the payload it resolves with. */
  datatype Job = Job(table: Table, payload: string)

  /** How a caller's promise ends. */
  datatype Settled = Resolved(text: string) | Rejected(error: IoError)

  /** `path.join(DATA_DIR, `${name}.csv`)`. */
  function CsvPath(dataDir: string, name: string): string
  {
    dataDir + "/" + name + ".csv"
  }

  /** Distinct table names have distinct files. */
  lemma CsvPathInjective(dataDir: string, a: string, b: string)
    requires CsvPath(dataDir, a) == CsvPath(dataDir, b)
    ensures a == b
  {
    var p := CsvPath(dataDir, a);
    assert |a| == |b|;
    assert a == p[|dataDir| + 1..|dataDir| + 1 + |a|];
    assert b == CsvPath(dataDir, b)[|dataDir| + 1..|dataDir| + 1 + |b|];
  }

  /** The header line: the column names joined by a literal comma. */
  function HeaderLine(columns: seq<string>): string
  {
    Join(columns, ",")
  }

  /**
   * The header ignores the configured separator: with a one-character
   * separator other than the comma that no column name holds, a reader
   * splitting on the separator sees the header as a single field, and with
   * two or more columns the header differs from the column names joined by
   * the separator.
   */
  lemma HeaderIgnoresSeparator(columns: seq<string>, s: char)
    requires s != ','
    requires forall i :: 0 <= i < |columns| ==> s !in columns[i]
    ensures Split(HeaderLine(columns), s) == [HeaderLine(columns)]
    ensures |columns| >= 2 ==> HeaderLine(columns) != Join(columns, [s])
  {
    JoinAvoids(columns, ",", s);
    SplitWithout(HeaderLine(columns), s);
    if |columns| >= 2 {
      SplitJoin(columns, s);
    }
  }

  /** A file's content, if it exists. */
  function Lookup(files: map<string, string>, path: string): Option<string>
  {
    if path in files then Some(files[path]) else None
  }

  /** `fs.appendFile(path, data)` when it succeeds: an absent file is created. */
  function AppendTo(files: map<string, string>, path: string, data: string): map<string, string>
  {
    files[path := (if path in files then files[path] else "") + data]
  }

  /**
   * The files after `assureCsvFileExists`: an existing file is left alone; an
   * absent one is created holding the header line, unless that write fails.
   */
  function EnsureHeader(files: map<string, string>, path: string, columns: seq<string>,
                        fault: Option<IoError>): (r: Result<map<string, string>, IoError>)
    ensures path in files ==> r == Success(files)
    ensures path !in files && fault.None? ==> r == Success(files[path := HeaderLine(columns)])
    ensures path !in files && fault.Some? ==> r == Failure(fault.value)
  {
    if path in files then Success(files)
    else if fault.Some? then Failure(fault.value)
    else
      assert "" + HeaderLine(columns) == HeaderLine(columns);
      Success(AppendTo(files, path, HeaderLine(columns)))
  }

  /** Initializing twice is initializing once. */
  lemma EnsureHeaderIdempotent(files: map<string, string>, path: string, columns: seq<string>,
                               fault: Option<IoError>, fault': Option<IoError>)
    requires EnsureHeader(files, path, columns, fault).Success?
    ensures var once := EnsureHeader(files, path, columns, fault).value;
            EnsureHeader(once, path, columns, fault') == Success(once)
  {
  }

  /**
   * One job run in the queue's slot: initialize the file, then append
   * `NEW_LINE + payload`; only the job's own file changes, and the caller is
   * resolved with the payload or rejected with the error that stopped it.
   */
  function ApplyJob(cfg: Config, files: map<string, string>, job: Job, faults: Faults)
    : (r: (map<string, string>, Settled))
    ensures var path := CsvPath(cfg.dataDir, job.table.name);
            forall p :: p != path ==> Lookup(r.0, p) == Lookup(files, p)
    ensures r.1.Resolved? ==> r.1.text == job.payload
    ensures r.1.Rejected? ==> faults.header == Some(r.1.error) || faults.append == Some(r.1.error)
    ensures r.1.Rejected? ==> forall p :: p in files ==> p in r.0 && r.0[p] == files[p]
    ensures var path := CsvPath(cfg.dataDir, job.table.name);
            path !in files && faults.header.Some? ==> r == (files, Rejected(faults.header.value))
    ensures var path := CsvPath(cfg.dataDir, job.table.name);
            path in files ==>
              r == if faults.append.Some? then (files, Rejected(faults.append.value))
                   else (AppendTo(files, path, cfg.newLine + job.payload), Resolved(job.payload))
    ensures faults.header.None? && faults.append.Some? ==>
              r == (EnsureHeader(files, CsvPath(cfg.dataDir, job.table.name), job.table.columns, None).value,
                    Rejected(faults.append.value))
    ensures faults.header.None? && faults.append.Some? ==>
              var path := CsvPath(cfg.dataDir, job.table.name);
              path in r.0 && r.0[path] == (if path in files then files[path] else HeaderLine(job.table.columns))
    ensures faults == NoFaults ==>
              var path := CsvPath(cfg.dataDir, job.table.name);
              && r.1 == Resolved(job.payload)
              && path in r.0
              && r.0[path] == (if path in files then files[path] else HeaderLine(job.table.columns))
                              + cfg.newLine + job.payload
  {
    var path := CsvPath(cfg.dataDir, job.table.name);
    match EnsureHeader(files, path, job.table.columns, faults.header)
    case Failure(e) => (files, Rejected(e))
    case Success(initialized) =>
      if faults.append.Some? then (initialized, Rejected(faults.append.value))
      else (AppendTo(initialized, path, cfg.newLine + job.payload), Resolved(job.payload))
  }

  /** The files and the settled promises after a run of the queue. */
  datatype Run = Run(files: map<string, string>, settled: seq<Settled>)

  /** The jobs run one at a time, head first, each seeing the files its predecessors left. */
  function Replay(cfg: Config, files: map<string, string>, jobs: seq<Job>, faults: seq<Faults>)
    : (r: Run)
    requires |faults| == |jobs|
    ensures |r.settled| == |jobs|
    decreases |jobs|
  {
    if |jobs| == 0 then Run(files, [])
    else
      var step := ApplyJob(cfg, files, jobs[0], faults[0]);
      var rest := Replay(cfg, step.0, jobs[1..], faults[1..]);
      Run(rest.files, [step.1] + rest.settled)
  }

  /**
   * Every job settles, each with its own outcome: resolved with its payload,
   * or rejected with one of its own faults; a job without faults is resolved
   * whatever happened to the jobs before it.
   */
  lemma {:induction false} ReplaySettlesEachJob(cfg: Config, files: map<string, string>,
                                                jobs: seq<Job>, faults: seq<Faults>, i: int)
    requires |faults| == |jobs| && 0 <= i < |jobs|
    ensures var s := Replay(cfg, files, jobs, faults).settled[i];
            && (s == Resolved(jobs[i].payload) ||
                (s.Rejected? && (faults[i].header == Some(s.error) || faults[i].append == Some(s.error))))
            && (faults[i] == NoFaults ==> s == Resolved(jobs[i].payload))
    decreases |jobs|
  {
    if i > 0 {
      var step := ApplyJob(cfg, files, jobs[0], faults[0]);
      ReplaySettlesEachJob(cfg, step.0, jobs[1..], faults[1..], i - 1);
    }
  }

  /** A file that no job targets keeps its content (or stays absent). */
  lemma {:induction false} ReplayLeavesOtherFiles(cfg: Config, files: map<string, string>,
                                                  jobs: seq<Job>, faults: seq<Faults>, p: string)
    requires |faults| == |jobs|
    requires forall i :: 0 <= i < |jobs| ==> CsvPath(cfg.dataDir, jobs[i].table.name) != p
    ensures Lookup(Replay(cfg, files, jobs, faults).files, p) == Lookup(files, p)
    decreases |jobs|
  {
    if |jobs| > 0 {
      var step := ApplyJob(cfg, files, jobs[0], faults[0]);
      ReplayLeavesOtherFiles(cfg, step.0, jobs[1..], faults[1..], p);
    }
  }

  /** The payloads of the jobs, in queue order. */
  function Payloads(jobs: seq<Job>): (r: seq<string>)
    ensures |r| == |jobs|
    ensures forall i :: 0 <= i < |r| ==> r[i] == jobs[i].payload
  {
    if |jobs| == 0 then [] else [jobs[0].payload] + Payloads(jobs[1..])
  }

  /** Folding a joined pair into the first part of a join. */
  lemma JoinFold(a: string, b: string, rest: seq<string>, sep: string)
    ensures Join([a + sep + b] + rest, sep) == Join([a, b] + rest, sep)
  {
    if |rest| == 0 {
      assert [a + sep + b] + rest == [a + sep + b];
      assert [a, b] + rest == [a, b];
      assert Join([b], sep) == b;
    } else {
      assert ([a, b] + rest)[1..] == [b] + rest;
      assert ([a + sep + b] + rest)[1..] == rest;
      assert ([b] + rest)[1..] == rest;
    }
  }

  /**
   * Jobs for one table, all succeeding: the file ends up as its start (the
   * existing content, or else the header line) followed by each payload in
   * queue order, every one after a `NEW_LINE`.
   */
  lemma {:induction false} ReplayOneTable(cfg: Config, files: map<string, string>,
                                          table: Table, jobs: seq<Job>, faults: seq<Faults>)
    requires |faults| == |jobs|
    requires forall i :: 0 <= i < |jobs| ==> jobs[i].table == table && faults[i] == NoFaults
    ensures var path := CsvPath(cfg.dataDir, table.name);
            var start := if path in files then files[path] else HeaderLine(table.columns);
            var run := Replay(cfg, files, jobs, faults);
            && (|jobs| > 0 ==> path in run.files)
            && (|jobs| > 0 || path in files ==>
                  path in run.files && run.files[path] == Join([start] + Payloads(jobs), cfg.newLine))
    decreases |jobs|
  {
    var path := CsvPath(cfg.dataDir, table.name);
    var start := if path in files then files[path] else HeaderLine(table.columns);
    if |jobs| > 0 {
      var step := ApplyJob(cfg, files, jobs[0], faults[0]);
      ReplayOneTable(cfg, step.0, table, jobs[1..], faults[1..]);
      var next := start + cfg.newLine + jobs[0].payload;
      assert step.0[path] == next;
      JoinFold(start, jobs[0].payload, Payloads(jobs[1..]), cfg.newLine);
      assert [start] + Payloads(jobs) == [start, jobs[0].payload] + Payloads(jobs[1..]);
    } else {
      assert [start] + Payloads(jobs) == [start];
    }
  }

  /**
   * Counting lines: with a one-character line terminator that neither the
   * start nor any payload holds (so each job carries at most one line), the
   * table's file splits into exactly its start followed by one line per job,
   * in queue order, nothing lost and nothing interleaved.
   */
  lemma ReplayLines(cfg: Config, files: map<string, string>, table: Table,
                    jobs: seq<Job>, faults: seq<Faults>, c: char)
    requires |faults| == |jobs| && |jobs| > 0
    requires forall i :: 0 <= i < |jobs| ==> jobs[i].table == table && faults[i] == NoFaults
    requires cfg.newLine == [c]
    requires var path := CsvPath(cfg.dataDir, table.name);
             c !in (if path in files then files[path] else HeaderLine(table.columns))
    requires forall i :: 0 <= i < |jobs| ==> c !in jobs[i].payload
    ensures var path := CsvPath(cfg.dataDir, table.name);
            var run := Replay(cfg, files, jobs, faults);
            path in run.files &&
            Split(run.files[path], c)
              == [if path in files then files[path] else HeaderLine(table.columns)] + Payloads(jobs)
  {
    ReplayOneTable(cfg, files, table, jobs, faults);
    var path := CsvPath(cfg.dataDir, table.name);
    var start := if path in files then files[path] else HeaderLine(table.columns);
    var parts := [start] + Payloads(jobs);
    forall i | 0 <= i < |parts| ensures c !in parts[i] {
      if i > 0 { assert parts[i] == jobs[i - 1].payload; }
    }
    SplitJoin(parts, c);
  }

  /** The jobs that target file `p`. */
  function JobsFor(cfg: Config, jobs: seq<Job>, p: string): seq<Job>
  {
    if |jobs| == 0 then []
    else (if CsvPath(cfg.dataDir, jobs[0].table.name) == p then [jobs[0]] else [])
         + JobsFor(cfg, jobs[1..], p)
  }

  /** The faults of the jobs that target file `p`. */
  function FaultsFor(cfg: Config, jobs: seq<Job>, faults: seq<Faults>, p: string): (r: seq<Faults>)
    requires |faults| == |jobs|
    ensures |r| == |JobsFor(cfg, jobs, p)|
  {
    if |jobs| == 0 then []
    else (if CsvPath(cfg.dataDir, jobs[0].table.name) == p then [faults[0]] else [])
         + FaultsFor(cfg, jobs[1..], faults[1..], p)
  }

  /**
   * One global queue acts on each file as if that file had a queue of its
   * own: the final content of `p` is what its own jobs alone, in their
   * order, make of it, whatever jobs for other tables run in between.
   */
  lemma {:induction false} ReplayPerFile(cfg: Config, files: map<string, string>,
                                         files': map<string, string>,
                                         jobs: seq<Job>, faults: seq<Faults>, p: string)
    requires |faults| == |jobs|
    requires Lookup(files, p) == Lookup(files', p)
    ensures Lookup(Replay(cfg, files, jobs, faults).files, p)
         == Lookup(Replay(cfg, files', JobsFor(cfg, jobs, p), FaultsFor(cfg, jobs, faults, p)).files, p)
    decreases |jobs|
  {
    if |jobs| > 0 {
      var step := ApplyJob(cfg, files, jobs[0], faults[0]);
      var own := JobsFor(cfg, jobs, p);
      var ownFaults := FaultsFor(cfg, jobs, faults, p);
      if CsvPath(cfg.dataDir, jobs[0].table.name) == p {
        var step' := ApplyJob(cfg, files', jobs[0], faults[0]);
        assert Lookup(step.0, p) == Lookup(step'.0, p);
        assert own[1..] == JobsFor(cfg, jobs[1..], p) && own[0] == jobs[0];
        assert ownFaults[1..] == FaultsFor(cfg, jobs[1..], faults[1..], p) && ownFaults[0] == faults[0];
        ReplayPerFile(cfg, step.0, step'.0, jobs[1..], faults[1..], p);
      } else {
        assert own == JobsFor(cfg, jobs[1..], p);
        assert ownFaults == FaultsFor(cfg, jobs[1..], faults[1..], p);
        ReplayPerFile(cfg, step.0, files', jobs[1..], faults[1..], p);
      }
    }
  }

  /** The data directory as the filesystem holds it: file path to content. */
  class FileStore {
    var contents: map<string, string>

    constructor (contents: map<string, string>)
      ensures this.contents == contents
    {
      this.contents := contents;
    }

    /** `fileExists(path)`. */
    method Exists(path: string) returns (b: bool)
      ensures b <==> path in contents
    {
      b := path in contents;
    }

    /** `fs.appendFile(path, data)`; `fault` is the filesystem's error, if it reports one. */
    method AppendFile(path: string, data: string, fault: Option<IoError>) returns (err: Option<IoError>)
      modifies this
      ensures err == fault
      ensures contents == if fault.Some? then old(contents) else AppendTo(old(contents), path, data)
    {
      err := fault;
      if fault.None? {
        contents := AppendTo(contents, path, data);
      }
    }
  }

  /** `WRITE_QUEUE` with the engine's settings: pending jobs run head first, one at a time. */
  class WriteQueue {
    const cfg: Config
    const store: FileStore
    var pending: seq<Job>
    /** How each caller's promise ended, in the order the jobs ran. */
    var settled: seq<Settled>

    constructor (cfg: Config, store: FileStore)
      ensures this.cfg == cfg && this.store == store
      ensures pending == [] && settled == []
    {
      this.cfg := cfg;
      this.store := store;
      pending := [];
      settled := [];
    }

    /**
     * `writeToFile(table, entries)` up to the `WRITE_QUEUE.add` call: encode,
     * filter, join, and put the job at the back of the queue. The ticket is
     * the position at which the caller's promise will be settled.
     */
    method WriteToFile(table: Table, entries: seq<Record>) returns (ticket: nat)
      modifies this`pending
      ensures pending == old(pending) + [Job(table, Payload(cfg, table, entries))]
      ensures ticket == |settled| + |old(pending)|
    {
      var lines: seq<string> := [];
      for i := 0 to |entries|
        invariant pending == old(pending)
        invariant |lines| == i
        invariant forall j :: 0 <= j < i ==> lines[j] == CsvLine(table.columns, entries[j], cfg.separator)
      {
        var line := GetCsvLine(table.columns, entries[i], cfg.separator);
        lines := lines + [line];
      }
      assert lines == EncodeAll(table.columns, entries, cfg.separator);
      if cfg.ignoreEmpty {
        lines := KeepNonEmpty(lines);
      }
      var text := Join(lines, cfg.newLine);
      assert text == Payload(cfg, table, entries);
      ticket := |settled| + |pending|;
      pending := pending + [Job(table, text)];
    }

    /** `assureCsvFileExists(table)`: writes the header line into an absent file. */
    method AssureCsvFileExists(table: Table, fault: Option<IoError>) returns (err: Option<IoError>)
      modifies store
      ensures var expected := EnsureHeader(old(store.contents), CsvPath(cfg.dataDir, table.name),
                                           table.columns, fault);
              if err.Some? then expected == Failure(err.value) && store.contents == old(store.contents)
              else expected == Success(store.contents)
    {
      var path := CsvPath(cfg.dataDir, table.name);
      var present := store.Exists(path);
      err := None;
      if !present {
        err := store.AppendFile(path, HeaderLine(table.columns), fault);
      }
    }

    /** The job at the head of the queue runs and its caller's promise settles. */
    method RunNext(faults: Faults)
      requires pending != []
      modifies this`pending, this`settled, store
      ensures pending == old(pending)[1..]
      ensures var step := ApplyJob(cfg, old(store.contents), old(pending)[0], faults);
              store.contents == step.0 && settled == old(settled) + [step.1]
    {
      var job := pending[0];
      pending := pending[1..];
      var err := AssureCsvFileExists(job.table, faults.header);
      if err.Some? {
        settled := settled + [Rejected(err.value)];
        return;
      }
      var path := CsvPath(cfg.dataDir, job.table.name);
      err := store.AppendFile(path, cfg.newLine + job.payload, faults.append);
      if err.Some? {
        settled := settled + [Rejected(err.value)];
      } else {
        settled := settled + [Resolved(job.payload)];
      }
    }

    /** The queue works through every pending job, head first, until it is empty. */
    method RunAll(faults: seq<Faults>)
      requires |faults| == |pending|
      modifies this`pending, this`settled, store
      ensures pending == []
      ensures var run := Replay(cfg, old(store.contents), old(pending), faults);
              store.contents == run.files && settled == old(settled) + run.settled
    {
      ghost var run := Replay(cfg, store.contents, pending, faults);
      ghost var jobs := pending;
      ghost var before := settled;
      var k := 0;
      while pending != []
        invariant 0 <= k <= |jobs| && pending == jobs[k..]
        invariant var rest := Replay(cfg, store.contents, pending, faults[k..]);
                  run.files == rest.files && before + run.settled == settled + rest.settled
        decreases |pending|
      {
        assert faults[k..][1..] == faults[k + 1..];
        assert jobs[k..][1..] == jobs[k + 1..];
        RunNext(faults[k]);
        k := k + 1;
      }
    }
  }
}
