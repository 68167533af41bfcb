/** The shared state of one run: the FIFO of jobs, the `done` flag, the status
    table and the error log, with the steps the enumerating thread and the
    workers take on them. Threads and locks are left out: every step below is
    one critical section, and any interleaving of workers is a sequence of
    these calls. */
module Scheduler {
  import opened Jobs

  /** What a worker gets when it goes to the queue: the front job, the
      instruction to wait (queue empty, more may come), or to quit (queue
      empty and `done` set). */
  datatype Take = Got(job: Job) | Wait | Quit

  /** The final state a job is given by a worker whose transform succeeds
      for exactly the names in `succeeds`. */
  function Outcome(name: string, succeeds: set<string>): Status {
    if name in succeeds then Done else Error
  }

  /** The status table entries seeding adds for a sequence of names. */
  function PendingFor(names: seq<string>): map<string, Status> {
    map n | n in names :: Pending
  }

  /** The error-log lines that processing `jobs` in order appends: the source
      path of every job whose transform fails. */
  function FailedSources(jobs: seq<Job>, succeeds: set<string>): seq<Path> {
    if jobs == [] then []
    else
      var last := jobs[|jobs| - 1];
      FailedSources(jobs[..|jobs| - 1], succeeds) + (if Key(last) in succeeds then [] else [last.source])
  }

  /** The next listed name is not yet in the table being seeded. */
  lemma SeedingFacts(inputDir: string, outputDir: string, names: seq<string>, i: nat, m0: map<string, Status>)
    requires i < |names| && Distinct(names)
    requires forall n :: n in names ==> n !in m0
    ensures names[i] !in m0 + PendingFor(Eligible(names[..i]))
  {
  }

  /** How the queue, the names and the table being seeded grow by one listed
      entry: if the loop's account held before the entry, it holds after. */
  lemma SeedingStep(inputDir: string, outputDir: string, names: seq<string>, i: nat,
                    q0: seq<Job>, s0: seq<string>, m0: map<string, Status>,
                    before: (seq<Job>, seq<string>, map<string, Status>),
                    after: (seq<Job>, seq<string>, map<string, Status>))
    requires i < |names|
    requires before.0 == q0 + JobsFor(inputDir, outputDir, Eligible(names[..i]))
    requires before.1 == s0 + Eligible(names[..i])
    requires before.2 == m0 + PendingFor(Eligible(names[..i]))
    requires after.0 == before.0 + (if IsMp3(names[i]) then [JobFor(inputDir, outputDir, names[i])] else [])
    requires after.1 == before.1 + (if IsMp3(names[i]) then [names[i]] else [])
    requires after.2 == if IsMp3(names[i]) then before.2[names[i] := Pending] else before.2
    ensures after.0 == q0 + JobsFor(inputDir, outputDir, Eligible(names[..i + 1]))
    ensures after.1 == s0 + Eligible(names[..i + 1])
    ensures after.2 == m0 + PendingFor(Eligible(names[..i + 1]))
  {
    var e, n := Eligible(names[..i]), names[i];
    EligibleSnoc(names, i);
    if IsMp3(n) {
      JobsForAppend(inputDir, outputDir, e, [n]);
      PendingForSnoc(m0, e, n);
    } else {
      assert Eligible(names[..i + 1]) == e;
    }
  }

  /** Writing a key twice leaves the second value. */
  lemma UpdateTwice(m: map<string, Status>, k: string, a: Status, b: Status)
    ensures m[k := a][k := b] == m[k := b]
  {
  }

  /** Seeding one more name adds one Pending entry. */
  lemma PendingForSnoc(m0: map<string, Status>, e: seq<string>, n: string)
    ensures m0 + PendingFor(e + [n]) == (m0 + PendingFor(e))[n := Pending]
  {
  }

  /** What holds between steps of a run, over the shared structures and the
      ghost history: the popped jobs followed by the queue are the pushed
      jobs; one job per name; the table's keys are the pushed names; a queued
      job is still Pending; Skipped is never set; the error log holds, once
      each and in the order they failed, the source paths of exactly the jobs
      in Error. */
  ghost predicate Inv(inputDir: string, outputDir: string, seeded: seq<string>, dequeued: seq<Job>,
                      queue: seq<Job>, status: map<string, Status>, errorLog: seq<Path>, failed: seq<string>)
  {
    && Distinct(seeded)
    && dequeued + queue == JobsFor(inputDir, outputDir, seeded)
    && (forall k :: k in status <==> k in seeded)
    && (forall j :: j in queue ==> Key(j) in status && status[Key(j)] == Pending)
    && (forall k :: k in status ==> status[k] != Skipped)
    && |errorLog| == |failed|
    && (forall i :: 0 <= i < |failed| ==> errorLog[i] == Path(inputDir, failed[i]))
    && Distinct(failed)
    && (forall k :: k in failed ==> k in status && status[k] == Error)
    && (forall k :: k in status && status[k] == Error ==> k in failed)
  }

  /** Every popped job has ended. */
  ghost predicate AllEnded(dequeued: seq<Job>, status: map<string, Status>) {
    forall j :: j in dequeued ==> Key(j) in status && Terminal(status[Key(j)])
  }

  /** A popped job and a queued job never share a key, a popped job is the
      one built for its key, and no job is popped twice. */
  lemma InvFacts(inputDir: string, outputDir: string, seeded: seq<string>, dequeued: seq<Job>,
                 queue: seq<Job>, status: map<string, Status>, errorLog: seq<Path>, failed: seq<string>)
    requires Inv(inputDir, outputDir, seeded, dequeued, queue, status, errorLog, failed)
    ensures forall d, q :: d in dequeued && q in queue ==> Key(d) != Key(q)
    ensures forall d :: d in dequeued ==> d == JobFor(inputDir, outputDir, Key(d)) && Key(d) in status
    ensures forall i, k :: 0 <= i < k < |dequeued| ==> dequeued[i] != dequeued[k]
  {
    var all := JobsFor(inputDir, outputDir, seeded);
    forall d, q | d in dequeued && q in queue
      ensures Key(d) != Key(q)
    {
      var a :| 0 <= a < |dequeued| && dequeued[a] == d;
      var b :| 0 <= b < |queue| && queue[b] == q;
      assert all[a] == d && all[|dequeued| + b] == q;
    }
    forall d | d in dequeued
      ensures d == JobFor(inputDir, outputDir, Key(d)) && Key(d) in status
    {
      var a :| 0 <= a < |dequeued| && dequeued[a] == d;
      assert all[a] == d;
    }
    forall i, k | 0 <= i < k < |dequeued|
      ensures dequeued[i] != dequeued[k]
    {
      assert all[i] == dequeued[i] && all[k] == dequeued[k];
    }
  }

  /** Pushing the job of a new mp3 name and seeding it Pending keeps the
      invariant. */
  lemma InvPush(inputDir: string, outputDir: string, seeded: seq<string>, dequeued: seq<Job>,
                queue: seq<Job>, status: map<string, Status>, errorLog: seq<Path>, failed: seq<string>, name: string)
    requires Inv(inputDir, outputDir, seeded, dequeued, queue, status, errorLog, failed)
    requires name !in status
    ensures Inv(inputDir, outputDir, seeded + [name], dequeued, queue + [JobFor(inputDir, outputDir, name)],
                status[name := Pending], errorLog, failed)
  {
    JobsForAppend(inputDir, outputDir, seeded, [name]);
  }

  /** Removing the front job and recording it as popped keeps the invariant. */
  lemma InvPop(inputDir: string, outputDir: string, seeded: seq<string>, dequeued: seq<Job>,
               queue: seq<Job>, status: map<string, Status>, errorLog: seq<Path>, failed: seq<string>)
    requires Inv(inputDir, outputDir, seeded, dequeued, queue, status, errorLog, failed)
    requires queue != []
    ensures Inv(inputDir, outputDir, seeded, dequeued + [queue[0]], queue[1..], status, errorLog, failed)
  {
  }

  /** Moving a popped Pending job to Working keeps the invariant. */
  lemma InvStart(inputDir: string, outputDir: string, seeded: seq<string>, dequeued: seq<Job>,
                 queue: seq<Job>, status: map<string, Status>, errorLog: seq<Path>, failed: seq<string>, job: Job)
    requires Inv(inputDir, outputDir, seeded, dequeued, queue, status, errorLog, failed)
    requires job in dequeued && Key(job) in status && status[Key(job)] == Pending
    ensures Inv(inputDir, outputDir, seeded, dequeued, queue, status[Key(job) := Working], errorLog, failed)
  {
    InvFacts(inputDir, outputDir, seeded, dequeued, queue, status, errorLog, failed);
  }

  /** Ending a popped Working job as Done, or as Error with its source logged,
      keeps the invariant. */
  lemma InvFinish(inputDir: string, outputDir: string, seeded: seq<string>, dequeued: seq<Job>,
                  queue: seq<Job>, status: map<string, Status>, errorLog: seq<Path>, failed: seq<string>,
                  job: Job, success: bool)
    requires Inv(inputDir, outputDir, seeded, dequeued, queue, status, errorLog, failed)
    requires job in dequeued && Key(job) in status && status[Key(job)] == Working
    ensures Inv(inputDir, outputDir, seeded, dequeued, queue,
                status[Key(job) := if success then Done else Error],
                if success then errorLog else errorLog + [job.source],
                if success then failed else failed + [Key(job)])
  {
    InvFacts(inputDir, outputDir, seeded, dequeued, queue, status, errorLog, failed);
    assert job.source == Path(inputDir, Key(job));
  }

  /** A job popped under a key no earlier popped job has, and ended, leaves
      every popped job ended. */
  lemma AllEndedStep(dequeued: seq<Job>, status: map<string, Status>, job: Job, outcome: Status)
    requires AllEnded(dequeued, status) && Terminal(outcome)
    requires forall d :: d in dequeued ==> Key(d) != Key(job)
    ensures AllEnded(dequeued + [job], status[Key(job) := outcome])
  {
  }

  /** What one worker has done after taking the first c jobs of q0 from a
      state whose popped jobs were d0, table s0 and log l0: the table has the
      same keys, earlier jobs are untouched, each taken job has its outcome,
      and the log grew by the taken jobs' failures in order. */
  ghost predicate DrainedUpTo(q0: seq<Job>, c: nat, d0: seq<Job>, s0: map<string, Status>, l0: seq<Path>,
                              status: map<string, Status>, errorLog: seq<Path>, succeeds: set<string>)
    requires c <= |q0|
  {
    && status.Keys == s0.Keys
    && (forall j :: j in d0 ==> Key(j) in s0 ==> status[Key(j)] == s0[Key(j)])
    && (forall i :: 0 <= i < c ==> Key(q0[i]) in status && status[Key(q0[i])] == Outcome(Key(q0[i]), succeeds))
    && errorLog == l0 + FailedSources(q0[..c], succeeds)
  }

  /** One more pass of the worker loop, seen from the queue q0 the worker
      started on: if the pass took the front job and ended it by its outcome,
      the account of the first c jobs becomes the account of c + 1. */
  lemma DrainStep(q0: seq<Job>, c: nat, d0: seq<Job>, s0: map<string, Status>, l0: seq<Path>, succeeds: set<string>,
                  before: (seq<Job>, seq<Job>, map<string, Status>, seq<Path>),
                  after: (seq<Job>, seq<Job>, map<string, Status>, seq<Path>))
    requires c <= |q0| && before.0 == q0[c..] && before.1 == d0 + q0[..c]
    requires DrainedUpTo(q0, c, d0, s0, l0, before.2, before.3, succeeds)
    requires before.0 != [] && Key(before.0[0]) in before.2
    requires forall d :: d in before.1 ==> Key(d) != Key(before.0[0])
    requires after.0 == before.0[1..] && after.1 == before.1 + [before.0[0]]
    requires after.2 == before.2[Key(before.0[0]) := Outcome(Key(before.0[0]), succeeds)]
    requires after.3 == before.3 + (if Key(before.0[0]) in succeeds then [] else [before.0[0].source])
    ensures c + 1 <= |q0| && after.0 == q0[c + 1..] && after.1 == d0 + q0[..c + 1]
    ensures DrainedUpTo(q0, c + 1, d0, s0, l0, after.2, after.3, succeeds)
  {
    var job := q0[c];
    assert before.0[0] == job;
    assert q0[..c + 1] == q0[..c] + [job];
    assert (d0 + q0[..c]) + [job] == d0 + q0[..c + 1];
    assert q0[..c + 1][..c] == q0[..c];
    forall j | j in d0
      ensures Key(j) != Key(job)
    {
      assert j in d0 + q0[..c];
    }
    forall i | 0 <= i < c
      ensures Key(q0[i]) != Key(job)
    {
      assert q0[i] in d0 + q0[..c];
    }
  }

  /** Once the queue is empty and every popped job has ended, every pushed
      job has been popped, in push order, and every entry of the table is
      final. */
  lemma AllPoppedEnded(inputDir: string, outputDir: string, seeded: seq<string>, dequeued: seq<Job>,
                       status: map<string, Status>, errorLog: seq<Path>, failed: seq<string>)
    requires Inv(inputDir, outputDir, seeded, dequeued, [], status, errorLog, failed)
    requires AllEnded(dequeued, status)
    ensures dequeued == JobsFor(inputDir, outputDir, seeded)
    ensures forall k :: k in status ==> Terminal(status[k])
  {
    assert dequeued + [] == dequeued;
    forall k | k in status
      ensures Terminal(status[k])
    {
      var a :| 0 <= a < |seeded| && seeded[a] == k;
      assert dequeued[a] in dequeued && Key(dequeued[a]) == k;
    }
  }

  /** The globals `jobQueue`, `done`, `jobStatusMap` and the lines of the
      error log of one run, with `inputDir` and `outputDir` fixed. */
  class Run {
    const inputDir: string
    const outputDir: string
    var queue: seq<Job>
    var done: bool
    var status: map<string, Status>
    var errorLog: seq<Path>
    /** The names of every job ever pushed, and every job ever popped, in
        order. */
    ghost var seeded: seq<string>
    ghost var dequeued: seq<Job>
    /** The names of the failed jobs, in the order they were logged. */
    ghost var failed: seq<string>

    ghost predicate Valid()
      reads this
    {
      Inv(inputDir, outputDir, seeded, dequeued, queue, status, errorLog, failed)
    }

    /** No worker is in the middle of a job. */
    ghost predicate Quiescent()
      reads this
    {
      AllEnded(dequeued, status)
    }

    /** The state before enumeration: nothing queued, `done` clear, an empty
        table and a freshly truncated error log. */
    constructor (inputDir: string, outputDir: string)
      ensures Valid() && Quiescent()
      ensures this.inputDir == inputDir && this.outputDir == outputDir
      ensures queue == [] && !done && status == map[] && errorLog == []
      ensures seeded == [] && dequeued == []
    {
      this.inputDir := inputDir;
      this.outputDir := outputDir;
      queue := [];
      done := false;
      status := map[];
      errorLog := [];
      seeded := [];
      dequeued := [];
      failed := [];
    }

    /** One pass of the enumeration loop's body: an entry whose extension is
        ".mp3" is pushed as `(inputDir / name, outputDir / name)` and its name
        set to Pending; any other entry is skipped. */
    method SeedOne(name: string)
      requires Valid() && !done && name !in status
      modifies this`queue, this`status, this`seeded
      ensures Valid()
      ensures queue == old(queue) + (if IsMp3(name) then [JobFor(inputDir, outputDir, name)] else [])
      ensures seeded == old(seeded) + (if IsMp3(name) then [name] else [])
      ensures status == if IsMp3(name) then old(status)[name := Pending] else old(status)
    {
      if IsMp3(name) {
        InvPush(inputDir, outputDir, seeded, dequeued, queue, status, errorLog, failed, name);
        queue := queue + [JobFor(inputDir, outputDir, name)];
        seeded := seeded + [name];
        status := status[name := Pending];
      }
    }

    /** The enumeration loop over one directory's listing, which names no
        entry twice; it runs once, on a table that has none of the names. */
    method Seed(names: seq<string>)
      requires Valid() && !done && Distinct(names)
      requires forall n :: n in names ==> n !in status
      modifies this`queue, this`status, this`seeded
      ensures Valid()
      ensures queue == old(queue) + JobsFor(inputDir, outputDir, Eligible(names))
      ensures seeded == old(seeded) + Eligible(names)
      ensures status == old(status) + PendingFor(Eligible(names))
    {
      for i := 0 to |names|
        invariant Valid()
        invariant queue == old(queue) + JobsFor(inputDir, outputDir, Eligible(names[..i]))
        invariant seeded == old(seeded) + Eligible(names[..i])
        invariant status == old(status) + PendingFor(Eligible(names[..i]))
      {
        ghost var before := (queue, seeded, status);
        SeedingFacts(inputDir, outputDir, names, i, old(status));
        SeedOne(names[i]);
        SeedingStep(inputDir, outputDir, names, i, old(queue), old(seeded), old(status), before, (queue, seeded, status));
      }
      assert names[..|names|] == names;
    }

    /** `done = true` after enumeration: no job is pushed from now on. */
    method MarkDone()
      requires Valid()
      modifies this`done
      ensures Valid() && done
    {
      done := true;
    }

    /** A worker's turn at the queue: the front job if there is one (even
        after `done`), otherwise quit once `done` is set and wait before. */
    method Pop() returns (t: Take)
      requires Valid()
      modifies this`queue, this`dequeued
      ensures Valid()
      ensures old(queue) != [] ==>
        t == Got(old(queue)[0]) && queue == old(queue)[1..] && dequeued == old(dequeued) + [old(queue)[0]]
      ensures old(queue) == [] ==>
        queue == [] && dequeued == old(dequeued) && t == (if done then Quit else Wait)
    {
      if queue == [] {
        t := if done then Quit else Wait;
      } else {
        t := Got(queue[0]);
        InvPop(inputDir, outputDir, seeded, dequeued, queue, status, errorLog, failed);
        dequeued := dequeued + [queue[0]];
        queue := queue[1..];
      }
    }

    /** `jobStatusMap[key] = Working` for the job a worker has just popped;
        no other entry changes. */
    method StartJob(job: Job)
      requires Valid() && job in dequeued
      requires Key(job) in status && status[Key(job)] == Pending
      modifies this`status
      ensures Valid()
      ensures status == old(status)[Key(job) := Working]
      ensures LegalStep(old(status)[Key(job)], status[Key(job)])
    {
      InvStart(inputDir, outputDir, seeded, dequeued, queue, status, errorLog, failed, job);
      status := status[Key(job) := Working];
    }

    /** `jobStatusMap[key] = success ? Done : Error`, then, on failure only,
        the source path appended to the error log; nothing else changes. */
    method FinishJob(job: Job, success: bool)
      requires Valid() && job in dequeued
      requires Key(job) in status && status[Key(job)] == Working
      modifies this`status, this`errorLog, this`failed
      ensures Valid()
      ensures status == old(status)[Key(job) := if success then Done else Error]
      ensures errorLog == if success then old(errorLog) else old(errorLog) + [job.source]
      ensures LegalStep(old(status)[Key(job)], status[Key(job)])
    {
      InvFinish(inputDir, outputDir, seeded, dequeued, queue, status, errorLog, failed, job, success);
      status := status[Key(job) := if success then Done else Error];
      if !success {
        errorLog := errorLog + [job.source];
        failed := failed + [Key(job)];
      }
    }

    /** One pass of `workerThread`'s loop once `done` is set and no other
        worker is mid-job: pop the front job, mark it Working, run the
        transform (which succeeds exactly for the names in `succeeds`), mark
        it Done or Error and log it on failure; or quit on an empty queue. */
    method WorkOne(succeeds: set<string>) returns (quit: bool)
      requires Valid() && done && Quiescent()
      modifies this`queue, this`dequeued, this`status, this`errorLog, this`failed
      ensures Valid() && Quiescent()
      ensures quit <==> old(queue) == []
      ensures quit ==> queue == old(queue) && dequeued == old(dequeued) && status == old(status) && errorLog == old(errorLog)
      ensures !quit ==>
        var job := old(queue)[0];
        && queue == old(queue)[1..]
        && dequeued == old(dequeued) + [job]
        && (forall d :: d in old(dequeued) ==> Key(d) != Key(job))
        && Key(job) in old(status)
        && status == old(status)[Key(job) := Outcome(Key(job), succeeds)]
        && errorLog == old(errorLog) + (if Key(job) in succeeds then [] else [job.source])
    {
      InvFacts(inputDir, outputDir, seeded, dequeued, queue, status, errorLog, failed);
      ghost var d0, s0 := dequeued, status;
      var t := Pop();
      match t
      case Quit =>
        quit := true;
      case Wait =>
        assert false;
      case Got(job) =>
        var k := Key(job);
        StartJob(job);
        FinishJob(job, k in succeeds);
        UpdateTwice(s0, k, Working, Outcome(k, succeeds));
        AllEndedStep(d0, s0, job, Outcome(k, succeeds));
        quit := false;
    }

    /** One worker running `workerThread` to the end after `done` is set: it
        takes every remaining job in queue order, starts it and ends it as
        Done exactly when its name is in `succeeds`, then quits. */
    method Drain(succeeds: set<string>)
      requires Valid() && done && Quiescent()
      modifies this`queue, this`dequeued, this`status, this`errorLog, this`failed
      ensures Valid() && Quiescent() && queue == []
      ensures dequeued == JobsFor(inputDir, outputDir, seeded)
      ensures DrainedUpTo(old(queue), |old(queue)|, old(dequeued), old(status), old(errorLog), status, errorLog, succeeds)
      ensures forall k :: k in status ==> Terminal(status[k])
    {
      ghost var q0, d0 := queue, dequeued;
      ghost var c := 0;
      assert q0[..0] == [] && d0 + q0[..0] == d0;
      while true
        invariant Valid() && done && Quiescent()
        invariant 0 <= c <= |q0| && queue == q0[c..] && dequeued == d0 + q0[..c]
        invariant DrainedUpTo(q0, c, d0, old(status), old(errorLog), status, errorLog, succeeds)
        decreases |queue|
      {
        ghost var before := (queue, dequeued, status, errorLog);
        var quit := WorkOne(succeeds);
        if quit {
          break;
        }
        DrainStep(q0, c, d0, old(status), old(errorLog), succeeds, before, (queue, dequeued, status, errorLog));
        c := c + 1;
      }
      assert q0[..c] == q0;
      AllPoppedEnded(inputDir, outputDir, seeded, dequeued, status, errorLog, failed);
    }
  }

  /** The table a whole run ends with, when every job in `jobs` (built for the
      names `names`) has its outcome. */
  lemma FinalTable(inputDir: string, outputDir: string, names: seq<string>, status: map<string, Status>, succeeds: set<string>)
    requires status.Keys == PendingFor(names).Keys
    requires forall i :: 0 <= i < |names| ==>
      Key(JobsFor(inputDir, outputDir, names)[i]) in status &&
      status[Key(JobsFor(inputDir, outputDir, names)[i])] == Outcome(Key(JobsFor(inputDir, outputDir, names)[i]), succeeds)
    ensures status == map n | n in names :: Outcome(n, succeeds)
  {
    var r := map n | n in names :: Outcome(n, succeeds);
    forall n | n in names
      ensures status[n] == r[n]
    {
      var i :| 0 <= i < |names| && names[i] == n;
      assert Key(JobsFor(inputDir, outputDir, names)[i]) == n;
    }
    assert status.Keys == r.Keys;
  }

  /** A whole run with one worker: seed from the listing, set `done`, drain.
      Every mp3 entry ends as Done or Error by its transform's result, and
      the error log lists the failed sources in listing order. */
  method Batch(inputDir: string, outputDir: string, listing: seq<string>, succeeds: set<string>)
    returns (run: Run)
    requires Distinct(listing)
    ensures fresh(run) && run.Valid() && run.done && run.queue == []
    ensures run.status == map n | n in Eligible(listing) :: Outcome(n, succeeds)
    ensures run.errorLog == FailedSources(JobsFor(inputDir, outputDir, Eligible(listing)), succeeds)
    ensures forall k :: k in run.status ==> Terminal(run.status[k])
  {
    ghost var names := Eligible(listing);
    ghost var jobs := JobsFor(inputDir, outputDir, names);
    run := new Run(inputDir, outputDir);
    run.Seed(listing);
    assert [] + jobs == jobs;
    assert run.queue == jobs;
    assert run.status.Keys == PendingFor(names).Keys;
    run.MarkDone();
    run.Drain(succeeds);
    assert jobs[..|jobs|] == jobs;
    assert run.errorLog == [] + FailedSources(jobs, succeeds);
    FinalTable(inputDir, outputDir, names, run.status, succeeds);
  }
}
