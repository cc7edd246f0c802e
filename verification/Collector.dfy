/** The session collector's upload state: which transcripts are tried again, and when. */
module Collector {
  import opened Text

  const MAX_FAILURES := 3

  datatype Status = Uploaded | Skipped | Failed

  /** What is remembered about a transcript. */
  datatype Entry = Entry(size: nat, failures: nat, status: Status)

  type State = map<string, Entry>

  /** What becomes of a transcript that is tried: outside the allowlist or empty; uploaded; refused
      by the server; an error on the way, before or after the upload counted as attempted; gone by
      then; or the run ends, for want of a token or of a connection. */
  datatype Fate = Skip | Accept | Refuse | Break(counted: bool) | Vanish(counted: bool) | Halt

  /** One try: what becomes of the transcript, and how much it has grown since it was looked at. */
  datatype Attempt = Attempt(fate: Fate, growth: nat)

  /** One run's surroundings: the transcripts found in order, the size of each, whether it has been
      quiet long enough, what its tries lead to in turn, and the cap on uploads. */
  datatype Env = Env(found: seq<string>, sizes: map<string, nat>, quiet: set<string>, tries: nat -> Attempt, cap: nat)

  /** One line of the history. */
  datatype Record = Record(path: string, size: nat, status: Status)

  // ---------------------------------------------------------------- eligibility

  predicate Grew(entry: Entry, size: nat) {
    size > entry.size
  }

  /** Growth forgives earlier failures. */
  function Touched(entry: Entry, size: nat): Entry {
    if Grew(entry, size) then entry.(failures := 0) else entry
  }

  predicate Eligible(entry: Option<Entry>, size: nat) {
    entry.None? || Grew(entry.value, size) || (entry.value.status == Failed && entry.value.failures < MAX_FAILURES)
  }

  function Get(state: State, path: string): Option<Entry> {
    if path in state then Some(state[path]) else None
  }

  /** A transcript that exists and is quiet. */
  predicate Settled(env: Env, path: string) {
    path in env.sizes && path in env.quiet
  }

  function TouchAt(state: State, env: Env, path: string): State {
    if Settled(env, path) && path in state then state[path := Touched(state[path], env.sizes[path])] else state
  }

  /** The state after the first `n` transcripts have been looked at. */
  function TouchedTo(state: State, env: Env, n: nat): State
    requires n <= |env.found|
  {
    if n == 0 then state else TouchAt(TouchedTo(state, env, n - 1), env, env.found[n - 1])
  }

  predicate Picked(state: State, env: Env, path: string) {
    Settled(env, path) && Eligible(Get(state, path), env.sizes[path])
  }

  /** The transcripts to try, in order. */
  function CandidatesTo(state: State, env: Env, n: nat): (r: seq<string>)
    requires n <= |env.found|
    ensures forall p :: p in r ==> p in env.sizes && p in env.found[..n]
  {
    if n == 0 then []
    else
      var rest, p := CandidatesTo(state, env, n - 1), env.found[n - 1];
      assert env.found[..n] == env.found[..n - 1] + [p];
      if Picked(TouchedTo(state, env, n - 1), env, p) then rest + [p] else rest
  }

  function NextFailures(entry: Option<Entry>, size: nat): nat {
    if entry.None? || Grew(entry.value, size) then 1 else entry.value.failures + 1
  }

  // ------------------------------------------------------------------------- runs

  /** A run in progress: the state in memory and on disk, uploads attempted, what was recorded. */
  datatype Progress = Progress(memory: State, disk: State, attempted: nat, log: seq<Record>, halted: bool)

  function Write(g: Progress, path: string, entry: Entry, counted: nat): Progress {
    var memory := g.memory[path := entry];
    Progress(memory, memory, g.attempted + counted, g.log + [Record(path, entry.size, entry.status)], g.halted)
  }

  /** The `i`-th try of a run. */
  function Try(g: Progress, env: Env, path: string, i: nat): Progress
    requires path in env.sizes
  {
    var size := env.sizes[path] + env.tries(i).growth;
    var failed := Entry(size, NextFailures(Get(g.memory, path), size), Failed);
    match env.tries(i).fate
    case Skip => Write(g, path, Entry(size, 0, Skipped), 0)
    case Accept => Write(g, path, Entry(size, 0, Uploaded), 1)
    case Refuse => Write(g, path, failed, 1)
    case Break(counted) => Write(g, path, failed, if counted then 1 else 0)
    case Vanish(counted) => g.(attempted := g.attempted + if counted then 1 else 0)
    case Halt => g.(attempted := g.attempted + 1, halted := true)
  }

  /** The run after its first `n` candidates. */
  function TriedTo(start: Progress, env: Env, paths: seq<string>, n: nat): Progress
    requires n <= |paths| && forall p :: p in paths ==> p in env.sizes
  {
    if n == 0 then start
    else
      var g := TriedTo(start, env, paths, n - 1);
      if g.halted || g.attempted >= env.cap then g else Try(g, env, paths[n - 1], n - 1)
  }

  function Opening(disk: State, env: Env): Progress {
    Progress(TouchedTo(disk, env, |env.found|), disk, 0, [], false)
  }

  function Candidates(disk: State, env: Env): seq<string> {
    CandidatesTo(disk, env, |env.found|)
  }

  /** A whole run: the state left on disk and what was recorded. */
  function Run(disk: State, env: Env): Progress {
    var paths := Candidates(disk, env);
    TriedTo(Opening(disk, env), env, paths, |paths|)
  }

  /** The state file. */
  class StateFile {
    var disk: State

    constructor ()
      ensures disk == map[]
    {
      disk := map[];
    }

    /** Forgets one transcript; false when it was not known. */
    method Forget(path: string) returns (existed: bool)
      modifies this
      ensures existed <==> path in old(disk)
      ensures disk == old(disk) - {path}
    {
      existed := path in disk;
      if existed {
        disk := disk - {path};
      }
    }

    /** Whether to try a transcript; growth resets the failure count in the loaded state. */
    static method CheckEligible(memory: State, env: Env, path: string) returns (ok: bool, after: State)
      ensures ok <==> Picked(memory, env, path)
      ensures after == TouchAt(memory, env, path)
    {
      after := memory;
      if path !in env.sizes || path !in env.quiet {
        return false, after;
      }
      if path !in memory {
        return true, after;
      }
      var entry := memory[path];
      var grew := env.sizes[path] > entry.size;
      if grew {
        entry := entry.(failures := 0);
        after := memory[path := entry];
      }
      if entry.failures >= MAX_FAILURES && !grew {
        return false, after;
      }
      ok := if entry.status != Failed then grew else true;
    }

    /** Looks at every transcript found: which to try, and the state with growth noted. */
    method Scan(env: Env) returns (memory: State, paths: seq<string>)
      ensures memory == TouchedTo(disk, env, |env.found|) && paths == Candidates(disk, env)
    {
      memory, paths := disk, [];
      for i := 0 to |env.found|
        invariant memory == TouchedTo(disk, env, i) && paths == CandidatesTo(disk, env, i)
      {
        var ok, after := CheckEligible(memory, env, env.found[i]);
        memory := after;
        if ok {
          paths := paths + [env.found[i]];
        }
      }
    }

    /** Tries one transcript and saves what became of it. */
    method TryOne(env: Env, path: string, i: nat, memory: State, attempted: nat, log: seq<Record>) returns (g: Progress)
      requires path in env.sizes
      modifies this
      ensures g == Try(Progress(memory, old(disk), attempted, log, false), env, path, i) && disk == g.disk
    {
      var size, fate := env.sizes[path] + env.tries(i).growth, env.tries(i).fate;
      var counted := fate.Accept? || fate.Refuse? || fate.Halt? || ((fate.Break? || fate.Vanish?) && fate.counted);
      var after, recorded := memory, log;
      if !fate.Halt? && !fate.Vanish? {
        var entry := if fate.Skip? then Entry(size, 0, Skipped) else if fate.Accept? then Entry(size, 0, Uploaded)
                     else Entry(size, NextFailures(Get(memory, path), size), Failed);
        after := memory[path := entry];
        disk := after;
        recorded := log + [Record(path, size, entry.status)];
      }
      g := Progress(after, disk, attempted + (if counted then 1 else 0), recorded, fate.Halt?);
    }

    /** One collection run. */
    method Collect(env: Env) returns (log: seq<Record>)
      modifies this
      ensures disk == Run(old(disk), env).disk && log == Run(old(disk), env).log
    {
      var memory, paths := Scan(env);
      assert env.found[..|env.found|] == env.found;
      var g := Progress(memory, disk, 0, [], false);
      for i := 0 to |paths|
        invariant g == TriedTo(Opening(old(disk), env), env, paths, i) && disk == g.disk
      {
        if !g.halted && g.attempted < env.cap {
          g := TryOne(env, paths[i], i, g.memory, g.attempted, g.log);
        }
      }
      log := g.log;
    }
  }

  // ------------------------------------------------------- one transcript in one run

  /** How often a path occurs among the first `n` of a list. */
  function TimesTo(paths: seq<string>, path: string, n: nat): nat
    requires n <= |paths|
  {
    if n == 0 then 0 else TimesTo(paths, path, n - 1) + if paths[n - 1] == path then 1 else 0
  }

  /** How often a run means to try a transcript: once for each way it was found. */
  function Tries(disk: State, env: Env, path: string): nat {
    TimesTo(Candidates(disk, env), path, |Candidates(disk, env)|)
  }

  /** The failures that count against a transcript of this size. */
  function Standing(entry: Option<Entry>, size: nat): nat {
    if entry.None? || Grew(entry.value, size) || entry.value.status != Failed then 0 else entry.value.failures
  }

  /** The entry after one more outcome. */
  function Entered(entry: Option<Entry>, x: Record): Entry {
    Entry(x.size, if x.status == Failed then NextFailures(entry, x.size) else 0, x.status)
  }

  /** The entry after any outcomes, in order. */
  function Logged(entry: Option<Entry>, records: seq<Record>): Option<Entry> {
    if records == [] then entry
    else Some(Entered(Logged(entry, records[..|records| - 1]), records[|records| - 1]))
  }

  predicate AtLeast(records: seq<Record>, size: nat) {
    forall i :: 0 <= i < |records| ==> records[i].size >= size
  }

  /** What a run does with one transcript: it leaves it or notes its growth, or records any outcomes
      for it, none at less than the size it was picked at, if it was eligible. */
  ghost predicate PathStep(before: Option<Entry>, after: Option<Entry>, env: Env, path: string, records: seq<Record>) {
    if records == [] then
      after == before || (before.Some? && path in env.sizes && after == Some(Touched(before.value, env.sizes[path])))
    else
      && path in env.sizes && Eligible(before, env.sizes[path])
      && AtLeast(records, env.sizes[path]) && after == Logged(before, records)
  }

  function OfPath(log: seq<Record>, path: string): (r: seq<Record>)
    ensures forall x :: x in r ==> x.path == path
  {
    if log == [] then []
    else
      var rest, last := OfPath(log[..|log| - 1], path), log[|log| - 1];
      if last.path == path then rest + [last] else rest
  }

  lemma {:induction false} TimesIsMember(paths: seq<string>, path: string, n: nat)
    requires n <= |paths|
    ensures TimesTo(paths, path, n) > 0 <==> path in paths[..n]
  {
    if n > 0 {
      TimesIsMember(paths, path, n - 1);
      assert paths[..n] == paths[..n - 1] + [paths[n - 1]];
    }
  }

  lemma {:induction false} TimesOfPrefix(paths: seq<string>, more: seq<string>, path: string, n: nat)
    requires n <= |paths|
    ensures TimesTo(paths + more, path, n) == TimesTo(paths, path, n)
  {
    if n > 0 {
      TimesOfPrefix(paths, more, path, n - 1);
    }
  }

  /** Looking at the transcripts, however often, notes growth and nothing else. */
  lemma {:induction false} TouchedAt(state: State, env: Env, n: nat, path: string)
    requires n <= |env.found|
    ensures var after := Get(TouchedTo(state, env, n), path);
            after == if path in env.found[..n] && Settled(env, path) && path in state
                     then Some(Touched(state[path], env.sizes[path])) else Get(state, path)
  {
    if n > 0 {
      TouchedAt(state, env, n - 1, path);
      assert env.found[..n] == env.found[..n - 1] + [env.found[n - 1]];
    }
  }

  /** Each way a transcript was found is a try, or none is: all of them are checked alike. */
  lemma {:induction false} TriesTo(state: State, env: Env, n: nat, path: string)
    requires n <= |env.found|
    ensures var paths := CandidatesTo(state, env, n);
            TimesTo(paths, path, |paths|) == if Picked(state, env, path) then TimesTo(env.found, path, n) else 0
  {
    if n > 0 {
      TriesTo(state, env, n - 1, path);
      TouchedAt(state, env, n - 1, env.found[n - 1]);
      var rest := CandidatesTo(state, env, n - 1);
      TimesOfPrefix(rest, [env.found[n - 1]], path, |rest|);
    }
  }

  lemma TriesExactly(disk: State, env: Env, path: string)
    ensures Tries(disk, env, path) == if Picked(disk, env, path) then TimesTo(env.found, path, |env.found|) else 0
  {
    TriesTo(disk, env, |env.found|, path);
  }

  /** The transcript in the course of a run. */
  ghost predicate At(start: Progress, g: Progress, env: Env, path: string) {
    var records := OfPath(g.log, path);
    && Get(g.memory, path) == Logged(Get(start.memory, path), records)
    && (if records == [] then Get(g.disk, path) == Get(start.memory, path) || Get(g.disk, path) == Get(start.disk, path)
        else path in env.sizes && AtLeast(records, env.sizes[path]) && Get(g.disk, path) == Get(g.memory, path))
  }

  lemma WriteLogs(g: Progress, current: string, entry: Entry, counted: nat, path: string)
    ensures OfPath(Write(g, current, entry, counted).log, path)
         == OfPath(g.log, path) + if current == path then [Record(path, entry.size, entry.status)] else []
  {
    var log := Write(g, current, entry, counted).log;
    assert log[..|log| - 1] == g.log;
  }

  lemma WriteAt(start: Progress, g: Progress, env: Env, current: string, x: Record, counted: nat, path: string)
    requires At(start, g, env, path) && x.path == current
    requires current == path ==> path in env.sizes && x.size >= env.sizes[path]
    ensures var h := Write(g, current, Entered(Get(g.memory, current), x), counted);
            At(start, h, env, path) && |OfPath(h.log, path)| == |OfPath(g.log, path)| + if current == path then 1 else 0
  {
    var entry := Entered(Get(g.memory, current), x);
    WriteLogs(g, current, entry, counted, path);
    if current == path {
      var before, after := OfPath(g.log, path), OfPath(Write(g, current, entry, counted).log, path);
      assert after[..|after| - 1] == before;
    }
  }

  /** What a try records, if anything. */
  function Outcome(env: Env, path: string, i: nat): Option<Record>
    requires path in env.sizes
  {
    var size := env.sizes[path] + env.tries(i).growth;
    match env.tries(i).fate
    case Skip => Some(Record(path, size, Skipped))
    case Accept => Some(Record(path, size, Uploaded))
    case Refuse => Some(Record(path, size, Failed))
    case Break(_) => Some(Record(path, size, Failed))
    case Vanish(_) => None
    case Halt => None
  }

  /** A try writes its outcome, and counts as an attempt if it uploads. */
  lemma TryWrites(g: Progress, env: Env, path: string, i: nat) returns (counted: nat)
    requires path in env.sizes
    ensures var out, h := Outcome(env, path, i), Try(g, env, path, i);
            && h.attempted == g.attempted + counted && counted <= 1
            && match out {
                 case Some(x) => h == Write(g, path, Entered(Get(g.memory, path), x), counted) && (x.status == Uploaded ==> counted == 1)
                 case None => h.memory == g.memory && h.disk == g.disk && h.log == g.log
               }
  {
    counted := Try(g, env, path, i).attempted - g.attempted;
  }

  /** A try records its outcome for its own transcript, if any, and leaves every other one alone. */
  lemma TryAt(start: Progress, g: Progress, env: Env, current: string, i: nat, path: string)
    requires current in env.sizes && At(start, g, env, path)
    ensures At(start, Try(g, env, current, i), env, path)
    ensures |OfPath(Try(g, env, current, i).log, path)| <= |OfPath(g.log, path)| + if current == path then 1 else 0
  {
    var counted := TryWrites(g, env, current, i);
    if Outcome(env, current, i).Some? {
      WriteAt(start, g, env, current, Outcome(env, current, i).value, counted, path);
    }
  }

  ghost predicate AtMost(start: Progress, g: Progress, env: Env, path: string, r: nat) {
    At(start, g, env, path) && |OfPath(g.log, path)| <= r && (env.cap == 0 ==> OfPath(g.log, path) == [])
  }

  lemma TryAtMost(start: Progress, g: Progress, env: Env, current: string, i: nat, path: string, r: nat)
    requires current in env.sizes && AtMost(start, g, env, path, r)
    ensures var h := if g.halted || g.attempted >= env.cap then g else Try(g, env, current, i);
            AtMost(start, h, env, path, if current == path then r + 1 else r)
  {
    TryAt(start, g, env, current, i, path);
  }

  lemma {:induction false} TriedAt(start: Progress, env: Env, paths: seq<string>, n: nat, path: string)
    requires n <= |paths| && forall p :: p in paths ==> p in env.sizes
    requires start.log == []
    ensures AtMost(start, TriedTo(start, env, paths, n), env, path, TimesTo(paths, path, n))
  {
    if n > 0 {
      TriedAt(start, env, paths, n - 1, path);
      TryAtMost(start, TriedTo(start, env, paths, n - 1), env, paths[n - 1], n - 1, path, TimesTo(paths, path, n - 1));
    }
  }

  /** A candidate was eligible when the run started, and still is in the state it works on. */
  lemma OpensEligible(disk: State, env: Env, path: string)
    requires path in Candidates(disk, env)
    ensures Picked(disk, env, path) && path in env.found
    ensures Eligible(Get(Opening(disk, env).memory, path), env.sizes[path])
    ensures Standing(Get(Opening(disk, env).memory, path), env.sizes[path]) == Standing(Get(disk, path), env.sizes[path])
  {
    var paths := Candidates(disk, env);
    assert env.found[..|env.found|] == env.found && paths[..|paths|] == paths;
    TimesIsMember(paths, path, |paths|);
    TriesExactly(disk, env, path);
    TouchedAt(disk, env, |env.found|, path);
  }

  /** What growth forgave would not have counted. */
  lemma {:induction false} TouchedLogs(entry: Entry, size: nat, records: seq<Record>)
    requires records != [] && AtLeast(records, size)
    ensures Logged(Some(Touched(entry, size)), records) == Logged(Some(entry), records)
    decreases |records|
  {
    if |records| > 1 {
      TouchedLogs(entry, size, records[..|records| - 1]);
    }
  }

  /** Every run takes such a step on every transcript, with at most as many records as tries. */
  lemma RunIsPathStep(disk: State, env: Env, path: string)
    ensures var records := OfPath(Run(disk, env).log, path);
            && PathStep(Get(disk, path), Get(Run(disk, env).disk, path), env, path, records)
            && |records| <= Tries(disk, env, path) && (env.cap == 0 ==> records == [])
  {
    var start, paths := Opening(disk, env), Candidates(disk, env);
    assert env.found[..|env.found|] == env.found && paths[..|paths|] == paths;
    TimesIsMember(paths, path, |paths|);
    TriedAt(start, env, paths, |paths|, path);
    TouchedAt(disk, env, |env.found|, path);
    var records := OfPath(Run(disk, env).log, path);
    if records != [] {
      OpensEligible(disk, env, path);
      if path in disk {
        TouchedLogs(disk[path], env.sizes[path], records);
      }
    }
  }

  /** A parked transcript, one with three failures at its size or one that is done with, is tried
      again only after it has grown. */
  lemma ParkedUntilGrowth(disk: State, env: Env, path: string)
    requires path in disk && (disk[path].status != Failed || disk[path].failures >= MAX_FAILURES)
    ensures path in Candidates(disk, env) ==> path in env.sizes && env.sizes[path] > disk[path].size
  {
    if path in Candidates(disk, env) {
      OpensEligible(disk, env, path);
    }
  }

  // ------------------------------------------------ when a run can overshoot the limit

  function Repeat(r: nat, x: Record): seq<Record> {
    seq(r, _ => x)
  }

  /** Every try breaks before it counts as attempted. */
  function Breaking(env: Env): Env {
    env.(tries := _ => Attempt(Break(false), 0))
  }

  lemma {:induction false} BreakingTriesAll(start: Progress, env: Env, paths: seq<string>, n: nat, path: string)
    requires env.cap > 0 && n <= |paths| && start.log == [] && start.attempted == 0 && !start.halted
    requires forall p :: p in paths ==> p in env.sizes
    requires forall i :: env.tries(i) == Attempt(Break(false), 0)
    ensures var g := TriedTo(start, env, paths, n);
            && g.attempted == 0 && !g.halted
            && if path in env.sizes then OfPath(g.log, path) == Repeat(TimesTo(paths, path, n), Record(path, env.sizes[path], Failed))
               else OfPath(g.log, path) == []
  {
    if n > 0 {
      BreakingTriesAll(start, env, paths, n - 1, path);
      var g, current := TriedTo(start, env, paths, n - 1), paths[n - 1];
      var size := env.sizes[current];
      WriteLogs(g, current, Entry(size, NextFailures(Get(g.memory, current), size), Failed), 0, path);
    }
  }

  /** Which transcripts a run tries is settled before it tries any. */
  lemma {:induction false} SameCandidates(state: State, env: Env, tries: nat -> Attempt, n: nat)
    requires n <= |env.found|
    ensures TouchedTo(state, env.(tries := tries), n) == TouchedTo(state, env, n)
    ensures CandidatesTo(state, env.(tries := tries), n) == CandidatesTo(state, env, n)
  {
    if n > 0 {
      SameCandidates(state, env, tries, n - 1);
    }
  }

  /** If every try of a transcript breaks, each of them is recorded. */
  lemma BreakingRecordsAll(disk: State, env: Env, path: string)
    requires env.cap > 0
    ensures var k := Tries(disk, env, path);
            var log := OfPath(Run(disk, Breaking(env)).log, path);
            k > 0 ==> path in env.sizes && log == Repeat(k, Record(path, env.sizes[path], Failed))
  {
    var worst := Breaking(env);
    SameCandidates(disk, env, worst.tries, |env.found|);
    var start, paths := Opening(disk, worst), Candidates(disk, worst);
    assert env.found[..|env.found|] == env.found && paths[..|paths|] == paths;
    TimesIsMember(paths, path, |paths|);
    BreakingTriesAll(start, worst, paths, |paths|, path);
  }

  /** The tries of a run fit what is left of the limit. */
  predicate Safe(disk: State, env: Env, path: string) {
    var k := Tries(disk, env, path);
    k == 0 || env.cap == 0 || (path in env.sizes && Standing(Get(disk, path), env.sizes[path]) + k <= MAX_FAILURES)
  }

  // -------------------------------------------------------------- uploads in one run

  function UploadsIn(records: seq<Record>): nat {
    if records == [] then 0 else UploadsIn(records[..|records| - 1]) + if records[|records| - 1].status == Uploaded then 1 else 0
  }

  function Uploads(log: seq<Record>, path: string): nat {
    UploadsIn(OfPath(log, path))
  }

  lemma {:induction false} UploadsAmong(records: seq<Record>)
    ensures UploadsIn(records) <= |records|
    decreases |records|
  {
    if records != [] {
      UploadsAmong(records[..|records| - 1]);
    }
  }

  lemma WriteUploads(g: Progress, current: string, entry: Entry, counted: nat, path: string)
    ensures Uploads(Write(g, current, entry, counted).log, path)
         == Uploads(g.log, path) + if current == path && entry.status == Uploaded then 1 else 0
  {
    WriteLogs(g, current, entry, counted, path);
    var before, after := OfPath(g.log, path), OfPath(Write(g, current, entry, counted).log, path);
    if current == path {
      assert after[..|after| - 1] == before;
    }
  }

  /** An upload counts as an attempt. */
  lemma TryCounts(g: Progress, env: Env, current: string, i: nat, path: string)
    requires current in env.sizes
    ensures var h := Try(g, env, current, i);
            h.attempted <= g.attempted + 1 && Uploads(h.log, path) - Uploads(g.log, path) <= h.attempted - g.attempted
  {
    var counted := TryWrites(g, env, current, i);
    if Outcome(env, current, i).Some? {
      WriteUploads(g, current, Entered(Get(g.memory, current), Outcome(env, current, i).value), counted, path);
    }
  }

  lemma {:induction false} AttemptsCount(start: Progress, env: Env, paths: seq<string>, n: nat, path: string)
    requires n <= |paths| && start.log == [] && start.attempted == 0
    requires forall p :: p in paths ==> p in env.sizes
    ensures var g := TriedTo(start, env, paths, n); Uploads(g.log, path) <= g.attempted <= env.cap
  {
    if n > 0 {
      AttemptsCount(start, env, paths, n - 1, path);
      TryCounts(TriedTo(start, env, paths, n - 1), env, paths[n - 1], n - 1, path);
    }
  }

  lemma UploadsAreCapped(disk: State, env: Env, path: string)
    ensures Uploads(Run(disk, env).log, path) <= env.cap && Uploads(Run(disk, env).log, path) <= Tries(disk, env, path)
  {
    var paths := Candidates(disk, env);
    AttemptsCount(Opening(disk, env), env, paths, |paths|, path);
    RunIsPathStep(disk, env, path);
    UploadsAmong(OfPath(Run(disk, env).log, path));
  }

  /** Every try of this transcript is accepted and no other counts. */
  function Accepting(env: Env, paths: seq<string>, path: string): Env {
    env.(tries := (i: nat) => Attempt(if i < |paths| && paths[i] == path then Accept else Skip, 0))
  }

  lemma {:induction false} AcceptingTriesAll(start: Progress, env: Env, paths: seq<string>, n: nat, path: string)
    requires n <= |paths| && start.log == [] && start.attempted == 0 && !start.halted
    requires forall p :: p in paths ==> p in env.sizes
    requires forall i :: 0 <= i < |paths| ==> env.tries(i).fate == if paths[i] == path then Accept else Skip
    ensures var g := TriedTo(start, env, paths, n);
            var r := if TimesTo(paths, path, n) <= env.cap then TimesTo(paths, path, n) else env.cap;
            g.attempted == r && !g.halted && Uploads(g.log, path) == r
  {
    if n > 0 {
      AcceptingTriesAll(start, env, paths, n - 1, path);
      var g, current := TriedTo(start, env, paths, n - 1), paths[n - 1];
      var size := env.sizes[current] + env.tries(n - 1).growth;
      if current == path {
        WriteUploads(g, current, Entry(size, 0, Uploaded), 1, path);
      } else {
        WriteUploads(g, current, Entry(size, 0, Skipped), 0, path);
      }
    }
  }

  /** A run uploads a transcript at most once, whatever becomes of each of its tries, if and only if
      it means to try it at most once or may attempt at most one upload. */
  lemma UploadsOnceExactly(disk: State, env: Env, path: string)
    ensures (forall tries :: Uploads(Run(disk, env.(tries := tries)).log, path) <= 1)
            <==> Tries(disk, env, path) <= 1 || env.cap <= 1
  {
    if Tries(disk, env, path) <= 1 || env.cap <= 1 {
      forall tries ensures Uploads(Run(disk, env.(tries := tries)).log, path) <= 1 {
        UploadsAreCapped(disk, env.(tries := tries), path);
        SameCandidates(disk, env, tries, |env.found|);
      }
    } else {
      var worst := Accepting(env, Candidates(disk, env), path);
      SameCandidates(disk, env, worst.tries, |env.found|);
      var paths := Candidates(disk, worst);
      AcceptingTriesAll(Opening(disk, worst), worst, paths, |paths|, path);
      assert Uploads(Run(disk, env.(tries := worst.tries)).log, path) > 1;
    }
  }

  // ---------------------------------------------------------- one transcript over runs

  /** Failures in a row at one size, at the end of a history. */
  function Row(history: seq<Record>): nat {
    if history == [] || history[|history| - 1].status != Failed then 0
    else if |history| > 1 && history[|history| - 2].size == history[|history| - 1].size then Row(history[..|history| - 1]) + 1
    else 1
  }

  /** At no time did more than three failures stand in a row. */
  ghost predicate RowsBounded(history: seq<Record>) {
    forall n :: 0 <= n <= |history| ==> Row(history[..n]) <= MAX_FAILURES
  }

  /** Sizes never fall. */
  ghost predicate Ordered(history: seq<Record>) {
    forall i, j :: 0 <= i < j < |history| ==> history[i].size <= history[j].size
  }

  /** After an upload or a skip sizes rise. */
  ghost predicate Rising(history: seq<Record>) {
    forall i, j :: 0 <= i < j < |history| && history[i].status != Failed ==> history[i].size < history[j].size
  }

  /** What holds of a transcript at any time; `floor` is the last size it was seen at. The failure
      count is the number of failures in a row, until growth is noted. */
  ghost predicate Inv(entry: Option<Entry>, history: seq<Record>, floor: nat) {
    && (entry.None? <==> history == [])
    && Ordered(history)
    && (entry.Some? ==>
          && history[|history| - 1].size == entry.value.size && history[|history| - 1].status == entry.value.status
          && entry.value.size <= floor
          && (entry.value.size == floor ==> entry.value.failures == Row(history)))
  }

  lemma EnteredKeeps(entry: Option<Entry>, history: seq<Record>, floor: nat, x: Record)
    requires Inv(entry, history, floor) && floor <= x.size
    ensures Inv(Some(Entered(entry, x)), history + [x], x.size)
    ensures Row(history + [x]) <= Standing(entry, x.size) + 1
  {
    var longer := history + [x];
    assert longer[..|longer| - 1] == history;
    forall i | 0 <= i < |history| ensures history[i].size <= x.size {
      assert i == |history| - 1 || history[i].size <= history[|history| - 1].size;
    }
  }

  /** The last size on record, or else the given one. */
  function LastSize(records: seq<Record>, floor: nat): nat {
    if records == [] then floor else records[|records| - 1].size
  }

  /** Outcomes add at most their number to the failures in a row that counted before. */
  lemma {:induction false} LoggedKeeps(entry: Option<Entry>, history: seq<Record>, floor: nat, size: nat, records: seq<Record>)
    requires Inv(entry, history, floor) && floor <= size && AtLeast(records, size) && Ordered(records) && records != []
    ensures Inv(Logged(entry, records), history + records, LastSize(records, size))
    ensures Row(history + records) <= Standing(entry, size) + |records|
    decreases |records|
  {
    var init, x := records[..|records| - 1], records[|records| - 1];
    assert history + records == history + init + [x];
    if init == [] {
      assert history + init == history;
      EnteredKeeps(entry, history, floor, x);
    } else {
      LoggedKeeps(entry, history, floor, size, init);
      EnteredKeeps(Logged(entry, init), history + init, LastSize(init, size), x);
    }
  }

  lemma RowsExtend(history: seq<Record>, records: seq<Record>)
    requires RowsBounded(history)
    requires forall n :: 0 < n <= |records| ==> Row(history + records[..n]) <= MAX_FAILURES
    ensures RowsBounded(history + records)
  {
    var all := history + records;
    forall n | 0 <= n <= |all| ensures Row(all[..n]) <= MAX_FAILURES {
      if n <= |history| {
        assert all[..n] == history[..n];
      } else {
        assert all[..n] == history + records[..n - |history|];
      }
    }
  }

  /** Outcomes that fit what is left of the limit keep every row within it. */
  lemma SafeRows(entry: Option<Entry>, history: seq<Record>, floor: nat, size: nat, records: seq<Record>)
    requires Inv(entry, history, floor) && RowsBounded(history) && floor <= size && AtLeast(records, size) && Ordered(records)
    requires Standing(entry, size) + |records| <= MAX_FAILURES
    ensures RowsBounded(history + records)
  {
    forall n | 0 < n <= |records| ensures Row(history + records[..n]) <= MAX_FAILURES {
      LoggedKeeps(entry, history, floor, size, records[..n]);
    }
    RowsExtend(history, records);
  }

  /** What a run saw of a transcript: its size, if it was there, and the outcomes recorded. */
  datatype Visit = Visit(scanned: Option<nat>, records: seq<Record>)

  function Visited(disk: State, env: Env, path: string): Visit {
    Visit(if path in env.sizes then Some(env.sizes[path]) else None, OfPath(Run(disk, env).log, path))
  }

  /** The transcript has not shrunk, below what was seen before or between tries. */
  ghost predicate Grows(visit: Visit, floor: nat) {
    (visit.scanned.Some? ==> floor <= visit.scanned.value) && Ordered(visit.records)
  }

  /** The last size seen. */
  function Seen(visit: Visit, floor: nat): nat {
    LastSize(visit.records, if visit.scanned.Some? then visit.scanned.value else floor)
  }

  /** One run keeps the invariant, and a safe one the limit. */
  lemma OneRunKeeps(disk: State, env: Env, path: string, history: seq<Record>, floor: nat)
    requires Inv(Get(disk, path), history, floor) && Grows(Visited(disk, env, path), floor)
    ensures var visit := Visited(disk, env, path);
            && Inv(Get(Run(disk, env).disk, path), history + visit.records, Seen(visit, floor))
            && (RowsBounded(history) && Safe(disk, env, path) ==> RowsBounded(history + visit.records))
  {
    RunIsPathStep(disk, env, path);
    var records := OfPath(Run(disk, env).log, path);
    if records == [] {
      assert history + records == history;
    } else {
      LoggedKeeps(Get(disk, path), history, floor, env.sizes[path], records);
      if RowsBounded(history) && Safe(disk, env, path) {
        SafeRows(Get(disk, path), history, floor, env.sizes[path], records);
      }
    }
  }

  /** The last size seen in the first `n` visits. */
  function Floor(visits: seq<Visit>, n: nat): nat
    requires n <= |visits|
  {
    if n == 0 then 0 else Seen(visits[n - 1], Floor(visits, n - 1))
  }

  /** Everything recorded for the transcript in the first `n` visits. */
  function History(visits: seq<Visit>, n: nat): seq<Record>
    requires n <= |visits|
  {
    if n == 0 then [] else History(visits, n - 1) + visits[n - 1].records
  }

  /** The `k`-th run starts where the one before left off, and the transcript has not shrunk. */
  ghost predicate Follows(disks: seq<State>, envs: seq<Env>, visits: seq<Visit>, path: string, k: nat)
    requires k < |envs| == |visits| && |disks| == |envs| + 1
  {
    && disks[k + 1] == Run(disks[k], envs[k]).disk && visits[k] == Visited(disks[k], envs[k], path)
    && Grows(visits[k], Floor(visits, k))
  }

  /** A sequence of runs on one state file that starts without an entry for the transcript, which
      never shrinks; `visits` is what the runs see of it. */
  ghost predicate IsRun(disks: seq<State>, envs: seq<Env>, visits: seq<Visit>, path: string) {
    && |visits| == |envs| && |disks| == |envs| + 1 && path !in disks[0]
    && forall k :: 0 <= k < |envs| ==> Follows(disks, envs, visits, path, k)
  }

  ghost predicate SafeTo(disks: seq<State>, envs: seq<Env>, path: string, n: nat)
    requires n <= |envs| && n <= |disks|
  {
    forall k {:trigger envs[k]} :: 0 <= k < n ==> Safe(disks[k], envs[k], path)
  }

  ghost predicate InvAt(disks: seq<State>, visits: seq<Visit>, path: string, n: nat)
    requires n <= |visits| && n < |disks|
  {
    Inv(Get(disks[n], path), History(visits, n), Floor(visits, n))
  }

  lemma NextKeeps(disks: seq<State>, envs: seq<Env>, visits: seq<Visit>, path: string, k: nat)
    requires k < |envs| == |visits| && |disks| == |envs| + 1 && Follows(disks, envs, visits, path, k) && InvAt(disks, visits, path, k)
    ensures InvAt(disks, visits, path, k + 1)
    ensures RowsBounded(History(visits, k)) && Safe(disks[k], envs[k], path) ==> RowsBounded(History(visits, k + 1))
  {
    OneRunKeeps(disks[k], envs[k], path, History(visits, k), Floor(visits, k));
  }

  lemma {:induction false} RunKeeps(disks: seq<State>, envs: seq<Env>, visits: seq<Visit>, path: string, n: nat)
    requires IsRun(disks, envs, visits, path) && n <= |envs|
    ensures InvAt(disks, visits, path, n)
  {
    if n > 0 {
      RunKeeps(disks, envs, visits, path, n - 1);
      NextKeeps(disks, envs, visits, path, n - 1);
    }
  }

  lemma {:induction false} SafeRunsKeep(disks: seq<State>, envs: seq<Env>, visits: seq<Visit>, path: string, n: nat)
    requires IsRun(disks, envs, visits, path) && n <= |envs| && SafeTo(disks, envs, path, n)
    ensures RowsBounded(History(visits, n))
  {
    if n > 0 {
      SafeRunsKeep(disks, envs, visits, path, n - 1);
      RunKeeps(disks, envs, visits, path, n - 1);
      NextKeeps(disks, envs, visits, path, n - 1);
    }
  }

  /** The bound over sequences of runs, exactly: after any number of safe runs, the next run keeps
      the failures in a row at one size within three, whatever becomes of each of its tries and
      however the transcript grows meanwhile, if and only if it is safe too. */
  lemma RetriesBoundedExactly(disks: seq<State>, envs: seq<Env>, visits: seq<Visit>, path: string, n: nat)
    requires IsRun(disks, envs, visits, path) && n < |envs| && SafeTo(disks, envs, path, n)
    ensures (forall tries :: Ordered(Visited(disks[n], envs[n].(tries := tries), path).records) ==>
               RowsBounded(History(visits, n) + Visited(disks[n], envs[n].(tries := tries), path).records))
            <==> Safe(disks[n], envs[n], path)
  {
    RunKeeps(disks, envs, visits, path, n);
    SafeRunsKeep(disks, envs, visits, path, n);
    assert Follows(disks, envs, visits, path, n);
    NextBoundedExactly(disks[n], envs[n], path, History(visits, n), Floor(visits, n));
  }

  lemma NextBoundedExactly(disk: State, env: Env, path: string, history: seq<Record>, floor: nat)
    requires Inv(Get(disk, path), history, floor) && RowsBounded(history) && (path in env.sizes ==> floor <= env.sizes[path])
    ensures (forall tries :: Ordered(Visited(disk, env.(tries := tries), path).records) ==>
               RowsBounded(history + Visited(disk, env.(tries := tries), path).records))
            <==> Safe(disk, env, path)
  {
    if Safe(disk, env, path) {
      forall tries | Ordered(Visited(disk, env.(tries := tries), path).records)
        ensures RowsBounded(history + Visited(disk, env.(tries := tries), path).records)
      {
        SameCandidates(disk, env, tries, |env.found|);
        OneRunKeeps(disk, env.(tries := tries), path, history, floor);
      }
    } else {
      UnsafeOvershoots(disk, env, path, history, floor);
      var tries := Breaking(env).tries;
      assert env.(tries := tries) == Breaking(env);
      assert Ordered(Visited(disk, env.(tries := tries), path).records);
    }
  }

  /** Repeated failures at a size on top of those that count there. */
  lemma {:induction false} RowOfRepeat(entry: Option<Entry>, history: seq<Record>, floor: nat, r: nat, x: Record)
    requires Inv(entry, history, floor) && floor <= x.size && x.status == Failed && r > 0
    ensures Row(history + Repeat(r, x)) == Standing(entry, x.size) + r
  {
    var longer := history + Repeat(r, x);
    assert longer[..|longer| - 1] == history + Repeat(r - 1, x);
    if r > 1 {
      RowOfRepeat(entry, history, floor, r - 1, x);
    } else {
      assert history + Repeat(r - 1, x) == history;
    }
  }

  /** A run that is not safe goes past the limit if every try breaks. */
  lemma UnsafeOvershoots(disk: State, env: Env, path: string, history: seq<Record>, floor: nat)
    requires Inv(Get(disk, path), history, floor) && !Safe(disk, env, path)
    requires path in env.sizes ==> floor <= env.sizes[path]
    ensures Ordered(OfPath(Run(disk, Breaking(env)).log, path))
    ensures !RowsBounded(history + OfPath(Run(disk, Breaking(env)).log, path))
  {
    var k, paths := Tries(disk, env, path), Candidates(disk, env);
    BreakingRecordsAll(disk, env, path);
    var x := Record(path, env.sizes[path], Failed);
    RowOfRepeat(Get(disk, path), history, floor, k, x);
    var all := history + Repeat(k, x);
    assert all[..|all|] == all;
  }

  // ------------------------------------------------------- all failures at one size

  function FailuresAt(history: seq<Record>, size: nat): nat {
    if history == [] then 0
    else FailuresAt(history[..|history| - 1], size)
         + if history[|history| - 1].size == size && history[|history| - 1].status == Failed then 1 else 0
  }

  lemma {:induction false} NothingAbove(history: seq<Record>, size: nat)
    requires forall i :: 0 <= i < |history| ==> history[i].size < size
    ensures FailuresAt(history, size) == 0
    decreases |history|
  {
    if history != [] {
      NothingAbove(history[..|history| - 1], size);
    }
  }

  /** If sizes rise after each upload and skip, all failures at the last size stand in a row. */
  lemma {:induction false} RowIsTotal(history: seq<Record>)
    requires Ordered(history) && Rising(history) && history != [] && history[|history| - 1].status == Failed
    ensures FailuresAt(history, history[|history| - 1].size) == Row(history)
    decreases |history|
  {
    var init, x := history[..|history| - 1], history[|history| - 1];
    if init != [] && init[|init| - 1].size == x.size {
      RowIsTotal(init);
    } else {
      forall i | 0 <= i < |init| ensures init[i].size < x.size {
        assert i == |init| - 1 || init[i].size <= init[|init| - 1].size;
      }
      NothingAbove(init, x.size);
    }
  }

  lemma {:induction false} TotalIsBounded(history: seq<Record>, size: nat)
    requires Ordered(history) && Rising(history) && RowsBounded(history)
    ensures FailuresAt(history, size) <= MAX_FAILURES
    decreases |history|
  {
    if history != [] {
      var init, x := history[..|history| - 1], history[|history| - 1];
      forall n | 0 <= n <= |init| ensures Row(init[..n]) <= MAX_FAILURES {
        assert init[..n] == history[..n];
      }
      TotalIsBounded(init, size);
      if x.status == Failed && x.size == size {
        RowIsTotal(history);
        assert history[..|history|] == history;
      }
    }
  }

  /** A run that finds a transcript once is safe. */
  lemma FoundOnceIsSafe(disk: State, env: Env, path: string)
    requires TimesTo(env.found, path, |env.found|) <= 1
    ensures Safe(disk, env, path) && Tries(disk, env, path) <= 1
  {
    TriesExactly(disk, env, path);
  }

  /** A run that tries the transcript once at most records an outcome only above every upload and skip. */
  lemma OneTryRises(disk: State, env: Env, path: string, history: seq<Record>, floor: nat)
    requires Inv(Get(disk, path), history, floor) && Grows(Visited(disk, env, path), floor) && Rising(history)
    requires Tries(disk, env, path) <= 1
    ensures Rising(history + Visited(disk, env, path).records)
  {
    RunIsPathStep(disk, env, path);
    var records := OfPath(Run(disk, env).log, path);
    if records == [] {
      assert history + records == history;
    } else {
      forall i | 0 <= i < |history| && history[i].status != Failed ensures history[i].size < records[0].size {
        assert i == |history| - 1 || history[i].size < history[|history| - 1].size;
      }
    }
  }

  ghost predicate FoundAtMost(envs: seq<Env>, path: string, k: nat) {
    forall i {:trigger envs[i]} :: 0 <= i < |envs| ==> TimesTo(envs[i].found, path, |envs[i].found|) <= k
  }

  lemma NextRises(disks: seq<State>, envs: seq<Env>, visits: seq<Visit>, path: string, k: nat)
    requires k < |envs| == |visits| && |disks| == |envs| + 1 && Follows(disks, envs, visits, path, k) && InvAt(disks, visits, path, k)
    requires Rising(History(visits, k)) && TimesTo(envs[k].found, path, |envs[k].found|) <= 1
    ensures Rising(History(visits, k + 1))
  {
    FoundOnceIsSafe(disks[k], envs[k], path);
    OneTryRises(disks[k], envs[k], path, History(visits, k), Floor(visits, k));
  }

  lemma {:induction false} FoundOnceRises(disks: seq<State>, envs: seq<Env>, visits: seq<Visit>, path: string, n: nat)
    requires IsRun(disks, envs, visits, path) && n <= |envs| && FoundAtMost(envs, path, 1)
    ensures Rising(History(visits, n))
  {
    if n > 0 {
      FoundOnceRises(disks, envs, visits, path, n - 1);
      RunKeeps(disks, envs, visits, path, n - 1);
      NextRises(disks, envs, visits, path, n - 1);
    }
  }

  /** So if every run finds the transcript at most once, at most three failures are ever recorded at
      one size, and each upload is of a larger file than the one before. */
  lemma RetriesAreBounded(disks: seq<State>, envs: seq<Env>, visits: seq<Visit>, path: string, n: nat, size: nat)
    requires IsRun(disks, envs, visits, path) && n <= |envs| && FoundAtMost(envs, path, 1)
    ensures var history := History(visits, n);
            && FailuresAt(history, size) <= MAX_FAILURES
            && forall i, j :: 0 <= i < j < |history| && history[i].status == Uploaded && history[j].status == Uploaded ==>
                 history[i].size < history[j].size
  {
    forall k | 0 <= k < n ensures Safe(disks[k], envs[k], path) {
      FoundOnceIsSafe(disks[k], envs[k], path);
    }
    RunKeeps(disks, envs, visits, path, n);
    SafeRunsKeep(disks, envs, visits, path, n);
    FoundOnceRises(disks, envs, visits, path, n);
    TotalIsBounded(History(visits, n), size);
  }

  // ------------------------------------------------------ transcripts found twice

  lemma PickedTwice(disk: State, env: Env, path: string)
    requires env.found == [path, path] && TouchAt(disk, env, path) == disk && Picked(disk, env, path)
    ensures TouchedTo(disk, env, 2) == disk && Candidates(disk, env) == [path, path]
    ensures Tries(disk, env, path) == 2
  {
    assert TouchedTo(disk, env, 0) == disk;
    assert TouchedTo(disk, env, 1) == disk;
    assert CandidatesTo(disk, env, 0) == [];
    assert CandidatesTo(disk, env, 1) == [path];
    var paths := [path, path];
    assert TimesTo(paths, path, 1) == 1 && TimesTo(paths, path, 2) == 2;
  }

  /** Two tries of one transcript. */
  function Twice(path: string, size: nat, first: Fate, second: Fate): Env {
    Env([path, path], map[path := size], {path}, (i: nat) => Attempt(if i == 0 then first else second, 0), 20)
  }

  lemma TwiceTries(disk: State, path: string, size: nat, first: Fate, second: Fate)
    requires var env := Twice(path, size, first, second);
             TouchAt(disk, env, path) == disk && Picked(disk, env, path)
    ensures var env := Twice(path, size, first, second);
            var once := Try(Progress(disk, disk, 0, [], false), env, path, 0);
            Run(disk, env) == (if once.halted then once else Try(once, env, path, 1))
  {
    var env := Twice(path, size, first, second);
    PickedTwice(disk, env, path);
    var start, paths := Opening(disk, env), [path, path];
    assert TriedTo(start, env, paths, 0) == start == Progress(disk, disk, 0, [], false);
    var once := Try(start, env, path, 0);
    assert TriedTo(start, env, paths, 1) == once;
    assert TriedTo(start, env, paths, 2) == if once.halted then once else Try(once, env, path, 1);
  }

  /** A run that is not safe: a transcript with two failures that is found twice, through a link, is
      tried twice on the strength of one check and fails a fourth time in a row. */
  lemma FoundTwiceFailsAgain(path: string, size: nat)
    ensures var disk := map[path := Entry(size, 2, Failed)];
            var env := Twice(path, size, Refuse, Refuse);
            !Safe(disk, env, path) && Run(disk, env).disk == map[path := Entry(size, 4, Failed)]
  {
    var disk := map[path := Entry(size, 2, Failed)];
    var env := Twice(path, size, Refuse, Refuse);
    PickedTwice(disk, env, path);
    TwiceTries(disk, path, size, Refuse, Refuse);
  }

  /** The state before and after each of these runs. */
  function Alternating(path: string, size: nat, k: nat): State {
    if k == 0 then map[] else map[path := Entry(size, 1, Failed)]
  }

  /** A transcript found twice whose first try is accepted and whose second is refused is left with
      one failure, whether it had one or none. */
  lemma AcceptThenRefuse(path: string, size: nat, k: nat)
    ensures var disk, env := Alternating(path, size, k), Twice(path, size, Accept, Refuse);
            && Safe(disk, env, path) && Run(disk, env).disk == Alternating(path, size, k + 1)
            && OfPath(Run(disk, env).log, path) == Pair(path, size)
  {
    var disk, env := Alternating(path, size, k), Twice(path, size, Accept, Refuse);
    PickedTwice(disk, env, path);
    TwiceTries(disk, path, size, Accept, Refuse);
    TwoWrites(disk, path, Entry(size, 0, Uploaded), Entry(size, 1, Failed));
    AcceptedThenRefused(disk, path, size);
  }

  function Pair(path: string, size: nat): seq<Record> {
    [Record(path, size, Uploaded), Record(path, size, Failed)]
  }

  /** The two tries as writes. */
  lemma AcceptedThenRefused(disk: State, path: string, size: nat)
    ensures var env, start := Twice(path, size, Accept, Refuse), Progress(disk, disk, 0, [], false);
            var once := Write(start, path, Entry(size, 0, Uploaded), 1);
            && Try(start, env, path, 0) == once && !once.halted
            && Try(once, env, path, 1) == Write(once, path, Entry(size, 1, Failed), 1)
  {
  }

  lemma TwoWrites(disk: State, path: string, first: Entry, second: Entry)
    ensures var g := Write(Write(Progress(disk, disk, 0, [], false), path, first, 1), path, second, 1);
            OfPath(g.log, path) == [Record(path, first.size, first.status), Record(path, second.size, second.status)]
  {
    var start := Progress(disk, disk, 0, [], false);
    WriteLogs(start, path, first, 1, path);
    WriteLogs(Write(start, path, first, 1), path, second, 1, path);
  }

  lemma FailuresOfPair(history: seq<Record>, path: string, size: nat)
    ensures FailuresAt(history + Pair(path, size), size) == FailuresAt(history, size) + 1
  {
    var a, b := Record(path, size, Uploaded), Record(path, size, Failed);
    var longer, middle := history + [a, b], history + [a];
    assert longer[..|longer| - 1] == middle && middle[..|middle| - 1] == history;
  }

  lemma {:induction false} PairsCount(visits: seq<Visit>, path: string, size: nat, n: nat)
    requires n <= |visits| && forall k :: 0 <= k < |visits| ==> visits[k] == Visit(Some(size), Pair(path, size))
    ensures Floor(visits, n) <= size && FailuresAt(History(visits, n), size) == n
  {
    if n > 0 {
      PairsCount(visits, path, size, n - 1);
      FailuresOfPair(History(visits, n - 1), path, size);
    }
  }

  ghost predicate Alternates(disks: seq<State>, envs: seq<Env>, visits: seq<Visit>, path: string, size: nat) {
    && |visits| == |envs| && |disks| == |envs| + 1
    && (forall k :: 0 <= k < |disks| ==> disks[k] == Alternating(path, size, k))
    && (forall k :: 0 <= k < |envs| ==> envs[k] == Twice(path, size, Accept, Refuse))
    && (forall k :: 0 <= k < |visits| ==> visits[k] == Visit(Some(size), Pair(path, size)))
  }

  lemma AlternatesAt(disks: seq<State>, envs: seq<Env>, visits: seq<Visit>, path: string, size: nat, k: nat)
    requires Alternates(disks, envs, visits, path, size) && k < |envs|
    ensures Safe(disks[k], envs[k], path) && Follows(disks, envs, visits, path, k)
    ensures TimesTo(envs[k].found, path, |envs[k].found|) == 2
  {
    PairsCount(visits, path, size, k);
    AcceptThenRefuse(path, size, k);
    FoundTwice(path);
  }

  lemma FoundTwice(path: string)
    ensures TimesTo([path, path], path, 2) == 2
  {
    assert TimesTo([path, path], path, 1) == 1;
  }

  lemma AlternatingRuns(disks: seq<State>, envs: seq<Env>, visits: seq<Visit>, path: string, size: nat)
    requires Alternates(disks, envs, visits, path, size)
    ensures IsRun(disks, envs, visits, path) && SafeTo(disks, envs, path, |envs|) && FoundAtMost(envs, path, 2)
  {
    forall k | 0 <= k < |envs|
      ensures Safe(disks[k], envs[k], path) && Follows(disks, envs, visits, path, k)
      ensures TimesTo(envs[k].found, path, |envs[k].found|) == 2
    {
      AlternatesAt(disks, envs, visits, path, size, k);
    }
  }

  /** The count of failures in a row does not bound all failures: for every `m` there are `m` safe
      runs that find a transcript twice, upload it and fail it again at one and the same size. */
  lemma FoundTwiceNeverStops(path: string, size: nat, m: nat) returns (disks: seq<State>, envs: seq<Env>, visits: seq<Visit>)
    ensures IsRun(disks, envs, visits, path) && |envs| == m && SafeTo(disks, envs, path, m) && FoundAtMost(envs, path, 2)
    ensures FailuresAt(History(visits, m), size) == m
  {
    disks := seq(m + 1, k requires k >= 0 => Alternating(path, size, k));
    envs := seq(m, _ => Twice(path, size, Accept, Refuse));
    visits := seq(m, _ => Visit(Some(size), Pair(path, size)));
    AlternatingRuns(disks, envs, visits, path, size);
    PairsCount(visits, path, size, m);
  }

  /** In all runs that find a transcript at most `k` times its failures at each size stay within three. */
  ghost predicate TotalsBounded(path: string, k: nat) {
    forall disks, envs, visits, size :: IsRun(disks, envs, visits, path) && FoundAtMost(envs, path, k) ==>
      FailuresAt(History(visits, |visits|), size) <= MAX_FAILURES
  }

  /** All failures at one size stay within three over every sequence of runs, if and only if no run
      finds the transcript more than once. */
  lemma TotalBoundedExactly(path: string, k: nat)
    ensures TotalsBounded(path, k) <==> k <= 1
  {
    if k <= 1 {
      forall disks, envs, visits, size | IsRun(disks, envs, visits, path) && FoundAtMost(envs, path, k)
        ensures FailuresAt(History(visits, |visits|), size) <= MAX_FAILURES
      {
        RetriesAreBounded(disks, envs, visits, path, |envs|, size);
      }
    } else {
      var disks, envs, visits := FoundTwiceNeverStops(path, 0, 4);
      assert FoundAtMost(envs, path, k) && FailuresAt(History(visits, |visits|), 0) == 4;
    }
  }
}
